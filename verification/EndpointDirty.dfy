/** Which stream calls leave something to flush, and that the caller is then not let to sleep. */
module EndpointDirty {
  import opened Base
  import opened ConnSpec
  import opened StreamSpec
  import opened EndpointSpec
  import opened EndpointWorld
  import opened EndpointTime

  /** Does the call leave something to flush? A write of at least a byte does, a read of at least a byte on a half not
      remembered as finished, a first finish, a reset or stop with a valid code. */
  predicate Works(b: Book, op: ConnOp) {
    match op
    case Write(_, len) => len > 0
    case Read(id, len, _) => len > 0 && id !in b.finishedReads
    case Finish(id, _) => id !in b.sendFins
    case Reset(_, code) => code < 0x4000_0000_0000_0000
    case Stop(_, code) => code < 0x4000_0000_0000_0000
    case OpenBi => false
    case AcceptBi => false
    case ForgetRecv(_) => false
    case ForgetSend(_) => false
    case Close => false
  }

  /** A connection is dirty after a call exactly if it was before or the call leaves something to flush. */
  lemma WorkDirties(b: Book, op: ConnOp)
    ensures ApplyOp(b, op).dirty <==> b.dirty || Works(b, op)
  {
  }

  /** The same of the calls that the stream methods are proved to compute. */
  lemma CallDirties(c: CoreConn, call: StreamCall)
    requires call.CallWrite? && CanWrite(c.streams, call.id, call.data) ==>
               1 <= call.n <= Min(c.streams.send[call.id].credit, |call.data|)
    ensures Called(c, call).book.dirty <==>
              || c.book.dirty
              || (call.CallWrite? && call.data != [])
              || (call.CallRead? && call.len > 0 && call.id !in c.book.finishedReads)
              || (call.CallFinish? && call.id !in c.book.sendFins)
              || ((call.CallReset? || call.CallStop?) && call.code < 0x4000_0000_0000_0000)
  {
    CallIsWork(c, call);
    WorkDirties(c.book, WorkOf(c, call));
  }

  ghost predicate DirtyAt(w: World, h: Handle) {
    h in w.ep.core.connections && w.ep.core.connections[h].dirty
  }

  /** What does not service leaves a dirty connection dirty. */
  lemma StaysDirty(cfg: Config, w: World, i: Input, h: Handle)
    requires |w.ep.guards| == |cfg.clients| && !Services(cfg, w, i) && DirtyAt(w, h)
    ensures DirtyAt(Step(cfg, w, i), h)
  {
    match i {
      case Datagram(_, _, _, _, _, _, _) => RejectedKeepsCore(cfg, w, i);
      case PollTransmit(_, _) =>
      case PollEvent =>
      case Work(g, op) =>
        if g == h { WorkDirties(w.ep.core.connections[h], op); }
    }
  }

  lemma RejectedKeepsCore(cfg: Config, w: World, i: Input)
    requires |w.ep.guards| == |cfg.clients| && i.Datagram? && Rejected(cfg, w.ep, i)
    ensures Step(cfg, w, i).ep.core == w.ep.core
  {
  }

  ghost predicate ServicesAt(cfg: Config, ws: seq<World>, ins: seq<Input>, m: nat) {
    m < |ws| && m < |ins| && |ws[m].ep.guards| == |cfg.clients| && Services(cfg, ws[m], ins[m])
  }

  /** Call `j` of the run is work on the live connection `h`. */
  ghost predicate WorksAt(ws: seq<World>, ins: seq<Input>, j: nat, h: Handle) {
    && j < |ws| && j < |ins| && ins[j].Work? && ins[j].conn == h
    && h in ws[j].ep.core.connections && Works(ws[j].ep.core.connections[h], ins[j].op)
  }

  lemma WorkMakesDirty(cfg: Config, w: World, h: Handle, op: ConnOp)
    requires |w.ep.guards| == |cfg.clients| && h in w.ep.core.connections && Works(w.ep.core.connections[h], op)
    ensures DirtyAt(Step(cfg, w, Work(h, op)), h)
  {
    WorkDirties(w.ep.core.connections[h], op);
  }

  lemma {:induction false} RunStaysDirty(cfg: Config, ws: seq<World>, ins: seq<Input>, j: nat, k: nat, h: Handle)
    requires IsRun(cfg, ws, ins) && j < k < |ws| && WorksAt(ws, ins, j, h)
    requires forall m: nat :: j < m < k ==> !ServicesAt(cfg, ws, ins, m)
    ensures DirtyAt(ws[k], h)
  {
    assert StepAt(cfg, ws, ins, k - 1);
    if k == j + 1 {
      WorkMakesDirty(cfg, ws[j], h, ins[j].op);
    } else {
      RunStaysDirty(cfg, ws, ins, j, k - 1, h);
      assert !ServicesAt(cfg, ws, ins, k - 1);
      StaysDirty(cfg, ws[k - 1], ins[k - 1], h);
    }
  }

  /** Over every run whose clock never goes back: from work on a live connection until the next servicing pass there
      is a deadline, and no later call comes before it. */
  lemma WorkNeverSleeps(cfg: Config, ws: seq<World>, ins: seq<Input>, j: nat, k: nat, h: Handle)
    requires IsRun(cfg, ws, ins) && NowsMonotone(ins) && Awake(ws[0].ep.core, ins, 0)
    requires j < k < |ws| && WorksAt(ws, ins, j, h)
    requires forall m: nat :: j < m < k ==> !ServicesAt(cfg, ws, ins, m)
    ensures NextTimeout(ws[k].ep.core).Some? && Reached(NextTimeout(ws[k].ep.core).value, ins, k)
  {
    RunStaysDirty(cfg, ws, ins, j, k, h);
    DirtyNeverSleeps(cfg, ws, ins, k);
  }
}
