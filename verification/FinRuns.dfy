/** Facts about a stream's send half: they only move forward, the first terminal one stays, it is reported
    once, and whoever waits for the finish gets exactly that fact. */
module FinRuns {
  import opened Base
  import opened ByteCodec
  import opened Admission
  import opened ConnSpec
  import opened StreamSpec
  import opened ParkSpec
  import opened ReplyRuns
  import opened StreamRuns

  ghost predicate IsTerminal(f: Option<SendFin>) {
    f.Some? && Terminal(f.value)
  }

  /** Between releases a fact goes from none to queued to terminal, or straight to terminal. */
  ghost predicate Forward(f: Option<SendFin>, g: Option<SendFin>) {
    f == g || f == None || (f == Some(Queued) && IsTerminal(g))
  }

  // ---------------------------------------------------------------------
  // One batch of events
  // ---------------------------------------------------------------------

  /** The facts about `id` among reported acknowledgements. */
  function AckReports(ids: seq<StreamId>, id: StreamId): seq<SendFin> {
    if ids == [] then []
    else AckReports(ids[..|ids| - 1], id) + if ids[|ids| - 1] == id then [Acked] else []
  }

  function StopReports(stops: seq<(StreamId, nat)>, id: StreamId): seq<SendFin> {
    if stops == [] then []
    else StopReports(stops[..|stops| - 1], id) + if stops[|stops| - 1].0 == id then [Stopped(stops[|stops| - 1].1)] else []
  }

  function Reports(p: Progress, id: StreamId): seq<SendFin> {
    AckReports(p.finAcked, id) + StopReports(p.stopped, id)
  }

  lemma AckPush(ids: seq<StreamId>, x: StreamId, id: StreamId)
    ensures AckReports(ids + [x], id) == AckReports(ids, id) + if x == id then [Acked] else []
  {
    assert (ids + [x])[..|ids|] == ids;
  }

  lemma StopPush(stops: seq<(StreamId, nat)>, x: (StreamId, nat), id: StreamId)
    ensures StopReports(stops + [x], id) == StopReports(stops, id) + if x.0 == id then [Stopped(x.1)] else []
  {
    assert (stops + [x])[..|stops|] == stops;
  }

  /** What a batch may have reported about `id`, given the fact before and after it. */
  ghost predicate ReportedRight(f: Option<SendFin>, g: Option<SendFin>, reports: seq<SendFin>) {
    && Forward(f, g)
    && reports == if !IsTerminal(f) && IsTerminal(g) then [g.value] else []
  }

  lemma RecordFact(b: Book, x: StreamId, fact: SendFin, id: StreamId)
    ensures var (c, news) := RecordSendFin(b, x, fact);
            && FactOf(c, id) == (if x == id && !IsTerminal(FactOf(b, id)) then Some(fact) else FactOf(b, id))
            && news == (Terminal(fact) && !IsTerminal(FactOf(b, x)))
  {
  }

  lemma AckAdds(p: Progress, x: StreamId, id: StreamId)
    requires x == id ==> Reports(p, id) == []
    ensures Reports(p.(finAcked := p.finAcked + [x]), id) == Reports(p, id) + if x == id then [Acked] else []
  {
    AckPush(p.finAcked, x, id);
    if x == id { assert |Reports(p, id)| == |AckReports(p.finAcked, id)| + |StopReports(p.stopped, id)|; }
  }

  lemma StopAdds(p: Progress, x: StreamId, code: nat, id: StreamId)
    ensures Reports(p.(stopped := p.stopped + [(x, code)]), id) == Reports(p, id) + if x == id then [Stopped(code)] else []
  {
    StopPush(p.stopped, (x, code), id);
  }

  lemma ServeAck(b: Book, p: Progress, x: StreamId, id: StreamId, f: Option<SendFin>)
    requires ReportedRight(f, FactOf(b, id), Reports(p, id))
    ensures var (c, q) := ServeEvent(b, p, Finished(x));
            ReportedRight(f, FactOf(c, id), Reports(q, id))
  {
    RecordFact(b, x, Acked, id);
    if x != id || !IsTerminal(FactOf(b, id)) { AckAdds(p, x, id); }
  }

  lemma ServeStop(b: Book, p: Progress, x: StreamId, code: nat, id: StreamId, f: Option<SendFin>)
    requires ReportedRight(f, FactOf(b, id), Reports(p, id))
    ensures var (c, q) := ServeEvent(b, p, StoppedByPeer(x, code));
            ReportedRight(f, FactOf(c, id), Reports(q, id))
  {
    RecordFact(b, x, Stopped(code), id);
    StopAdds(p, x, code, id);
  }

  lemma ServeOne(b: Book, p: Progress, ev: ConnEvent, id: StreamId, f: Option<SendFin>)
    requires ReportedRight(f, FactOf(b, id), Reports(p, id))
    ensures var (c, q) := ServeEvent(b, p, ev);
            ReportedRight(f, FactOf(c, id), Reports(q, id))
  {
    match ev {
      case Finished(x) => ServeAck(b, p, x, id, f);
      case StoppedByPeer(x, code) => ServeStop(b, p, x, code, id, f);
      case HandshakeDone =>
      case Lost(_) =>
      case Opened(_) =>
      case Readable(_) =>
      case Writable(_) =>
      case Ignored =>
    }
  }

  /** A batch moves a fact forward; it reports the fact exactly when the batch made it terminal, so a late
      acknowledgement after a stop changes and reports nothing. */
  lemma {:induction false} BatchReports(b: Book, evs: seq<ConnEvent>, id: StreamId)
    ensures var (c, p) := ServiceStreams(b, evs);
            ReportedRight(FactOf(b, id), FactOf(c, id), Reports(p, id))
  {
    if evs == [] {
    } else {
      var n := |evs| - 1;
      BatchReports(b, evs[..n], id);
      var (c, p) := ServiceStreams(b, evs[..n]);
      ServeOne(c, p, evs[n], id, FactOf(b, id));
    }
  }

  // ---------------------------------------------------------------------
  // Runs of one connection's bookkeeping
  // ---------------------------------------------------------------------

  datatype BookStep = Operated(op: ConnOp) | Polled(evs: seq<ConnEvent>)

  /** Operations that release the fact about `id`. */
  predicate Releases(s: BookStep, id: StreamId) {
    s.Operated? && ((s.op.ForgetSend? && s.op.id == id) || (s.op.Reset? && s.op.id == id && IsVarint(s.op.code)))
  }

  function BookAfter(b: Book, s: BookStep): Book {
    match s case Operated(op) => ApplyOp(b, op) case Polled(evs) => ServiceStreams(b, evs).0
  }

  function ReportsIn(b: Book, s: BookStep, id: StreamId): seq<SendFin> {
    match s case Operated(op) => [] case Polled(evs) => Reports(ServiceStreams(b, evs).1, id)
  }

  function RunBook(b: Book, steps: seq<BookStep>): Book {
    if steps == [] then b else BookAfter(RunBook(b, steps[..|steps| - 1]), steps[|steps| - 1])
  }

  function RunReports(b: Book, steps: seq<BookStep>, id: StreamId): seq<SendFin> {
    if steps == [] then []
    else RunReports(b, steps[..|steps| - 1], id) + ReportsIn(RunBook(b, steps[..|steps| - 1]), steps[|steps| - 1], id)
  }

  lemma OpForward(b: Book, op: ConnOp, id: StreamId)
    requires !Releases(Operated(op), id)
    ensures Forward(FactOf(b, id), FactOf(ApplyOp(b, op), id))
  {
    match op {
      case Finish(x, answer) =>
        if x !in b.sendFins && answer.FinishStopped? { RecordFact(Marked(b), x, Stopped(answer.code), id); }
      case Reset(_, _) =>
      case ForgetSend(x) => assert x != id;
      case OpenBi =>
      case AcceptBi =>
      case Read(_, _, _) =>
      case Write(_, _) =>
      case Stop(_, _) =>
      case ForgetRecv(_) =>
      case Close =>
    }
  }

  /** What a single step keeps. */
  lemma StepSticky(b: Book, s: BookStep, id: StreamId)
    requires !Releases(s, id)
    ensures Forward(FactOf(b, id), FactOf(BookAfter(b, s), id))
    ensures ReportsIn(b, s, id) == [] ||
            (!IsTerminal(FactOf(b, id)) && IsTerminal(FactOf(BookAfter(b, s), id)) && ReportsIn(b, s, id) == [FactOf(BookAfter(b, s), id).value])
  {
    match s {
      case Operated(op) => OpForward(b, op, id);
      case Polled(evs) => BatchReports(b, evs, id);
    }
  }

  /** Between releases, over any run: the fact moves forward, once terminal it never changes, and over the
      whole run it is reported at most once and never wrongly. */
  lemma {:induction false} StickyFacts(b: Book, steps: seq<BookStep>, id: StreamId)
    requires forall k :: 0 <= k < |steps| ==> !Releases(steps[k], id)
    ensures var f, g := FactOf(b, id), FactOf(RunBook(b, steps), id);
            && Forward(f, g)
            && (IsTerminal(f) ==> RunReports(b, steps, id) == [])
            && (RunReports(b, steps, id) == [] || (IsTerminal(g) && RunReports(b, steps, id) == [g.value]))
  {
    if steps == [] {
    } else {
      var n := |steps| - 1;
      StickyFacts(b, steps[..n], id);
      var c := RunBook(b, steps[..n]);
      StepSticky(c, steps[n], id);
    }
  }

  // ---------------------------------------------------------------------
  // Waiting for the finish
  // ---------------------------------------------------------------------

  /** A reported fact on its way to the dispatcher. */
  datatype FinEvent = AckEvent(id: StreamId) | StopEvent(id: StreamId, code: nat)

  function FactIn(e: FinEvent): SendFin {
    match e case AckEvent(_) => Acked case StopEvent(_, code) => Stopped(code)
  }

  function AckEvents(ids: seq<StreamId>): seq<FinEvent> {
    if ids == [] then [] else AckEvents(ids[..|ids| - 1]) + [AckEvent(ids[|ids| - 1])]
  }

  function StopEvents(stops: seq<(StreamId, nat)>): seq<FinEvent> {
    if stops == [] then []
    else StopEvents(stops[..|stops| - 1]) + [StopEvent(stops[|stops| - 1].0, stops[|stops| - 1].1)]
  }

  /** The facts about `id` on their way. */
  function PendingFor(queue: seq<FinEvent>, id: StreamId): seq<SendFin> {
    if queue == [] then []
    else (if queue[0].id == id then [FactIn(queue[0])] else []) + PendingFor(queue[1..], id)
  }

  lemma PendingCons(e: FinEvent, rest: seq<FinEvent>, id: StreamId)
    ensures PendingFor([e] + rest, id) == (if e.id == id then [FactIn(e)] else []) + PendingFor(rest, id)
  {
    assert ([e] + rest)[1..] == rest;
  }

  lemma Associate<T>(a: seq<T>, b: seq<T>, c: seq<T>)
    ensures a + (b + c) == a + b + c
  {
  }

  lemma HeadAndTail<T>(a: seq<T>, b: seq<T>)
    requires a != []
    ensures a == [a[0]] + a[1..] && a + b == [a[0]] + (a[1..] + b)
  {
    Associate([a[0]], a[1..], b);
  }

  lemma {:induction false} PendingConcat(a: seq<FinEvent>, b: seq<FinEvent>, id: StreamId)
    ensures PendingFor(a + b, id) == PendingFor(a, id) + PendingFor(b, id)
  {
    if a == [] {
      assert a + b == b;
    } else {
      var t := a[1..];
      PendingConcat(t, b, id);
      PendingCons(a[0], t, id);
      PendingCons(a[0], t + b, id);
      HeadAndTail(a, b);
      Associate(if a[0].id == id then [FactIn(a[0])] else [], PendingFor(t, id), PendingFor(b, id));
    }
  }

  lemma PendingOne(e: FinEvent, id: StreamId)
    ensures PendingFor([e], id) == if e.id == id then [FactIn(e)] else []
  {
  }

  lemma {:induction false} AckEventsReport(ids: seq<StreamId>, id: StreamId)
    ensures PendingFor(AckEvents(ids), id) == AckReports(ids, id)
  {
    if ids == [] {
    } else {
      var n := |ids| - 1;
      AckEventsReport(ids[..n], id);
      PendingConcat(AckEvents(ids[..n]), [AckEvent(ids[n])], id);
      PendingOne(AckEvent(ids[n]), id);
    }
  }

  lemma {:induction false} StopEventsReport(stops: seq<(StreamId, nat)>, id: StreamId)
    ensures PendingFor(StopEvents(stops), id) == StopReports(stops, id)
  {
    if stops == [] {
    } else {
      var n := |stops| - 1;
      StopEventsReport(stops[..n], id);
      PendingConcat(StopEvents(stops[..n]), [StopEvent(stops[n].0, stops[n].1)], id);
      PendingOne(StopEvent(stops[n].0, stops[n].1), id);
    }
  }

  /** The connection with the reported facts that have not been dispatched. */
  datatype Desk = Desk(line: Line, queue: seq<FinEvent>)

  datatype Move = Serve(evs: seq<ConnEvent>) | Dispatch | Else(h: Happening)

  function Serviced(d: Desk, evs: seq<ConnEvent>): Desk {
    var (b, p) := ServiceStreams(d.line.core.book, evs);
    Desk(d.line.(core := d.line.core.(book := b)), d.queue + AckEvents(p.finAcked) + StopEvents(p.stopped))
  }

  function Moved(d: Desk, m: Move): Desk {
    match m
    case Serve(evs) => Serviced(d, evs)
    case Dispatch =>
      if d.queue == [] then d
      else
        Desk(Happen(d.line, match d.queue[0] case AckEvent(id) => FinWasAcked(id) case StopEvent(id, code) => WasStopped(id, code)),
             d.queue[1..])
    case Else(h) => d.(line := Happen(d.line, h))
  }

  /** No release of `id`; facts reach the dispatcher through the queue only; the library leaves the
      bookkeeping alone. */
  ghost predicate Quiet(d: Desk, m: Move, id: StreamId) {
    m.Else? ==>
      && !m.h.FinWasAcked? && !m.h.WasStopped?
      && (m.h.LibraryMoved? ==> m.h.to.book == d.line.core.book)
      && (m.h.Commanded? ==> !((m.h.cmd.ReleaseCmd? || m.h.cmd.ResetCmd?) && m.h.cmd.id == id))
  }

  /** At most one fact about `id` is on its way, and it is the recorded one. */
  ghost predicate QueueRight(d: Desk, id: StreamId) {
    var f := FactOf(d.line.core.book, id);
    PendingFor(d.queue, id) == [] || (IsTerminal(f) && PendingFor(d.queue, id) == [f.value])
  }

  ghost predicate WaitsFor(p: Park, id: StreamId, r: Reply) {
    id in p.fins && r in p.fins[id]
  }

  /** The waiter `r` is parked and its fact is still to come, or it has been given the terminal fact. */
  ghost predicate WaitState(d: Desk, id: StreamId, r: Reply) {
    var f := FactOf(d.line.core.book, id);
    || (WaitsFor(d.line.park, id, r) && (f == Some(Queued) || (IsTerminal(f) && PendingFor(d.queue, id) == [f.value])))
    || (IsTerminal(f) && (r, WaitAnswer(f).value) in d.line.park.answers)
  }

  // -- frames -------------------------------------------------------------

  /** Facts and waiters of `id` are as they were, or more waiters joined. */
  ghost predicate SameFin(l: Line, m: Line, id: StreamId) {
    && l.park.answers <= m.park.answers
    && (forall r :: WaitsFor(l.park, id, r) ==> WaitsFor(m.park, id, r))
    && Forward(FactOf(l.core.book, id), FactOf(m.core.book, id))
    && (FactOf(l.core.book, id) != None ==> FactOf(m.core.book, id) == FactOf(l.core.book, id))
  }

  lemma OfferReadFin(c: CoreConn, p: Park, other: StreamId, r: PendingRead)
    ensures var (d, q) := OfferRead(c, p, other, r);
            d.book.sendFins == c.book.sendFins && q.fins == p.fins && p.answers <= q.answers
  {
  }

  lemma OfferWriteFin(c: CoreConn, p: Park, other: StreamId, w: PendingWrite)
    ensures var (d, q) := OfferWrite(c, p, other, w);
            d.book.sendFins == c.book.sendFins && q.fins == p.fins && p.answers <= q.answers
  {
  }

  lemma {:induction false} OnStreamOpenedFin(c: CoreConn, p: Park)
    ensures var (d, q) := OnStreamOpened(c, p);
            d.book.sendFins == c.book.sendFins && q.fins == p.fins && p.answers <= q.answers
    decreases |p.accepts|
  {
    if p.accepts == [] || AcceptStream(c).1 == None {
    } else {
      var (d, a) := AcceptStream(c);
      OnStreamOpenedFin(d, Send(p.(accepts := p.accepts[1..]), p.accepts[0], GotStream(a.value)));
    }
  }

  lemma CommandFin(l: Line, cmd: Cmd, id: StreamId)
    requires !((cmd.ReleaseCmd? || cmd.ResetCmd?) && cmd.id == id)
    ensures SameFin(l, Happen(l, Commanded(cmd)), id)
  {
    var c, p := l.core, l.park;
    match cmd {
      case WriteCmd(other, data, r) => OfferWriteFin(c, p, other, PendingWrite(data, 0, r));
      case ReadToEndCmd(other, limit, r) => OfferReadFin(c, p, other, PendingRead([], ToEnd(limit), r));
      case ReadCmd(other, max, r) => OfferReadFin(c, p, other, PendingRead([], UpTo(Max(max, 1)), r));
      case ResetCmd(other, code, r) => DropFinsFrame(p, other, Failed(ClosedStream));
      case OpenCmd(_) =>
      case AcceptCmd(_) =>
      case FinishCmd(_, _) =>
      case WaitCmd(_, _) =>
      case StopCmd(_, _, _) =>
      case ReleaseCmd(_) =>
      case CloseCmd =>
    }
  }

  lemma ElseFin(d: Desk, h: Happening, id: StreamId)
    requires Quiet(d, Else(h), id)
    ensures SameFin(d.line, Happen(d.line, h), id)
  {
    var c, p := d.line.core, d.line.park;
    match h {
      case Commanded(cmd) => CommandFin(d.line, cmd, id);
      case StreamArrived => OnStreamOpenedFin(c, p);
      case BecameReadable(other) =>
        if other in p.readers { OfferReadFin(c, p.(readers := p.readers - {other}), other, p.readers[other]); }
      case BecameWritable(other) =>
        if other in p.writes { OfferWriteFin(c, p.(writes := p.writes - {other}), other, p.writes[other]); }
      case LibraryMoved(to) =>
    }
  }

  lemma FrameFin(d: Desk, e: Desk, id: StreamId, r: Reply)
    requires SameFin(d.line, e.line, id) && PendingFor(e.queue, id) == PendingFor(d.queue, id)
    ensures QueueRight(d, id) ==> QueueRight(e, id)
    ensures WaitState(d, id, r) ==> WaitState(e, id, r)
  {
    assert forall x :: x in d.line.park.answers ==> x in e.line.park.answers;
  }

  // -- servicing and dispatching ------------------------------------------

  lemma ServeFin(d: Desk, evs: seq<ConnEvent>, id: StreamId, r: Reply)
    requires QueueRight(d, id)
    ensures QueueRight(Serviced(d, evs), id)
    ensures WaitState(d, id, r) ==> WaitState(Serviced(d, evs), id, r)
  {
    var (b, p) := ServiceStreams(d.line.core.book, evs);
    BatchReports(d.line.core.book, evs, id);
    AckEventsReport(p.finAcked, id);
    StopEventsReport(p.stopped, id);
    PendingConcat(d.queue, AckEvents(p.finAcked), id);
    PendingConcat(d.queue + AckEvents(p.finAcked), StopEvents(p.stopped), id);
    assert PendingFor(Serviced(d, evs).queue, id) == PendingFor(d.queue, id) + Reports(p, id);
  }

  lemma {:induction false} SendAllReaches(p: Park, rs: seq<Reply>, a: Answer, r: Reply)
    requires r in rs
    ensures (r, a) in SendAll(p, rs, a).answers
  {
    var n := |rs| - 1;
    assert rs == rs[..n] + [rs[n]];
    if rs[n] == r {
      assert SendAll(p, rs, a).answers[|SendAll(p, rs[..n], a).answers|] == (r, a);
    } else {
      SendAllReaches(p, rs[..n], a, r);
    }
  }

  /** Dispatching a fact about `other`: waiters of `other` get its answer, waiters of others stay. */
  lemma DropFinsWaiters(p: Park, other: StreamId, a: Answer, id: StreamId, r: Reply)
    ensures var q := DropFins(p, other, a);
            && p.answers <= q.answers
            && (other != id && WaitsFor(p, id, r) ==> WaitsFor(q, id, r))
            && (other == id && WaitsFor(p, id, r) ==> (r, a) in q.answers)
  {
    DropFinsFrame(p, other, a);
    if other == id && WaitsFor(p, id, r) {
      SendAllReaches(p.(fins := p.fins - {id}), p.fins[id], a, r);
    }
  }

  lemma StoppedWaiters(l: Line, other: StreamId, code: nat, id: StreamId, r: Reply)
    ensures var m := Happen(l, WasStopped(other, code));
            && l.park.answers <= m.park.answers && m.core.book.sendFins == l.core.book.sendFins
            && (other != id && WaitsFor(l.park, id, r) ==> WaitsFor(m.park, id, r))
            && (other == id && WaitsFor(l.park, id, r) ==> (r, Failed(PeerStopped(code))) in m.park.answers)
  {
    var q := DropFins(l.park, other, Failed(PeerStopped(code)));
    DropFinsWaiters(l.park, other, Failed(PeerStopped(code)), id, r);
    if other in q.writes {
      OfferWriteFin(l.core, q.(writes := q.writes - {other}), other, q.writes[other]);
    }
    var m := Happen(l, WasStopped(other, code));
    assert forall x :: x in q.answers ==> x in m.park.answers;
  }

  lemma DispatchFin(d: Desk, id: StreamId, r: Reply)
    requires QueueRight(d, id)
    ensures QueueRight(Moved(d, Dispatch), id)
    ensures WaitState(d, id, r) ==> WaitState(Moved(d, Dispatch), id, r)
  {
    if d.queue != [] {
      var e := Moved(d, Dispatch);
      match d.queue[0] {
        case AckEvent(other) => DropFinsWaiters(d.line.park, other, Done, id, r);
        case StopEvent(other, code) => StoppedWaiters(d.line, other, code, id, r);
      }
      assert e.line.core.book.sendFins == d.line.core.book.sendFins;
      assert forall x :: x in d.line.park.answers ==> x in e.line.park.answers;
      assert FactOf(e.line.core.book, id) == FactOf(d.line.core.book, id);
      if d.queue[0].id == id {
        assert PendingFor(d.queue, id) == [FactIn(d.queue[0])] + PendingFor(d.queue[1..], id);
        assert FactIn(d.queue[0]) == FactOf(d.line.core.book, id).value by {
          assert PendingFor(d.queue, id)[0] == FactIn(d.queue[0]);
        }
        assert |PendingFor(d.queue, id)| == 1;
        assert PendingFor(e.queue, id) == [];
      } else {
        assert PendingFor(d.queue, id) == [] + PendingFor(d.queue[1..], id);
      }
    }
  }

  lemma MoveFin(d: Desk, m: Move, id: StreamId, r: Reply)
    requires QueueRight(d, id) && Quiet(d, m, id)
    ensures QueueRight(Moved(d, m), id)
    ensures WaitState(d, id, r) ==> WaitState(Moved(d, m), id, r)
  {
    match m {
      case Serve(evs) => ServeFin(d, evs, id, r);
      case Dispatch => DispatchFin(d, id, r);
      case Else(h) =>
        ElseFin(d, h, id);
        FrameFin(d, Moved(d, m), id, r);
    }
  }

  function RunDesk(d: Desk, ms: seq<Move>): Desk {
    if ms == [] then d else Moved(RunDesk(d, ms[..|ms| - 1]), ms[|ms| - 1])
  }

  /** What a waiter is told: done when the finish was acknowledged, stopped with the peer's code when it was stopped;
      as long as neither is known, nothing. */
  ghost predicate Tells(f: Option<SendFin>, a: Answer) {
    f.Some? && match f.value
               case Queued => false
               case Acked => a == Done
               case Stopped(code) => a == Failed(PeerStopped(code))
  }

  /** Whatever was answered to `r` is the recorded fact, and that is terminal. */
  ghost predicate WaitAnswered(d: Desk, id: StreamId, r: Reply) {
    forall a :: (r, a) in d.line.park.answers ==> Tells(FactOf(d.line.core.book, id), a)
  }

  lemma WaitStateAnswers(d: Desk, id: StreamId, r: Reply)
    requires WaitState(d, id, r) && Kept(d.line.park, d.line.issued, {})
    ensures WaitAnswered(d, id, r)
  {
    var f := FactOf(d.line.core.book, id);
    forall a | (r, a) in d.line.park.answers ensures Tells(f, a) {
      if WaitsFor(d.line.park, id, r) {
        assert Holds(d.line.park, FinSlot(id), r);
        ParkedIsUnanswered(d.line.park, d.line.issued, FinSlot(id), r, a);
      } else {
        OneAnswer(d.line.park, d.line.issued, r, a, WaitAnswer(f).value);
      }
    }
  }

  /** Each command brings a reply of its own. */
  ghost predicate FreshMove(d: Desk, m: Move) {
    m.Else? ==> FreshReply(d.line, m.h)
  }

  lemma MovedKept(d: Desk, m: Move)
    requires Kept(d.line.park, d.line.issued, {}) && FreshMove(d, m)
    ensures Kept(Moved(d, m).line.park, Moved(d, m).line.issued, {})
  {
    match m {
      case Serve(evs) =>
      case Dispatch =>
        if d.queue != [] {
          var h := match d.queue[0] case AckEvent(id) => FinWasAcked(id) case StopEvent(id, code) => WasStopped(id, code);
          HappenKept(d.line, h);
        }
      case Else(h) => HappenKept(d.line, h);
    }
  }

  /** Issued with a fresh reply when the finish is queued or decided, a wait is parked until the fact comes, or
      answered with it. */
  lemma WaitStarts(d: Desk, id: StreamId, r: Reply)
    requires QueueRight(d, id) && FactOf(d.line.core.book, id) != None
    requires Kept(d.line.park, d.line.issued, {}) && r !in d.line.issued
    ensures var e := Moved(d, Else(Commanded(WaitCmd(id, r))));
            QueueRight(e, id) && WaitState(e, id, r) && Kept(e.line.park, e.line.issued, {})
  {
    var f := FactOf(d.line.core.book, id);
    var e := Moved(d, Else(Commanded(WaitCmd(id, r))));
    MovedKept(d, Else(Commanded(WaitCmd(id, r))));
    if IsTerminal(f) {
      assert e.line.park.answers[|d.line.park.answers|] == (r, WaitAnswer(f).value);
    }
  }

  ghost predicate QuietAt(d: Desk, ms: seq<Move>, id: StreamId, k: nat)
    requires k < |ms|
  {
    Quiet(RunDesk(d, ms[..k]), ms[k], id)
  }

  ghost predicate FreshAt(d: Desk, ms: seq<Move>, k: nat)
    requires k < |ms|
  {
    FreshMove(RunDesk(d, ms[..k]), ms[k])
  }

  lemma RunDeskStep(d: Desk, ms: seq<Move>, k: nat)
    requires 0 < k <= |ms|
    ensures RunDesk(d, ms[..k]) == Moved(RunDesk(d, ms[..k - 1]), ms[k - 1])
  {
    assert ms[..k][..k - 1] == ms[..k - 1];
  }

  lemma {:induction false} WaitStays(d: Desk, ms: seq<Move>, id: StreamId, r: Reply, k: nat)
    requires k <= |ms| && QueueRight(d, id) && WaitState(d, id, r)
    requires forall j :: 0 <= j < |ms| ==> QuietAt(d, ms, id, j)
    ensures QueueRight(RunDesk(d, ms[..k]), id) && WaitState(RunDesk(d, ms[..k]), id, r)
  {
    if k == 0 {
      assert RunDesk(d, ms[..0]) == d;
    } else {
      WaitStays(d, ms, id, r, k - 1);
      assert QuietAt(d, ms, id, k - 1);
      RunDeskStep(d, ms, k);
      MoveFin(RunDesk(d, ms[..k - 1]), ms[k - 1], id, r);
    }
  }

  lemma {:induction false} DeskStaysKept(d: Desk, ms: seq<Move>, k: nat)
    requires k <= |ms| && Kept(d.line.park, d.line.issued, {})
    requires forall j :: 0 <= j < |ms| ==> FreshAt(d, ms, j)
    ensures Kept(RunDesk(d, ms[..k]).line.park, RunDesk(d, ms[..k]).line.issued, {})
  {
    if k == 0 {
      assert RunDesk(d, ms[..0]) == d;
    } else {
      DeskStaysKept(d, ms, k - 1);
      assert FreshAt(d, ms, k - 1);
      RunDeskStep(d, ms, k);
      MovedKept(RunDesk(d, ms[..k - 1]), ms[k - 1]);
    }
  }

  /** Over every run without a release of the stream, with replies that are not reused: a wait for the finish is
      never lost, it is answered with nothing but the terminal fact, and once the fact is terminal and the queue
      is drained it has been answered. */
  lemma WaitGetsTheFact(d: Desk, ms: seq<Move>, id: StreamId, r: Reply, k: nat)
    requires k <= |ms| && QueueRight(d, id) && WaitState(d, id, r) && Kept(d.line.park, d.line.issued, {})
    requires forall j :: 0 <= j < |ms| ==> QuietAt(d, ms, id, j)
    requires forall j :: 0 <= j < |ms| ==> FreshAt(d, ms, j)
    ensures var e := RunDesk(d, ms[..k]);
            && WaitState(e, id, r) && WaitAnswered(e, id, r)
            && (e.queue == [] && FactOf(e.line.core.book, id) == Some(Acked) ==> (r, Done) in e.line.park.answers)
            && (forall code :: e.queue == [] && FactOf(e.line.core.book, id) == Some(Stopped(code)) ==>
                  (r, Failed(PeerStopped(code))) in e.line.park.answers)
  {
    WaitStays(d, ms, id, r, k);
    DeskStaysKept(d, ms, k);
    WaitStateAnswers(RunDesk(d, ms[..k]), id, r);
  }
}
