/** Silence: until a datagram has passed the whole pre-filter a server says nothing, and nothing exists
    to say anything; afterwards, who was admitted, as whom, and how often. */
module EndpointSilence {
  import opened Base
  import opened ByteCodec
  import opened Admission
  import opened Replay
  import opened ConnSpec
  import opened EndpointSpec
  import opened EndpointLedger
  import opened EndpointWorld
  import opened EndpointHandles
  import opened EndpointRuns

  /** Nothing to send, nothing sent, nobody connected, no ID issued, no event. */
  ghost predicate Mute(w: World) {
    && w.ep.core.connections == map[] && w.ep.core.issued == {} && w.ep.core.pending == []
    && w.ep.core.outbound == [] && w.emitted == []
    && w.ep.core.events == [] && w.history == []
  }

  /** `spare` admissions have not (yet) led to a connection. */
  ghost predicate Silent(w: World, spare: nat) {
    && w.ep.core.role == Server
    && |w.handed| + spare <= |w.log|
    && (w.log == [] ==> Mute(w))
  }

  lemma ServiceOfNobody(c: Core, now: Instant, svc: Service)
    requires c.connections == map[] && c.pending == [] && svc.order == []
    ensures ServiceAll(c, now, svc) == Started(c, now).(nextTimeout := None)
  {
  }

  lemma ServiceKeepsRole(c: Core, now: Instant, svc: Service)
    ensures ServiceAll(c, now, svc).role == c.role
  {
    RouteSame(Started(c, now), svc, |svc.order|);
    var r := Route(Started(c, now), svc, |svc.order|);
    var s := Poll(r.connections, svc, |svc.order|);
    ReapAllKeepsRole(Staged(r, s), s.lost, |s.lost|);
  }

  lemma {:induction false} ReapAllKeepsRole(c: Core, lost: seq<Loss>, k: nat)
    requires k <= |lost|
    ensures ReapAll(c, lost, k).role == c.role
  {
    if k == 0 {
    } else {
      ReapAllKeepsRole(c, lost, k - 1);
    }
  }

  lemma ServicedSilent(w: World, now: Instant, svc: Service)
    requires Silent(w, 0) && ServiceOk(w, svc)
    ensures Silent(Serviced(w, now, svc), 0)
  {
    ServiceKeepsRole(w.ep.core, now, svc);
    if w.log == [] {
      EmptyElems(svc.order);
      ServiceOfNobody(w.ep.core, now, svc);
    }
  }

  lemma FedSilent(cfg: Config, w: World, i: Input, admitted: Option<nat>)
    requires i.Datagram? && Silent(w, if admitted.Some? then 1 else 0)
    requires w.log != []
    ensures Silent(Fed(cfg, w, i, admitted), 0)
  {
    FeedConnections(cfg, w.ep.core, i.now, i.from, i.data, admitted, i.feed);
  }

  lemma PastGateSilent(cfg: Config, w: World, i: Input)
    requires |w.ep.guards| == |cfg.clients| && i.Datagram? && Silent(w, 0)
    ensures Silent(PastGate(cfg, w, i), if AdmittedClient(cfg, w, i).Some? then 1 else 0)
    ensures !Rejected(cfg, w.ep, i) ==> PastGate(cfg, w, i).log != []
  {
  }

  lemma StepSilent(cfg: Config, w: World, i: Input)
    requires |w.ep.guards| == |cfg.clients| && EnvOk(cfg, w, i) && Silent(w, 0)
    ensures Silent(Step(cfg, w, i), 0)
  {
    match i {
      case Datagram(now, _, _, _, _, _, svc) =>
        PastGateSilent(cfg, w, i);
        if !Rejected(cfg, w.ep, i) {
          var o, admitted := PastGate(cfg, w, i), AdmittedClient(cfg, w, i);
          FedSilent(cfg, o, i, admitted);
          ServicedSilent(Fed(cfg, o, i, admitted), now, svc);
        }
      case Timeout(now, svc) =>
        ServicedSilent(WithCore(w, w.ep.core.(calls := w.ep.core.calls + [TimeoutCall(now)])), now, svc);
      case PollTransmit(now, svc) =>
        if w.ep.core.outbound == [] {
          ServicedSilent(w, now, svc);
        }
      case PollEvent =>
      case Work(h, op) =>
    }
  }

  /** In every run of a server: as long as no datagram has passed the full pre-filter, the endpoint is
      mute; and it has never issued more handles than datagrams have passed. */
  lemma {:induction false} RunSilent(cfg: Config, ws: seq<World>, ins: seq<Input>, k: nat)
    requires IsRun(cfg, ws, ins) && ws[0] == ServerWorld(cfg) && k < |ws|
    ensures Silent(ws[k], 0)
  {
    if k == 0 {
    } else {
      RunSilent(cfg, ws, ins, k - 1);
      assert StepAt(cfg, ws, ins, k - 1);
      StepSilent(cfg, ws[k - 1], ins[k - 1]);
    }
  }

  /** If every datagram of a run is rejected when it comes, no poll ever yields a datagram. */
  lemma {:induction false} RejectedRunEmitsNothing(cfg: Config, ws: seq<World>, ins: seq<Input>, k: nat)
    requires IsRun(cfg, ws, ins) && ws[0] == ServerWorld(cfg) && k < |ws|
    requires forall j :: 0 <= j < |ins| && ins[j].Datagram? ==> |ws[j].ep.guards| == |cfg.clients| && Rejected(cfg, ws[j].ep, ins[j])
    ensures ws[k].log == [] && Mute(ws[k])
  {
    RunSilent(cfg, ws, ins, k);
    if k == 0 {
    } else {
      RejectedRunEmitsNothing(cfg, ws, ins, k - 1);
      assert StepAt(cfg, ws, ins, k - 1);
      LogStays(cfg, ws[k - 1], ins[k - 1]);
    }
  }

  lemma LogStays(cfg: Config, w: World, i: Input)
    requires |w.ep.guards| == |cfg.clients| && (i.Datagram? ==> Rejected(cfg, w.ep, i))
    ensures Step(cfg, w, i).log == w.log
  {
  }

  // ---------------------------------------------------------------------
  // Identity
  // ---------------------------------------------------------------------

  /** A live connection's client ID is that of the client as which its datagram was admitted. */
  ghost predicate Identified(cfg: Config, w: World) {
    && w.ep.core.clientIds.Keys == w.ep.core.connections.Keys
    && forall h :: h in w.ep.core.connections ==> IdentifiedAs(cfg, w, h)
  }

  ghost predicate IdentifiedAs(cfg: Config, w: World, h: Handle)
    requires w.ep.core.clientIds.Keys == w.ep.core.connections.Keys && h in w.ep.core.connections
  {
    && h in w.clientOf && w.clientOf[h] < |cfg.clients|
    && w.ep.core.clientIds[h] == cfg.clients[w.clientOf[h]].clientId
    && exists j :: 0 <= j < |w.log| && w.log[j].0 == w.clientOf[h]
  }

  lemma ReapKeepsIds(c: Core, l: Loss)
    requires c.clientIds.Keys == c.connections.Keys
    ensures var d := Reap(c, l);
            && d.clientIds.Keys == d.connections.Keys && d.connections.Keys <= c.connections.Keys
            && forall h :: h in d.clientIds ==> d.clientIds[h] == c.clientIds[h]
  {
  }

  lemma {:induction false} ReapAllKeepsIds(c: Core, lost: seq<Loss>, k: nat)
    requires k <= |lost| && c.clientIds.Keys == c.connections.Keys
    ensures var d := ReapAll(c, lost, k);
            && d.clientIds.Keys == d.connections.Keys && d.connections.Keys <= c.connections.Keys
            && forall h :: h in d.clientIds ==> d.clientIds[h] == c.clientIds[h]
  {
    if k == 0 {
    } else {
      ReapAllKeepsIds(c, lost, k - 1);
      ReapKeepsIds(ReapAll(c, lost, k - 1), lost[k - 1]);
    }
  }

  lemma ServicedIdentified(cfg: Config, w: World, now: Instant, svc: Service)
    requires Identified(cfg, w)
    ensures Identified(cfg, Serviced(w, now, svc))
  {
    var c := w.ep.core;
    RouteSame(Started(c, now), svc, |svc.order|);
    var r := Route(Started(c, now), svc, |svc.order|);
    var s := Poll(r.connections, svc, |svc.order|);
    PollKeepsKeys(r.connections, svc, |svc.order|);
    ReapAllKeepsIds(Staged(r, s), s.lost, |s.lost|);
    var v := Serviced(w, now, svc);
    forall h | h in v.ep.core.connections ensures IdentifiedAs(cfg, v, h) {
      assert IdentifiedAs(cfg, w, h);
    }
  }

  lemma FedIdentified(cfg: Config, w: World, i: Input, admitted: Option<nat>)
    requires i.Datagram? && Identified(cfg, w)
    requires admitted.Some? ==> admitted.value < |cfg.clients| && w.log != [] && w.log[|w.log| - 1].0 == admitted.value
    ensures Identified(cfg, Fed(cfg, w, i, admitted))
  {
    var c, v := w.ep.core, Fed(cfg, w, i, admitted);
    FeedConnections(cfg, c, i.now, i.from, i.data, admitted, i.feed);
    if Creates(c.role, admitted, i.feed) {
      OneMoreIdentified(cfg, w, v, NewHandle(c, i.feed), admitted.value);
    } else {
      SameCoreIdentified(cfg, w, v);
    }
  }

  lemma OneMoreIdentified(cfg: Config, w: World, v: World, h: Handle, client: nat)
    requires Identified(cfg, w) && client < |cfg.clients|
    requires v.ep.core.connections.Keys == w.ep.core.connections.Keys + {h}
    requires v.ep.core.clientIds == w.ep.core.clientIds[h := cfg.clients[client].clientId]
    requires v.clientOf == w.clientOf[h := client] && v.log == w.log && w.log != [] && w.log[|w.log| - 1].0 == client
    ensures Identified(cfg, v)
  {
    forall g | g in v.ep.core.connections ensures IdentifiedAs(cfg, v, g) {
      if g != h {
        assert g in w.ep.core.connections.Keys;
        assert IdentifiedAs(cfg, w, g);
      }
    }
  }

  lemma PastGateIdentified(cfg: Config, w: World, i: Input)
    requires |w.ep.guards| == |cfg.clients| && i.Datagram? && Identified(cfg, w)
    ensures Identified(cfg, PastGate(cfg, w, i))
  {
    var o := PastGate(cfg, w, i);
    forall h | h in o.ep.core.connections ensures IdentifiedAs(cfg, o, h) {
      assert IdentifiedAs(cfg, w, h);
      var j :| 0 <= j < |w.log| && w.log[j].0 == w.clientOf[h];
      assert o.log[j] == w.log[j];
    }
  }

  lemma WorkIdentified(cfg: Config, w: World, h: Handle, op: ConnOp)
    requires Identified(cfg, w)
    ensures Identified(cfg, WithCore(w, DoWork(w.ep.core, h, op)))
  {
    var v := WithCore(w, DoWork(w.ep.core, h, op));
    assert v.ep.core.connections.Keys == w.ep.core.connections.Keys;
    forall g | g in v.ep.core.connections ensures IdentifiedAs(cfg, v, g) {
      assert IdentifiedAs(cfg, w, g);
    }
  }

  lemma SameCoreIdentified(cfg: Config, w: World, v: World)
    requires Identified(cfg, w) && v.clientOf == w.clientOf && v.log == w.log
    requires v.ep.core.connections == w.ep.core.connections && v.ep.core.clientIds == w.ep.core.clientIds
    ensures Identified(cfg, v)
  {
    forall g | g in v.ep.core.connections ensures IdentifiedAs(cfg, v, g) {
      assert IdentifiedAs(cfg, w, g);
    }
  }

  lemma DatagramIdentified(cfg: Config, w: World, i: Input)
    requires |w.ep.guards| == |cfg.clients| && Identified(cfg, w) && i.Datagram?
    ensures Identified(cfg, Step(cfg, w, i))
  {
    PastGateIdentified(cfg, w, i);
    if !Rejected(cfg, w.ep, i) {
      var o, admitted := PastGate(cfg, w, i), AdmittedClient(cfg, w, i);
      FedIdentified(cfg, o, i, admitted);
      ServicedIdentified(cfg, Fed(cfg, o, i, admitted), i.now, i.svc);
    }
  }

  lemma TimeoutIdentified(cfg: Config, w: World, i: Input)
    requires |w.ep.guards| == |cfg.clients| && Identified(cfg, w) && i.Timeout?
    ensures Identified(cfg, Step(cfg, w, i))
  {
    var t := WithCore(w, w.ep.core.(calls := w.ep.core.calls + [TimeoutCall(i.now)]));
    SameCoreIdentified(cfg, w, t);
    ServicedIdentified(cfg, t, i.now, i.svc);
  }

  lemma PollIdentified(cfg: Config, w: World, i: Input)
    requires |w.ep.guards| == |cfg.clients| && Identified(cfg, w) && i.PollTransmit?
    ensures Identified(cfg, Step(cfg, w, i))
  {
    if w.ep.core.outbound == [] {
      ServicedIdentified(cfg, w, i.now, i.svc);
      SameCoreIdentified(cfg, Serviced(w, i.now, i.svc), Popped(Serviced(w, i.now, i.svc)));
    } else {
      SameCoreIdentified(cfg, w, Popped(w));
    }
  }

  lemma StepIdentified(cfg: Config, w: World, i: Input)
    requires |w.ep.guards| == |cfg.clients| && Identified(cfg, w)
    ensures Identified(cfg, Step(cfg, w, i))
  {
    match i {
      case Datagram(_, _, _, _, _, _, _) =>
        DatagramIdentified(cfg, w, i);
      case Timeout(_, _) =>
        TimeoutIdentified(cfg, w, i);
      case PollTransmit(_, _) =>
        PollIdentified(cfg, w, i);
      case PollEvent =>
        SameCoreIdentified(cfg, w, WithCore(w, DoPollEvent(w.ep.core).0));
      case Work(h, op) =>
        WorkIdentified(cfg, w, h, op);
    }
  }

  /** In every run of a server whose entries are unambiguous, the client ID of a live connection belongs
      to exactly one entry, the one whose key admitted the connection. */
  lemma {:induction false} RunIdentified(cfg: Config, ws: seq<World>, ins: seq<Input>, k: nat)
    requires IsRun(cfg, ws, ins) && ws[0] == ServerWorld(cfg) && k < |ws| && Unambiguous(cfg.clients)
    ensures Identified(cfg, ws[k])
    ensures forall h, j :: h in ws[k].ep.core.connections && 0 <= j < |cfg.clients| ==>
              (cfg.clients[j].clientId == ws[k].ep.core.clientIds[h] <==> j == ws[k].clientOf[h])
  {
    if k == 0 {
    } else {
      RunIdentified(cfg, ws, ins, k - 1);
      assert StepAt(cfg, ws, ins, k - 1);
      StepIdentified(cfg, ws[k - 1], ins[k - 1]);
    }
    forall h | h in ws[k].ep.core.connections ensures IdentifiedAs(cfg, ws[k], h) {
    }
  }

  // ---------------------------------------------------------------------
  // Admitted once
  // ---------------------------------------------------------------------

  /** Every admission that could still be fresh at `minute` is known to the guard of its client, and no
      client's pair was admitted twice. */
  ghost predicate Remembered(cfg: Config, w: World, minute: U32)
    requires |w.ep.guards| == |cfg.clients|
  {
    && NoDup(w.log)
    && forall j :: 0 <= j < |w.log| ==> RememberedAt(cfg, w, minute, j)
  }

  ghost predicate RememberedAt(cfg: Config, w: World, minute: U32, j: int)
    requires |w.ep.guards| == |cfg.clients| && 0 <= j < |w.log|
  {
    && w.log[j].0 < |cfg.clients|
    && (w.log[j].1.1 >= SatSub(minute, WINDOW_MINUTES) ==> w.log[j].1 in w.ep.guards[w.log[j].0])
  }

  lemma PrefilterEntry(cfg: Config, guards: seq<Seen>, data: Bytes, minute: U32)
    requires |guards| == |cfg.clients|
    ensures var (g, client) := Prefilter(cfg.hash, cfg.clients, guards, data, minute);
            && (forall k, e :: 0 <= k < |guards| && e in guards[k] && e.1 >= SatSub(minute, WINDOW_MINUTES) ==> e in g[k])
            && (client.Some? ==> var e := EntryOf(data);
                                 && e.1 >= SatSub(minute, WINDOW_MINUTES)
                                 && e !in guards[client.value] && e in g[client.value])
  {
  }

  lemma PastGateRemembered(cfg: Config, w: World, i: Input, minute: U32)
    requires |w.ep.guards| == |cfg.clients| && i.Datagram? && minute <= i.minute && Remembered(cfg, w, minute)
    ensures Remembered(cfg, PastGate(cfg, w, i), i.minute)
  {
    var o := PastGate(cfg, w, i);
    PrefilterEntry(cfg, w.ep.guards, i.data, i.minute);
    assert forall j :: 0 <= j < |w.log| ==> RememberedAt(cfg, w, minute, j);
    assert forall j :: 0 <= j < |w.log| ==> o.log[j] == w.log[j];
    forall j | 0 <= j < |o.log| ensures RememberedAt(cfg, o, i.minute, j) {
      if j < |w.log| {
        assert RememberedAt(cfg, w, minute, j);
      }
    }
    var n := |w.log|;
    if |o.log| > n {
      forall j | 0 <= j < n ensures o.log[j] != o.log[n] {
        assert RememberedAt(cfg, w, minute, j);
      }
    }
  }

  lemma RestRemembered(cfg: Config, w: World, v: World, minute: U32)
    requires |w.ep.guards| == |cfg.clients| && Remembered(cfg, w, minute)
    requires v.log == w.log && v.ep.guards == w.ep.guards
    ensures Remembered(cfg, v, minute)
  {
    forall j | 0 <= j < |v.log| ensures RememberedAt(cfg, v, minute, j) {
      assert RememberedAt(cfg, w, minute, j);
    }
  }

  function MinuteOf(i: Input, minute: U32): U32 {
    if i.Datagram? then i.minute else minute
  }

  lemma StepRemembered(cfg: Config, w: World, i: Input, minute: U32)
    requires |w.ep.guards| == |cfg.clients| && minute <= MinuteOf(i, minute) && Remembered(cfg, w, minute)
    ensures |Step(cfg, w, i).ep.guards| == |cfg.clients|
    ensures Remembered(cfg, Step(cfg, w, i), MinuteOf(i, minute))
  {
    StepKeepsGuardCount(cfg, w, i);
    StepAfterGate(cfg, w, i);
    if i.Datagram? {
      PastGateRemembered(cfg, w, i, minute);
      RestRemembered(cfg, PastGate(cfg, w, i), Step(cfg, w, i), i.minute);
    } else {
      RestRemembered(cfg, w, Step(cfg, w, i), minute);
    }
  }

  /** Behind the gate nothing touches the guards or the log. */
  lemma StepAfterGate(cfg: Config, w: World, i: Input)
    requires |w.ep.guards| == |cfg.clients|
    ensures var o, v := if i.Datagram? then PastGate(cfg, w, i) else w, Step(cfg, w, i);
            v.log == o.log && v.ep.guards == o.ep.guards
  {
    if i.Datagram? && !Rejected(cfg, w.ep, i) {
      DatagramStep(cfg, w, i);
    }
  }

  ghost predicate MinutesMonotone(ins: seq<Input>) {
    forall i, j :: 0 <= i <= j < |ins| && ins[i].Datagram? && ins[j].Datagram? ==> ins[i].minute <= ins[j].minute
  }

  function LatestMinute(ins: seq<Input>, k: nat): U32
    requires k <= |ins|
  {
    if k == 0 then 0 else if ins[k - 1].Datagram? then ins[k - 1].minute else LatestMinute(ins, k - 1)
  }

  lemma {:induction false} LatestIsLatest(ins: seq<Input>, k: nat, j: nat)
    requires k <= j < |ins| && MinutesMonotone(ins) && ins[j].Datagram?
    ensures LatestMinute(ins, k) <= ins[j].minute
  {
    if k == 0 || ins[k - 1].Datagram? {
    } else {
      LatestIsLatest(ins, k - 1, j);
    }
  }

  /** In every run of a server with a wall clock that never goes back, each client, nonce and minute is
      admitted at most once. */
  lemma {:induction false} RunAdmitsOnce(cfg: Config, ws: seq<World>, ins: seq<Input>, k: nat)
    requires IsRun(cfg, ws, ins) && ws[0] == ServerWorld(cfg) && k < |ws| && MinutesMonotone(ins)
    ensures |ws[k].ep.guards| == |cfg.clients|
    ensures Remembered(cfg, ws[k], LatestMinute(ins, k))
  {
    if k == 0 {
      ServerStartsRemembered(cfg);
    } else {
      RunAdmitsOnce(cfg, ws, ins, k - 1);
      if ins[k - 1].Datagram? {
        LatestIsLatest(ins, k - 1, k - 1);
      }
      RunStepRemembered(cfg, ws, ins, k - 1, LatestMinute(ins, k - 1));
    }
  }

  lemma ServerStartsRemembered(cfg: Config)
    ensures |ServerWorld(cfg).ep.guards| == |cfg.clients| && Remembered(cfg, ServerWorld(cfg), 0)
  {
  }

  lemma RunStepRemembered(cfg: Config, ws: seq<World>, ins: seq<Input>, k: nat, minute: U32)
    requires IsRun(cfg, ws, ins) && k < |ins| && |ws[k].ep.guards| == |cfg.clients|
    requires minute <= MinuteOf(ins[k], minute) && Remembered(cfg, ws[k], minute)
    ensures |ws[k + 1].ep.guards| == |cfg.clients| && Remembered(cfg, ws[k + 1], MinuteOf(ins[k], minute))
  {
    assert StepAt(cfg, ws, ins, k);
    StepRemembered(cfg, ws[k], ins[k], minute);
  }
}
