/** Deadlines: unflushed stream work never sleeps, and a drained endpoint reports the true deadline. */
module EndpointTime {
  import opened Base
  import opened ConnSpec
  import opened EndpointSpec
  import opened EndpointLedger
  import opened EndpointWorld
  import opened EndpointHandles
  import opened EndpointRuns

  // ---------------------------------------------------------------------
  // A pass leaves nothing dirty and caches the earliest deadline
  // ---------------------------------------------------------------------

  lemma {:induction false} PollCleans(connections: map<Handle, Book>, svc: Service, k: nat)
    requires k <= |svc.order|
    ensures var s := Poll(connections, svc, k);
            forall h :: h in svc.order[..k] && h in s.connections ==> !s.connections[h].dirty
  {
    if k == 0 {
    } else {
      PollCleans(connections, svc, k - 1);
      assert svc.order[..k] == svc.order[..k - 1] + [svc.order[k - 1]];
    }
  }

  lemma {:induction false} ReapAllSubset(c: Core, lost: seq<Loss>, k: nat)
    requires k <= |lost|
    ensures var d := ReapAll(c, lost, k);
            && (forall h :: h in d.connections ==> h in c.connections && d.connections[h] == c.connections[h])
            && d.lastService == c.lastService && d.outbound == c.outbound
  {
    if k == 0 {
    } else {
      ReapAllSubset(c, lost, k - 1);
    }
  }

  lemma ServiceCleans(c: Core, now: Instant, svc: Service)
    requires Elems(svc.order) == c.connections.Keys
    ensures !AnyDirty(ServiceAll(c, now, svc))
    ensures ServiceAll(c, now, svc).lastService == Some(now)
  {
    var n := |svc.order|;
    RouteSame(Started(c, now), svc, n);
    var r := Route(Started(c, now), svc, n);
    var s := Poll(r.connections, svc, n);
    PollKeepsKeys(r.connections, svc, n);
    PollCleans(r.connections, svc, n);
    ReapAllSubset(Staged(r, s), s.lost, |s.lost|);
    assert svc.order[..n] == svc.order;
    forall h | h in ServiceAll(c, now, svc).connections ensures !ServiceAll(c, now, svc).connections[h].dirty {
      assert h in Elems(svc.order);
    }
  }

  /** `t` is the least deadline of the connections in `live`, or none of them has one. */
  ghost predicate IsEarliest(t: Option<Instant>, live: set<Handle>, svc: Service) {
    match t
    case None => forall h :: h in live ==> svc.answer(h).deadline == None
    case Some(u) =>
      && (exists h :: h in live && svc.answer(h).deadline == Some(u))
      && (forall h :: h in live && svc.answer(h).deadline.Some? ==> u <= svc.answer(h).deadline.value)
  }

  lemma {:induction false} EarliestIsEarliest(live: set<Handle>, svc: Service, k: nat)
    requires k <= |svc.order|
    ensures IsEarliest(Earliest(live, svc, k), (set h | h in svc.order[..k] && h in live), svc)
  {
    if k == 0 {
    } else {
      EarliestIsEarliest(live, svc, k - 1);
      var h := svc.order[k - 1];
      assert svc.order[..k] == svc.order[..k - 1] + [h];
      var before := set g | g in svc.order[..k - 1] && g in live;
      var after := set g | g in svc.order[..k] && g in live;
      assert after == before + if h in live then {h} else {};
      var rest := Earliest(live, svc, k - 1);
      if rest.Some? {
        var g :| g in before && svc.answer(g).deadline == rest;
        assert g in after;
      }
    }
  }

  lemma ServiceDeadline(c: Core, now: Instant, svc: Service, slots: set<nat>)
    requires Slab(c, slots) && NoDup(svc.order) && Elems(svc.order) == c.connections.Keys
    ensures var d := ServiceAll(c, now, svc);
            IsEarliest(d.nextTimeout, d.connections.Keys, svc)
  {
    var d := ServiceAll(c, now, svc);
    ServiceConnections(c, now, svc, slots);
    var live := d.connections.Keys;
    EarliestIsEarliest(live, svc, |svc.order|);
    assert live <= Elems(svc.order);
    LiveIsListed(svc.order, live);
  }

  lemma LiveIsListed(order: seq<Handle>, live: set<Handle>)
    requires live <= Elems(order)
    ensures (set h | h in order[..|order|] && h in live) == live
  {
    assert order[..|order|] == order;
    forall h | h in live ensures h in order {
      assert h in Elems(order);
    }
  }

  /** When a poll for a datagram comes back empty, nothing is dirty, nothing is queued, and the deadline is
      the least one of the live connections. */
  lemma DrainedMeansFlushed(w: World, now: Instant, svc: Service)
    requires Handles(w) && ServiceOk(w, svc) && DoPollTransmit(w.ep.core, now, svc).1 == None
    ensures var d := DoPollTransmit(w.ep.core, now, svc).0;
            && !AnyDirty(d) && d.outbound == []
            && IsEarliest(NextTimeout(d), d.connections.Keys, svc)
  {
    ServiceCleans(w.ep.core, now, svc);
    ServiceDeadline(w.ep.core, now, svc, w.slots);
  }

  // ---------------------------------------------------------------------
  // Dirty work keeps the caller awake
  // ---------------------------------------------------------------------

  predicate HasNow(i: Input) {
    i.Datagram? || i.Timeout? || i.PollTransmit?
  }

  ghost predicate NowsMonotone(ins: seq<Input>) {
    forall i, j :: 0 <= i <= j < |ins| && HasNow(ins[i]) && HasNow(ins[j]) ==> ins[i].now <= ins[j].now
  }

  /** `t` has been reached: no later call carries an earlier instant. */
  ghost predicate Reached(t: Instant, ins: seq<Input>, k: nat) {
    forall j :: k <= j < |ins| && HasNow(ins[j]) ==> t <= ins[j].now
  }

  /** A live connection has been serviced, at an instant that has been reached. */
  ghost predicate Awake(c: Core, ins: seq<Input>, k: nat) {
    && (c.connections != map[] ==> c.lastService.Some?)
    && (c.lastService.Some? ==> Reached(c.lastService.value, ins, k))
  }

  /** Does the call run a servicing pass? A rejected datagram does not, and a poll only on an empty queue. */
  predicate Services(cfg: Config, w: World, i: Input)
    requires |w.ep.guards| == |cfg.clients|
  {
    match i
    case Datagram(_, _, _, _, _, _, _) => !Rejected(cfg, w.ep, i)
    case Timeout(_, _) => true
    case PollTransmit(_, _) => w.ep.core.outbound == []
    case PollEvent => false
    case Work(_, _) => false
  }

  /** A call that services stamps its instant; any other keeps the stamp, and the set of live connections. */
  lemma StepLastService(cfg: Config, w: World, i: Input)
    requires |w.ep.guards| == |cfg.clients|
    ensures var c, d := w.ep.core, Step(cfg, w, i).ep.core;
            if Services(cfg, w, i) then d.lastService == Some(i.now)
            else d.lastService == c.lastService && d.connections.Keys == c.connections.Keys
  {
    match i {
      case Datagram(now, _, _, _, _, _, svc) =>
        if !Rejected(cfg, w.ep, i) {
          ServiceStamps(Fed(cfg, PastGate(cfg, w, i), i, AdmittedClient(cfg, w, i)).ep.core, now, svc);
        }
      case Timeout(now, svc) =>
        ServiceStamps(w.ep.core.(calls := w.ep.core.calls + [TimeoutCall(now)]), now, svc);
      case PollTransmit(now, svc) =>
        ServiceStamps(w.ep.core, now, svc);
      case PollEvent =>
      case Work(h, op) =>
        assert DoWork(w.ep.core, h, op).connections.Keys == w.ep.core.connections.Keys;
    }
  }

  lemma ServiceStamps(c: Core, now: Instant, svc: Service)
    ensures ServiceAll(c, now, svc).lastService == Some(now)
  {
    RouteSame(Started(c, now), svc, |svc.order|);
    var r := Route(Started(c, now), svc, |svc.order|);
    var s := Poll(r.connections, svc, |svc.order|);
    ReapAllSubset(Staged(r, s), s.lost, |s.lost|);
  }

  lemma {:induction false} RunAwake(cfg: Config, ws: seq<World>, ins: seq<Input>, k: nat)
    requires IsRun(cfg, ws, ins) && NowsMonotone(ins) && k < |ws|
    requires Awake(ws[0].ep.core, ins, 0)
    ensures Awake(ws[k].ep.core, ins, k)
  {
    if k == 0 {
    } else {
      RunAwake(cfg, ws, ins, k - 1);
      assert StepAt(cfg, ws, ins, k - 1);
      StepLastService(cfg, ws[k - 1], ins[k - 1]);
      var c, d := ws[k - 1].ep.core, ws[k].ep.core;
      if c.connections == map[] && d.connections.Keys == c.connections.Keys {
        assert d.connections == map[];
      }
    }
  }

  /** For every run whose clock never goes back: while any live connection is dirty, the reported deadline
      exists and is not later than the instant of any later call. */
  lemma DirtyNeverSleeps(cfg: Config, ws: seq<World>, ins: seq<Input>, k: nat)
    requires IsRun(cfg, ws, ins) && NowsMonotone(ins) && k < |ws|
    requires Awake(ws[0].ep.core, ins, 0)
    requires AnyDirty(ws[k].ep.core)
    ensures NextTimeout(ws[k].ep.core).Some? && Reached(NextTimeout(ws[k].ep.core).value, ins, k)
  {
    RunAwake(cfg, ws, ins, k);
  }
}
