/** Whose connection IDs are whose. The ledger's lists always cover the issued IDs exactly; whether they
    also name the connection for which each ID was minted depends on one path, the early return, which
    leaves its orphans to be picked up by whichever connection is serviced first. */
module EndpointAttribution {
  import opened Base
  import opened ByteCodec
  import opened ConnSpec
  import opened EndpointSpec
  import opened EndpointLedger
  import opened EndpointWorld
  import opened EndpointHandles
  import opened EndpointRuns

  predicate Active(svc: Service, h: Handle) {
    svc.answer(h).endpointEvents != []
  }

  /** The first connection of the pass that sends an endpoint event. */
  predicate FirstActive(svc: Service, k: int) {
    && 0 <= k < |svc.order| && Active(svc, svc.order[k])
    && forall j :: 0 <= j < k ==> !Active(svc, svc.order[j])
  }

  /** `g` is that connection, and is among the first `k`. */
  ghost predicate TakesOrphans(svc: Service, k: nat, g: Handle) {
    exists j :: j < k && FirstActive(svc, j) && svc.order[j] == g
  }

  // ---------------------------------------------------------------------
  // The lists after a pass
  // ---------------------------------------------------------------------

  lemma DrainOwns(c: Core, h: Handle, g: Handle, x: Cid)
    ensures DrainPending(c, h).pending == []
    ensures Owns(DrainPending(c, h).cidsByConn, g, x) <==> Owns(c.cidsByConn, g, x) || (g == h && x in c.pending)
  {
  }

  lemma MintDrainOwns(c: Core, batch: seq<Cid>, h: Handle, g: Handle, x: Cid)
    ensures var d := DrainPending(Mint(c, batch), h);
            && d.pending == []
            && (Owns(d.cidsByConn, g, x) <==> Owns(c.cidsByConn, g, x) || (g == h && (x in c.pending || x in batch)))
  {
    DrainOwns(Mint(c, batch), h, g, x);
  }

  lemma {:induction false} RouteEventsPending(c: Core, h: Handle, evs: seq<EndpointEvent>, j: nat)
    requires j <= |evs|
    ensures RouteEvents(c, h, evs, j).pending == if j == 0 then c.pending else []
  {
    if j > 0 {
      MintDrainOwns(RouteEvents(c, h, evs, j - 1), evs[j - 1].minted, h, h, []);
    }
  }

  ghost predicate RoutedEvents(c: Core, h: Handle, evs: seq<EndpointEvent>, j: nat, g: Handle, x: Cid)
    requires j <= |evs|
  {
    Owns(c.cidsByConn, g, x) || (g == h && (x in EventMints(evs, j) || (j > 0 && x in c.pending)))
  }

  lemma RoutedEventsStep(c: Core, h: Handle, evs: seq<EndpointEvent>, j: nat, g: Handle, x: Cid)
    requires 0 < j <= |evs|
    ensures RoutedEvents(c, h, evs, j, g, x) <==>
              RoutedEvents(c, h, evs, j - 1, g, x) || (g == h && (x in evs[j - 1].minted || (j == 1 && x in c.pending)))
  {
  }

  lemma RouteEventsAfter(c: Core, h: Handle, evs: seq<EndpointEvent>, j: nat, g: Handle, x: Cid)
    requires 0 < j <= |evs|
    ensures var d := RouteEvents(c, h, evs, j - 1);
            Owns(RouteEvents(c, h, evs, j).cidsByConn, g, x) <==>
              Owns(d.cidsByConn, g, x) || (g == h && (x in d.pending || x in evs[j - 1].minted))
  {
    MintDrainOwns(RouteEvents(c, h, evs, j - 1), evs[j - 1].minted, h, g, x);
  }

  ghost predicate OwnsAsRouted(c: Core, h: Handle, evs: seq<EndpointEvent>, j: nat, g: Handle, x: Cid)
    requires j <= |evs|
  {
    Owns(RouteEvents(c, h, evs, j).cidsByConn, g, x) <==> RoutedEvents(c, h, evs, j, g, x)
  }

  lemma RouteEventsNone(c: Core, h: Handle, evs: seq<EndpointEvent>, g: Handle, x: Cid)
    ensures OwnsAsRouted(c, h, evs, 0, g, x)
  {
  }

  lemma RouteEventsNext(c: Core, h: Handle, evs: seq<EndpointEvent>, j: nat, g: Handle, x: Cid)
    requires 0 < j <= |evs| && OwnsAsRouted(c, h, evs, j - 1, g, x)
    ensures OwnsAsRouted(c, h, evs, j, g, x)
  {
    RouteEventsPending(c, h, evs, j - 1);
    RoutedEventsStep(c, h, evs, j, g, x);
    RouteEventsAfter(c, h, evs, j, g, x);
  }

  lemma {:induction false} RouteEventsOwnsAs(c: Core, h: Handle, evs: seq<EndpointEvent>, j: nat, g: Handle, x: Cid)
    requires j <= |evs|
    ensures OwnsAsRouted(c, h, evs, j, g, x)
  {
    if j == 0 {
      RouteEventsNone(c, h, evs, g, x);
    } else {
      RouteEventsOwnsAs(c, h, evs, j - 1, g, x);
      RouteEventsNext(c, h, evs, j, g, x);
    }
  }

  lemma RouteEventsOwns(c: Core, h: Handle, evs: seq<EndpointEvent>, j: nat, g: Handle, x: Cid)
    requires j <= |evs|
    ensures Owns(RouteEvents(c, h, evs, j).cidsByConn, g, x) <==> RoutedEvents(c, h, evs, j, g, x)
  {
    RouteEventsOwnsAs(c, h, evs, j, g, x);
  }

  ghost predicate NoneActive(svc: Service, k: nat)
    requires k <= |svc.order|
  {
    forall j :: 0 <= j < k ==> !Active(svc, svc.order[j])
  }

  lemma TakesOrphansStep(svc: Service, k: nat, g: Handle)
    requires 0 < k <= |svc.order|
    ensures TakesOrphans(svc, k, g) <==>
              TakesOrphans(svc, k - 1, g) || (NoneActive(svc, k - 1) && Active(svc, svc.order[k - 1]) && g == svc.order[k - 1])
    ensures NoneActive(svc, k) <==> NoneActive(svc, k - 1) && !Active(svc, svc.order[k - 1])
  {
    assert FirstActive(svc, k - 1) <==> NoneActive(svc, k - 1) && Active(svc, svc.order[k - 1]);
  }

  lemma PrefixStep(order: seq<Handle>, k: nat, g: Handle)
    requires 0 < k <= |order|
    ensures g in order[..k] <==> g in order[..k - 1] || g == order[k - 1]
  {
    assert order[..k] == order[..k - 1] + [order[k - 1]];
  }

  /** Owns after the first `k` connections were routed. */
  ghost predicate RoutedBy(c: Core, svc: Service, k: nat, g: Handle, x: Cid)
    requires k <= |svc.order|
  {
    || Owns(c.cidsByConn, g, x)
    || (g in svc.order[..k] && x in MintsOf(svc, g))
    || (x in c.pending && TakesOrphans(svc, k, g))
  }

  lemma {:induction false} RoutePending(c: Core, svc: Service, k: nat)
    requires k <= |svc.order|
    ensures Route(c, svc, k).pending == if NoneActive(svc, k) then c.pending else []
  {
    if k == 0 {
    } else {
      var h := svc.order[k - 1];
      var evs := svc.answer(h).endpointEvents;
      RoutePending(c, svc, k - 1);
      RouteEventsPending(Route(c, svc, k - 1), h, evs, |evs|);
    }
  }

  lemma AnswerOwns(d: Core, svc: Service, h: Handle, g: Handle, x: Cid)
    ensures var evs := svc.answer(h).endpointEvents;
            Owns(RouteEvents(d, h, evs, |evs|).cidsByConn, g, x) <==>
              Owns(d.cidsByConn, g, x) || (g == h && (x in MintsOf(svc, h) || (Active(svc, h) && x in d.pending)))
  {
    var evs := svc.answer(h).endpointEvents;
    RouteEventsOwns(d, h, evs, |evs|, g, x);
  }

  lemma OrphanIn(c: Core, svc: Service, k: nat, x: Cid)
    requires k <= |svc.order|
    ensures x in Route(c, svc, k).pending <==> NoneActive(svc, k) && x in c.pending
  {
    RoutePending(c, svc, k);
  }

  lemma RouteAfter(c: Core, svc: Service, k: nat, g: Handle, x: Cid)
    requires 0 < k <= |svc.order|
    ensures var d, h := Route(c, svc, k - 1), svc.order[k - 1];
            Owns(Route(c, svc, k).cidsByConn, g, x) <==>
              Owns(d.cidsByConn, g, x) || (g == h && (x in MintsOf(svc, h) || (NoneActive(svc, k - 1) && Active(svc, h) && x in c.pending)))
  {
    var d, h := Route(c, svc, k - 1), svc.order[k - 1];
    OrphanIn(c, svc, k - 1, x);
    AnswerOwns(d, svc, h, g, x);
    assert Route(c, svc, k) == RouteEvents(d, h, svc.answer(h).endpointEvents, |svc.answer(h).endpointEvents|);
  }

  lemma RoutedByStep(c: Core, svc: Service, k: nat, g: Handle, x: Cid)
    requires 0 < k <= |svc.order|
    ensures var h := svc.order[k - 1];
            RoutedBy(c, svc, k, g, x) <==>
              RoutedBy(c, svc, k - 1, g, x) || (g == h && (x in MintsOf(svc, h) || (NoneActive(svc, k - 1) && Active(svc, h) && x in c.pending)))
  {
    TakesOrphansStep(svc, k, g);
    PrefixStep(svc.order, k, g);
  }

  lemma RoutedByNone(c: Core, svc: Service, g: Handle, x: Cid)
    ensures RoutedBy(c, svc, 0, g, x) <==> Owns(c.cidsByConn, g, x)
  {
  }

  lemma {:induction false} RouteOwns(c: Core, svc: Service, k: nat, g: Handle, x: Cid)
    requires k <= |svc.order|
    ensures Owns(Route(c, svc, k).cidsByConn, g, x) <==> RoutedBy(c, svc, k, g, x)
  {
    if k == 0 {
      RoutedByNone(c, svc, g, x);
    } else {
      RouteOwns(c, svc, k - 1, g, x);
      RoutedByStep(c, svc, k, g, x);
      RouteAfter(c, svc, k, g, x);
    }
  }

  lemma {:induction false} ReapAllOwns(c: Core, lost: seq<Loss>, k: nat)
    requires k <= |lost| && c.cidsByConn.Keys <= c.connections.Keys
    ensures var d := ReapAll(c, lost, k);
            && d.cidsByConn.Keys <= d.connections.Keys
            && d.cidsByConn == c.cidsByConn - LostConns(lost, k)
  {
    if k == 0 {
    } else {
      ReapAllOwns(c, lost, k - 1);
    }
  }

  /** After routing: the lists as they were, the IDs minted for each, and the orphans for the first
      active connection. */
  ghost predicate Routed(c: Core, svc: Service, g: Handle, x: Cid) {
    || Owns(c.cidsByConn, g, x)
    || (g in svc.order && x in MintsOf(svc, g))
    || (x in c.pending && TakesOrphans(svc, |svc.order|, g))
  }

  lemma RoutedOwns(c: Core, svc: Service, g: Handle, x: Cid)
    requires NoDup(svc.order)
    ensures Owns(Route(c, svc, |svc.order|).cidsByConn, g, x) <==> Routed(c, svc, g, x)
  {
    RouteOwns(c, svc, |svc.order|, g, x);
    assert svc.order[..|svc.order|] == svc.order;
  }

  lemma SurvivorsOwn(c: Core, lost: seq<Loss>, slots: set<nat>)
    requires Slab(c, slots) && c.cidsByConn.Keys <= c.connections.Keys
    ensures var d := ReapAll(c, lost, |lost|);
            forall g, x :: Owns(d.cidsByConn, g, x) <==> Owns(c.cidsByConn, g, x) && g in d.connections
  {
    ReapAllOwns(c, lost, |lost|);
    ReapAllSlab(c, lost, |lost|, slots);
  }

  lemma ServiceLists(w: World, now: Instant, svc: Service)
    requires Handles(w) && Unsettled(w) && ServiceOk(w, svc)
    ensures var c, d := w.ep.core, ServiceAll(w.ep.core, now, svc);
            forall g, x :: Owns(d.cidsByConn, g, x) <==>
              Owns(Route(Started(c, now), svc, |svc.order|).cidsByConn, g, x) && g in d.connections
  {
    var c, n := w.ep.core, |svc.order|;
    var s0 := Started(c, now);
    RouteSame(s0, svc, n);
    RouteKeeps(s0, svc, n, c.connections.Keys, w.minted);
    var r := Route(s0, svc, n);
    var s := Poll(r.connections, svc, n);
    PollKeepsKeys(r.connections, svc, n);
    SurvivorsOwn(Staged(r, s), s.lost, w.slots);
    var d, e := ServiceAll(c, now, svc), ReapAll(Staged(r, s), s.lost, |s.lost|);
    assert d.cidsByConn == e.cidsByConn && d.connections == e.connections;
    assert Staged(r, s).cidsByConn == r.cidsByConn;
    forall g, x ensures Owns(d.cidsByConn, g, x) <==> Owns(r.cidsByConn, g, x) && g in d.connections {
      assert Owns(e.cidsByConn, g, x) <==> Owns(Staged(r, s).cidsByConn, g, x) && g in e.connections;
    }
  }

  /** The lists after a pass: those of the survivors. */
  lemma ServiceOwns(w: World, now: Instant, svc: Service, g: Handle, x: Cid)
    requires Handles(w) && Unsettled(w) && ServiceOk(w, svc)
    ensures Owns(ServiceAll(w.ep.core, now, svc).cidsByConn, g, x) <==>
              && g in w.ep.core.connections && LossIn(svc, g).None?
              && Routed(w.ep.core, svc, g, x)
  {
    var c := w.ep.core;
    RoutedOwns(Started(c, now), svc, g, x);
    ServiceLists(w, now, svc);
    ServiceConnections(c, now, svc, w.slots);
  }

  // ---------------------------------------------------------------------
  // The true owners
  // ---------------------------------------------------------------------

  /** Every listed ID was minted for the connection that lists it. */
  ghost predicate Exact(w: World) {
    forall g, x :: Owns(w.ep.core.cidsByConn, g, x) ==> x in w.owner && w.owner[x] == g
  }

  /** Every ID minted for a live connection is listed by it. */
  ghost predicate Complete(w: World) {
    forall x :: x in w.owner && w.owner[x] in w.ep.core.connections ==> Owns(w.ep.core.cidsByConn, w.owner[x], x)
  }

  /** Owners are issued handles; IDs pending in the middle of a call belong to nobody. */
  ghost predicate OwnersOk(w: World) {
    && w.owner.Keys <= w.minted
    && (forall x :: x in w.owner ==> w.owner[x] in w.handed)
    && (forall x :: x in w.ep.core.pending ==> x !in w.owner && x in w.minted)
  }

  lemma GiveAllFacts(p: map<Cid, Handle>, b: seq<Cid>, h: Handle)
    requires forall x :: x in b ==> x !in p
    ensures GiveAll(p, b, h).Keys == p.Keys + Elems(b)
    ensures forall x :: x in p ==> GiveAll(p, b, h)[x] == p[x]
    ensures forall x :: x in b ==> GiveAll(p, b, h)[x] == h
  {
  }

  lemma GiveAllAt(p: map<Cid, Handle>, b: seq<Cid>, h: Handle, x: Cid)
    ensures x in GiveAll(p, b, h) <==> x in p || x in b
    ensures x in b ==> GiveAll(p, b, h)[x] == h
    ensures x in p && x !in b ==> GiveAll(p, b, h)[x] == p[x]
  {
  }

  lemma {:induction false} RouteOwnersAt(owner: map<Cid, Handle>, svc: Service, k: nat, minted: set<Cid>, x: Cid)
    requires k <= |svc.order| && NewIds(ServiceMints(svc, k), minted) && owner.Keys <= minted
    ensures x in RouteOwners(owner, svc, k) <==> x in owner || x in ServiceMints(svc, k)
    ensures x in owner ==> RouteOwners(owner, svc, k)[x] == owner[x]
    ensures x in RouteOwners(owner, svc, k) && x !in owner ==> MintedFor(svc, k, RouteOwners(owner, svc, k)[x], x)
  {
    if k == 0 {
    } else {
      var h := svc.order[k - 1];
      var a, b := ServiceMints(svc, k - 1), MintsOf(svc, h);
      NewIdsSplit(a, b, minted);
      RouteOwnersAt(owner, svc, k - 1, minted, x);
      GiveAllAt(RouteOwners(owner, svc, k - 1), b, h, x);
      assert x in a + b <==> x in a || x in b;
      if x in b {
        assert svc.order[k - 1] == h;
      }
    }
  }

  /** Routing leaves old owners alone and makes each connection the owner of what was minted for it. */
  lemma RouteOwnersFacts(owner: map<Cid, Handle>, svc: Service, k: nat, minted: set<Cid>)
    requires k <= |svc.order| && NewIds(ServiceMints(svc, k), minted) && owner.Keys <= minted
    ensures RouteOwners(owner, svc, k).Keys == owner.Keys + Elems(ServiceMints(svc, k))
    ensures forall x :: x in owner ==> RouteOwners(owner, svc, k)[x] == owner[x]
    ensures forall x :: x in RouteOwners(owner, svc, k) && x !in owner ==> MintedFor(svc, k, RouteOwners(owner, svc, k)[x], x)
  {
    forall x
      ensures x in RouteOwners(owner, svc, k) <==> x in owner || x in ServiceMints(svc, k)
      ensures x in owner ==> RouteOwners(owner, svc, k)[x] == owner[x]
      ensures x in RouteOwners(owner, svc, k) && x !in owner ==> MintedFor(svc, k, RouteOwners(owner, svc, k)[x], x)
    {
      RouteOwnersAt(owner, svc, k, minted, x);
    }
  }

  ghost predicate MintedFor(svc: Service, k: nat, h: Handle, x: Cid)
    requires k <= |svc.order|
  {
    x in MintsOf(svc, h) && exists j :: 0 <= j < k && svc.order[j] == h
  }

  lemma NotMinted(svc: Service, k: nat, j: nat, x: Cid)
    requires k <= |svc.order| && j < |svc.order| && x !in ServiceMints(svc, k)
    ensures x in MintsOf(svc, svc.order[j]) ==> j >= k
  {
    if j < k {
      if x in MintsOf(svc, svc.order[j]) { MintedIsNew(svc, k, j, x); }
    }
  }

  /** Minted IDs are new, so the owner of one is the connection for which it was minted. */
  lemma {:induction false} MintedHasOneOwner(svc: Service, k: nat, i: nat, j: nat, x: Cid)
    requires i < k <= |svc.order| && j < k && NoDup(ServiceMints(svc, k))
    requires x in MintsOf(svc, svc.order[i]) && x in MintsOf(svc, svc.order[j])
    ensures i == j
  {
    var a, b := ServiceMints(svc, k - 1), MintsOf(svc, svc.order[k - 1]);
    assert Disjoint(a + b, {});
    NewIdsSplit(a, b, {});
    if x in b {
      assert x !in Elems(a);
      NotMinted(svc, k - 1, i, x);
      NotMinted(svc, k - 1, j, x);
    } else {
      MintedHasOneOwner(svc, k - 1, i, j, x);
    }
  }

  /** Orphans are pending and the connection that will pick them up survives the pass. */
  ghost predicate Misattributes(pending: seq<Cid>, svc: Service) {
    pending != [] && exists k :: FirstActive(svc, k) && LossIn(svc, svc.order[k]).None?
  }

  lemma ServicedComplete(w: World, now: Instant, svc: Service)
    requires Handles(w) && Unsettled(w) && ServiceOk(w, svc) && OwnersOk(w) && Complete(w)
    ensures Complete(Serviced(w, now, svc))
  {
    var c, v := w.ep.core, Serviced(w, now, svc);
    RouteOwnersFacts(w.owner, svc, |svc.order|, w.minted);
    ServiceConnections(c, now, svc, w.slots);
    forall x | x in v.owner && v.owner[x] in v.ep.core.connections ensures Owns(v.ep.core.cidsByConn, v.owner[x], x) {
      assert v.owner[x] in Elems(svc.order);
      ServiceOwns(w, now, svc, v.owner[x], x);
    }
  }

  lemma ServicedOwnersOk(w: World, now: Instant, svc: Service)
    requires Handles(w) && Unsettled(w) && ServiceOk(w, svc) && OwnersOk(w)
    ensures OwnersOk(Serviced(w, now, svc))
  {
    var v := Serviced(w, now, svc);
    RouteOwnersFacts(w.owner, svc, |svc.order|, w.minted);
    ServiceSettles(w.ep.core, now, svc, w.minted);
    forall x | x in v.owner ensures v.owner[x] in v.handed {
      if x !in w.owner {
        var j :| 0 <= j < |svc.order| && svc.order[j] == v.owner[x];
        assert v.owner[x] in Elems(svc.order);
        assert v.owner[x] in Elems(w.handed);
      }
    }
  }

  /** After a pass, a listed ID is listed by its owner unless it was an orphan. */
  lemma ServicedOwner(w: World, now: Instant, svc: Service, g: Handle, x: Cid)
    requires Handles(w) && Unsettled(w) && ServiceOk(w, svc) && OwnersOk(w) && Exact(w)
    requires Owns(ServiceAll(w.ep.core, now, svc).cidsByConn, g, x)
    ensures var o := RouteOwners(w.owner, svc, |svc.order|);
            (x in o && o[x] == g) <==> !(x in w.ep.core.pending)
  {
    var c, n := w.ep.core, |svc.order|;
    var o := RouteOwners(w.owner, svc, n);
    RouteOwnersFacts(w.owner, svc, n, w.minted);
    ServiceOwns(w, now, svc, g, x);
    if x in MintsOf(svc, g) && !Owns(c.cidsByConn, g, x) {
      assert g in Elems(svc.order);
      var j :| 0 <= j < n && svc.order[j] == g;
      MintedIsNew(svc, n, j, x);
      assert x in o && x !in w.owner;
      var i :| 0 <= i < n && svc.order[i] == o[x];
      MintedHasOneOwner(svc, n, i, j, x);
    } else if x in c.pending {
      assert x !in Elems(ServiceMints(svc, n));
    }
  }

  lemma {:induction false} MintedIsNew(svc: Service, k: nat, j: nat, x: Cid)
    requires j < k <= |svc.order| && x in MintsOf(svc, svc.order[j])
    ensures x in ServiceMints(svc, k)
  {
    if j == k - 1 {
    } else {
      MintedIsNew(svc, k - 1, j, x);
    }
  }

  /** A pass keeps the attribution exact if and only if it does not hand orphans to a survivor. */
  lemma ServicedExact(w: World, now: Instant, svc: Service)
    requires Handles(w) && Unsettled(w) && ServiceOk(w, svc) && OwnersOk(w) && Exact(w)
    ensures Exact(Serviced(w, now, svc)) <==> !Misattributes(w.ep.core.pending, svc)
  {
    var c, v := w.ep.core, Serviced(w, now, svc);
    if Misattributes(c.pending, svc) {
      var k :| FirstActive(svc, k) && LossIn(svc, svc.order[k]).None?;
      var g, x := svc.order[k], c.pending[0];
      assert g in Elems(svc.order);
      assert TakesOrphans(svc, |svc.order|, g);
      ServiceOwns(w, now, svc, g, x);
      ServicedOwner(w, now, svc, g, x);
      assert !Exact(v);
    } else {
      forall g, x | Owns(v.ep.core.cidsByConn, g, x) ensures x in v.owner && v.owner[x] == g {
        ServiceOwns(w, now, svc, g, x);
        if x in c.pending {
          NoOrphanListed(w, now, svc, g, x);
        }
        ServicedOwner(w, now, svc, g, x);
      }
    }
  }

  lemma NoOrphanListed(w: World, now: Instant, svc: Service, g: Handle, x: Cid)
    requires Handles(w) && Unsettled(w) && ServiceOk(w, svc) && OwnersOk(w) && Exact(w)
    requires !Misattributes(w.ep.core.pending, svc) && x in w.ep.core.pending
    ensures !Owns(ServiceAll(w.ep.core, now, svc).cidsByConn, g, x)
  {
    ServiceOwns(w, now, svc, g, x);
    var c := w.ep.core;
    assert !Owns(c.cidsByConn, g, x);
    if x in MintsOf(svc, g) && g in c.connections {
      assert g in Elems(svc.order);
      var j :| 0 <= j < |svc.order| && svc.order[j] == g;
      MintedIsNew(svc, |svc.order|, j, x);
    }
  }

  // ---------------------------------------------------------------------
  // Feeding
  // ---------------------------------------------------------------------

  lemma AdmitOwns(m: Core, now: Instant, a: AcceptAnswer, clientId: string, g: Handle, x: Cid)
    requires a.AcceptOk?
    ensures Owns(Admit(m, now, a, clientId).0.cidsByConn, g, x) <==>
              Owns(m.cidsByConn, g, x) || (g == Handle(a.quinn, m.nextGeneration) && (x in m.pending || x in a.minted))
  {
    var (n, h) := AllocateHandle(Mint(m, a.minted).(calls := m.calls + [AcceptCall(now)]), a.quinn);
    DrainOwns(Queue(n, a.remote, a.buf), h, g, x);
  }

  lemma HandledOwns(c: Core, now: Instant, from: Addr, data: Bytes, ans: FeedAnswer)
    requires c.pending == []
    ensures var m := Handled(c, now, from, data, ans);
            m.cidsByConn == c.cidsByConn && m.pending == ans.minted && m.nextGeneration == c.nextGeneration
  {
  }

  lemma FeedOwns(cfg: Config, c: Core, now: Instant, from: Addr, data: Bytes, admitted: Option<nat>, ans: FeedAnswer)
    requires c.pending == []
    ensures var d := Feed(cfg, c, now, from, data, admitted, ans).0;
            if Creates(c.role, admitted, ans) then
              forall g, x :: Owns(d.cidsByConn, g, x) <==>
                Owns(c.cidsByConn, g, x) || (g == NewHandle(c, ans) && x in FeedMints(c.role, admitted, ans))
            else d.cidsByConn == c.cidsByConn
  {
    var m := Handled(c, now, from, data, ans);
    FeedCases(cfg, c, now, from, data, admitted, ans);
    HandledOwns(c, now, from, data, ans);
    if Creates(c.role, admitted, ans) {
      var d := Feed(cfg, c, now, from, data, admitted, ans).0;
      forall g, x ensures Owns(d.cidsByConn, g, x) <==>
        Owns(c.cidsByConn, g, x) || (g == NewHandle(c, ans) && x in FeedMints(c.role, admitted, ans))
      {
        AdmitOwns(m, now, ans.event.accept, ClientIdOf(cfg, admitted.value), g, x);
      }
    }
  }

  /** Feeding attributes correctly; only the early return leaves IDs pending, and they have no owner. */
  lemma FedAttribution(cfg: Config, w: World, i: Input, admitted: Option<nat>)
    requires i.Datagram? && Inv(w) && FeedOk(w, i, admitted) && OwnersOk(w) && Exact(w) && Complete(w)
    ensures var v := Fed(cfg, w, i, admitted);
            Exact(v) && Complete(v) && OwnersOk(v)
  {
    if Creates(w.ep.core.role, admitted, i.feed) {
      FedNewOwner(cfg, w, i, admitted);
    } else {
      FedNoOwner(cfg, w, i, admitted);
    }
  }

  lemma NothingPending(cfg: Config, w: World, i: Input, admitted: Option<nat>)
    requires i.Datagram? && Inv(w) && FeedOk(w, i, admitted) && Creates(w.ep.core.role, admitted, i.feed)
    ensures Fed(cfg, w, i, admitted).ep.core.pending == []
  {
    FedUnsettled(cfg, w, i, admitted);
  }

  lemma FedNewOwner(cfg: Config, w: World, i: Input, admitted: Option<nat>)
    requires i.Datagram? && Inv(w) && FeedOk(w, i, admitted) && OwnersOk(w) && Exact(w) && Complete(w)
    requires Creates(w.ep.core.role, admitted, i.feed)
    ensures var v := Fed(cfg, w, i, admitted);
            Exact(v) && Complete(v) && OwnersOk(v)
  {
    var c := w.ep.core;
    FeedOwns(cfg, c, i.now, i.from, i.data, admitted, i.feed);
    FeedConnections(cfg, c, i.now, i.from, i.data, admitted, i.feed);
    NothingPending(cfg, w, i, admitted);
    HandleIsNew(w, NewHandle(c, i.feed));
    assert c.connections[NewHandle(c, i.feed) := EMPTY_BOOK].Keys == c.connections.Keys + {NewHandle(c, i.feed)};
    NewOwnersComplete(w, Fed(cfg, w, i, admitted), NewHandle(c, i.feed), FeedMints(c.role, admitted, i.feed));
  }

  lemma HandleIsNew(w: World, h: Handle)
    requires Inv(w) && h.generation == w.ep.core.nextGeneration
    ensures h !in w.handed && h !in w.ep.core.connections
  {
    FinalHandsOut(w.history, w.handed, w.ep.core.connections.Keys, w.ep.core.nextGeneration, h);
  }

  lemma FedNoOwner(cfg: Config, w: World, i: Input, admitted: Option<nat>)
    requires i.Datagram? && Inv(w) && FeedOk(w, i, admitted) && OwnersOk(w) && Exact(w) && Complete(w)
    requires !Creates(w.ep.core.role, admitted, i.feed)
    ensures var v := Fed(cfg, w, i, admitted);
            Exact(v) && Complete(v) && OwnersOk(v)
  {
    var c := w.ep.core;
    FeedOwns(cfg, c, i.now, i.from, i.data, admitted, i.feed);
    FeedConnections(cfg, c, i.now, i.from, i.data, admitted, i.feed);
    FedUnsettled(cfg, w, i, admitted);
    NoNewOwners(w, Fed(cfg, w, i, admitted), FeedMints(c.role, admitted, i.feed));
  }

  lemma NoNewOwners(w: World, v: World, mints: seq<Cid>)
    requires OwnersOk(w) && Exact(w) && Complete(w) && Disjoint(mints, w.minted)
    requires v.owner == w.owner && v.minted == w.minted + Elems(mints) && v.handed == w.handed
    requires v.ep.core.connections.Keys == w.ep.core.connections.Keys
    requires forall x :: x in v.ep.core.pending ==> x in mints
    requires forall g, x :: Owns(v.ep.core.cidsByConn, g, x) <==> Owns(w.ep.core.cidsByConn, g, x)
    ensures Exact(v) && Complete(v) && OwnersOk(v)
  {
    forall x | x in v.ep.core.pending ensures x !in v.owner && x in v.minted {
      assert x in mints;
    }
  }

  lemma NewOwnersComplete(w: World, v: World, h: Handle, mints: seq<Cid>)
    requires OwnersOk(w) && Exact(w) && Complete(w) && Disjoint(mints, w.minted)
    requires h !in w.ep.core.connections && v.owner == GiveAll(w.owner, mints, h) && v.minted == w.minted + Elems(mints)
    requires v.ep.core.connections.Keys == w.ep.core.connections.Keys + {h} && v.ep.core.pending == []
    requires h !in w.handed && v.handed == w.handed + [h]
    requires forall g, x :: Owns(v.ep.core.cidsByConn, g, x) <==> Owns(w.ep.core.cidsByConn, g, x) || (g == h && x in mints)
    ensures Exact(v) && Complete(v) && OwnersOk(v)
  {
    GiveAllFacts(w.owner, mints, h);
  }

  // ---------------------------------------------------------------------
  // Steps and runs
  // ---------------------------------------------------------------------

  /** The attribution between public calls. */
  ghost predicate Attributed(w: World) {
    Exact(w) && Complete(w) && OwnersOk(w)
  }

  /** The one failing family: a datagram on an active ID that the library takes for a new connection, with
      IDs minted on the way, in a pass whose first active connection survives. */
  ghost predicate Misfiles(cfg: Config, w: World, i: Input)
    requires |w.ep.guards| == |cfg.clients|
  {
    && i.Datagram? && !Rejected(cfg, w.ep, i)
    && ReturnsEarly(w.ep.core.role, AdmittedClient(cfg, w, i), i.feed)
    && Misattributes(i.feed.minted, i.svc)
  }

  lemma FedPending(cfg: Config, w: World, i: Input, admitted: Option<nat>)
    requires i.Datagram? && Inv(w) && FeedOk(w, i, admitted)
    ensures Misattributes(Fed(cfg, w, i, admitted).ep.core.pending, i.svc) <==>
              ReturnsEarly(w.ep.core.role, admitted, i.feed) && Misattributes(i.feed.minted, i.svc)
  {
    FedUnsettled(cfg, w, i, admitted);
    if ReturnsEarly(w.ep.core.role, admitted, i.feed) {
      assert Fed(cfg, w, i, admitted).ep.core.pending == i.feed.minted;
    }
  }

  lemma ServicedAttribution(w: World, now: Instant, svc: Service)
    requires Handles(w) && Unsettled(w) && ServiceOk(w, svc) && Attributed(w)
    ensures Exact(Serviced(w, now, svc)) <==> !Misattributes(w.ep.core.pending, svc)
    ensures Complete(Serviced(w, now, svc)) && OwnersOk(Serviced(w, now, svc))
  {
    ServicedExact(w, now, svc);
    ServicedComplete(w, now, svc);
    ServicedOwnersOk(w, now, svc);
  }

  lemma DatagramAttribution(cfg: Config, w: World, i: Input)
    requires |w.ep.guards| == |cfg.clients| && i.Datagram? && EnvOk(cfg, w, i) && Inv(w) && Attributed(w)
    ensures Exact(Step(cfg, w, i)) <==> !Misfiles(cfg, w, i)
    ensures Complete(Step(cfg, w, i)) && OwnersOk(Step(cfg, w, i))
  {
    var o, admitted := PastGate(cfg, w, i), AdmittedClient(cfg, w, i);
    PastGateInv(cfg, w, i);
    assert Attributed(o);
    if !Rejected(cfg, w.ep, i) {
      var f := Fed(cfg, o, i, admitted);
      FedAttribution(cfg, o, i, admitted);
      FedHandles(cfg, o, i, admitted);
      FedUnsettled(cfg, o, i, admitted);
      FedPending(cfg, o, i, admitted);
      ServicedAttribution(f, i.now, i.svc);
    }
  }

  lemma SameAttribution(w: World, v: World)
    requires Attributed(w) && v.owner == w.owner && v.minted == w.minted && v.handed == w.handed
    requires v.ep.core.cidsByConn == w.ep.core.cidsByConn && v.ep.core.pending == w.ep.core.pending
    requires v.ep.core.connections.Keys == w.ep.core.connections.Keys
    ensures Attributed(v)
  {
  }

  lemma PoppedAttribution(w: World)
    requires Attributed(w)
    ensures Attributed(Popped(w))
  {
    SameAttribution(w, Popped(w));
  }

  lemma WorkAttribution(w: World, h: Handle, op: ConnOp)
    requires Attributed(w)
    ensures Attributed(WithCore(w, DoWork(w.ep.core, h, op)))
  {
    assert DoWork(w.ep.core, h, op).connections.Keys == w.ep.core.connections.Keys;
    SameAttribution(w, WithCore(w, DoWork(w.ep.core, h, op)));
  }

  /** One step keeps the attribution exact if and only if it is not of the failing family; in any case no
      live connection loses an ID. */
  lemma StepAttribution(cfg: Config, w: World, i: Input)
    requires |w.ep.guards| == |cfg.clients| && EnvOk(cfg, w, i) && Inv(w) && Attributed(w)
    ensures Exact(Step(cfg, w, i)) <==> !Misfiles(cfg, w, i)
    ensures Complete(Step(cfg, w, i)) && OwnersOk(Step(cfg, w, i))
  {
    match i {
      case Datagram(_, _, _, _, _, _, _) =>
        DatagramAttribution(cfg, w, i);
      case Timeout(now, svc) =>
        var t := WithCore(w, w.ep.core.(calls := w.ep.core.calls + [TimeoutCall(now)]));
        SameAttribution(w, t);
        ServicedAttribution(t, now, svc);
      case PollTransmit(now, svc) =>
        if w.ep.core.outbound == [] {
          ServicedAttribution(w, now, svc);
          PoppedAttribution(Serviced(w, now, svc));
        } else {
          PoppedAttribution(w);
        }
      case PollEvent =>
        SameAttribution(w, WithCore(w, DoPollEvent(w.ep.core).0));
      case Work(h, op) =>
        WorkAttribution(w, h, op);
    }
  }

  lemma StepAttributed(cfg: Config, w: World, i: Input, v: World)
    requires |w.ep.guards| == |cfg.clients| && EnvOk(cfg, w, i) && v == Step(cfg, w, i)
    requires Inv(w) && Attributed(w) && !Misfiles(cfg, w, i)
    ensures Attributed(v)
  {
    StepAttribution(cfg, w, i);
  }

  ghost predicate MisfilesAt(cfg: Config, ws: seq<World>, ins: seq<Input>, j: nat) {
    j < |ws| && j < |ins| && |ws[j].ep.guards| == |cfg.clients| && Misfiles(cfg, ws[j], ins[j])
  }

  lemma NextAttributed(cfg: Config, ws: seq<World>, ins: seq<Input>, k: nat)
    requires IsRun(cfg, ws, ins) && k < |ins| && Inv(ws[k]) && Attributed(ws[k]) && !MisfilesAt(cfg, ws, ins, k)
    ensures Attributed(ws[k + 1])
  {
    assert StepAt(cfg, ws, ins, k);
    StepAttributed(cfg, ws[k], ins[k], ws[k + 1]);
  }

  lemma {:induction false} RunAttributed(cfg: Config, ws: seq<World>, ins: seq<Input>, k: nat)
    requires IsRun(cfg, ws, ins) && Inv(ws[0]) && Attributed(ws[0]) && k < |ws|
    requires forall j: nat :: !MisfilesAt(cfg, ws, ins, j)
    ensures Attributed(ws[k])
  {
    if k == 0 {
    } else {
      RunAttributed(cfg, ws, ins, k - 1);
      RunInv(cfg, ws, ins, k - 1);
      NextAttributed(cfg, ws, ins, k - 1);
    }
  }

  /** In every run without such a step, an ID is routed past the pre-filter exactly when it was minted for
      a connection that is live. */
  lemma RunAttribution(cfg: Config, ws: seq<World>, ins: seq<Input>, k: nat)
    requires IsRun(cfg, ws, ins) && Inv(ws[0]) && Attributed(ws[0]) && k < |ws|
    requires forall j: nat :: !MisfilesAt(cfg, ws, ins, j)
    ensures forall x :: x in ws[k].ep.core.issued <==> x in ws[k].owner && ws[k].owner[x] in ws[k].ep.core.connections
  {
    RunInv(cfg, ws, ins, k);
    RunAttributed(cfg, ws, ins, k);
    RoutedIsOwned(ws[k]);
  }

  lemma RoutedIsOwned(w: World)
    requires Inv(w) && Attributed(w)
    ensures forall x :: x in w.ep.core.issued <==> x in w.owner && w.owner[x] in w.ep.core.connections
  {
    var c := w.ep.core;
    forall x ensures x in c.issued <==> x in w.owner && w.owner[x] in c.connections {
      if x in c.issued {
        var h :| Owns(c.cidsByConn, h, x);
      }
    }
  }
}
