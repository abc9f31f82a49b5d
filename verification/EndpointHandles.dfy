/** Handles: the slab index and the handle of a live connection determine each other, no slot in use is
    ever handed out again, and a handle that is lost stays lost. */
module EndpointHandles {
  import opened Base
  import opened ByteCodec
  import opened ConnSpec
  import opened EndpointSpec
  import opened EndpointLedger
  import opened EndpointWorld

  /** `byQuinn` and the live connections are mutually inverse, and every live slot is held by the library. */
  ghost predicate Slab(c: Core, slots: set<nat>) {
    && (forall h :: h in c.connections ==> h.quinn in c.byQuinn && c.byQuinn[h.quinn] == h)
    && (forall q :: q in c.byQuinn ==> c.byQuinn[q].quinn == q && c.byQuinn[q] in c.connections)
    && c.byQuinn.Keys <= slots
    && (forall h :: h in c.connections ==> h.generation < c.nextGeneration)
  }

  // ---------------------------------------------------------------------
  // Losses
  // ---------------------------------------------------------------------

  /** The reason of the last loss in an event queue. */
  function LastLost(evs: seq<ConnEvent>): Option<Reason> {
    if evs == [] then None
    else if evs[|evs| - 1].Lost? then Some(evs[|evs| - 1].reason) else LastLost(evs[..|evs| - 1])
  }

  lemma {:induction false} ServiceStreamsLost(b: Book, evs: seq<ConnEvent>)
    ensures ServiceStreams(b, evs).1.lost == LastLost(evs)
  {
    if evs == [] {
    } else {
      ServiceStreamsLost(b, evs[..|evs| - 1]);
    }
  }

  /** Why `h` is reaped in a pass, if it is. */
  function LossIn(svc: Service, h: Handle): Option<Reason> {
    if LastLost(svc.answer(h).polled).Some? then LastLost(svc.answer(h).polled)
    else if svc.answer(h).isDrained then Some(LocallyClosed) else None
  }

  function Losses(svc: Service, k: nat): seq<Loss>
    requires k <= |svc.order|
  {
    if k == 0 then []
    else
      var h := svc.order[k - 1];
      Losses(svc, k - 1) + if LossIn(svc, h).Some? then [Loss(h, LossIn(svc, h).value)] else []
  }

  lemma {:induction false} PollLosses(connections: map<Handle, Book>, svc: Service, k: nat)
    requires k <= |svc.order| && Elems(svc.order) <= connections.Keys
    ensures Poll(connections, svc, k).lost == Losses(svc, k)
  {
    if k == 0 {
    } else {
      PollLosses(connections, svc, k - 1);
      PollKeepsKeys(connections, svc, k - 1);
      var h := svc.order[k - 1];
      assert h in Elems(svc.order);
      ServiceStreamsLost(Poll(connections, svc, k - 1).connections[h], svc.answer(h).polled);
    }
  }

  lemma {:induction false} LossesAre(svc: Service, k: nat)
    requires k <= |svc.order| && NoDup(svc.order)
    ensures forall l :: l in Losses(svc, k) ==> l.conn in svc.order[..k] && LossIn(svc, l.conn) == Some(l.reason)
    ensures forall h :: h in svc.order[..k] && LossIn(svc, h).Some? ==> Loss(h, LossIn(svc, h).value) in Losses(svc, k)
    ensures forall i, j :: 0 <= i < j < |Losses(svc, k)| ==> Losses(svc, k)[i].conn != Losses(svc, k)[j].conn
  {
    if k == 0 {
    } else {
      LossesAre(svc, k - 1);
      var h := svc.order[k - 1];
      assert svc.order[..k] == svc.order[..k - 1] + [h];
      assert h !in svc.order[..k - 1];
    }
  }

  // ---------------------------------------------------------------------
  // Reaping and the slab
  // ---------------------------------------------------------------------

  lemma ReapSlab(c: Core, l: Loss, slots: set<nat>)
    requires Slab(c, slots)
    ensures Slab(Reap(c, l), slots)
    ensures Reap(c, l).connections == c.connections - {l.conn}
  {
  }

  function LostConns(lost: seq<Loss>, k: nat): set<Handle>
    requires k <= |lost|
  {
    if k == 0 then {} else LostConns(lost, k - 1) + {lost[k - 1].conn}
  }

  lemma {:induction false} ReapAllSlab(c: Core, lost: seq<Loss>, k: nat, slots: set<nat>)
    requires k <= |lost| && Slab(c, slots)
    ensures Slab(ReapAll(c, lost, k), slots)
    ensures ReapAll(c, lost, k).connections.Keys == c.connections.Keys - LostConns(lost, k)
    ensures ReapAll(c, lost, k).nextGeneration == c.nextGeneration
  {
    if k == 0 {
    } else {
      ReapAllSlab(c, lost, k - 1, slots);
      ReapSlab(ReapAll(c, lost, k - 1), lost[k - 1], slots);
    }
  }

  lemma {:induction false} LostConnsAre(lost: seq<Loss>, k: nat)
    requires k <= |lost|
    ensures forall h :: h in LostConns(lost, k) <==> exists i :: 0 <= i < k && lost[i].conn == h
  {
    if k == 0 {
    } else {
      LostConnsAre(lost, k - 1);
    }
  }

  /** What a pass leaves: exactly the connections it found no reason to reap, with clean books. */
  lemma ServiceConnections(c: Core, now: Instant, svc: Service, slots: set<nat>)
    requires Slab(c, slots) && NoDup(svc.order) && Elems(svc.order) == c.connections.Keys
    ensures var d := ServiceAll(c, now, svc);
            && Slab(d, slots) && d.nextGeneration == c.nextGeneration
            && (forall h :: h in d.connections <==> h in c.connections && LossIn(svc, h).None?)
  {
    var n := |svc.order|;
    var s0 := Started(c, now);
    RouteSame(s0, svc, n);
    var r := Route(s0, svc, n);
    var s := Poll(r.connections, svc, n);
    PollKeepsKeys(r.connections, svc, n);
    PollLosses(r.connections, svc, n);
    assert Slab(Staged(r, s), slots);
    ReapAllSlab(Staged(r, s), s.lost, |s.lost|, slots);
    LossesAre(svc, n);
    LostConnsAre(s.lost, |s.lost|);
    assert svc.order[..n] == svc.order;
    forall h | h in c.connections ensures h in LostConns(s.lost, |s.lost|) <==> LossIn(svc, h).Some? {
      assert h in Elems(svc.order);
      if LossIn(svc, h).Some? {
        assert Loss(h, LossIn(svc, h).value) in s.lost;
      }
    }
  }

  lemma {:induction false} RouteSame(c: Core, svc: Service, k: nat)
    requires k <= |svc.order|
    ensures SameButLedger(c, Route(c, svc, k))
  {
    if k == 0 {
    } else {
      RouteSame(c, svc, k - 1);
      var h := svc.order[k - 1];
      RouteEventsSame(Route(c, svc, k - 1), h, svc.answer(h).endpointEvents, |svc.answer(h).endpointEvents|);
    }
  }

  lemma {:induction false} RouteEventsSame(c: Core, h: Handle, evs: seq<EndpointEvent>, j: nat)
    requires j <= |evs|
    ensures SameButLedger(c, RouteEvents(c, h, evs, j))
  {
    if j == 0 {
    } else {
      RouteEventsSame(c, h, evs, j - 1);
    }
  }

  /** A pass frees a slot only together with reaping the connection in it. */
  lemma ServicedSlab(w: World, now: Instant, svc: Service)
    requires Slab(w.ep.core, w.slots) && ServiceOk(w, svc)
    ensures var v := Serviced(w, now, svc); Slab(v.ep.core, v.slots)
  {
    var c, d := w.ep.core, ServiceAll(w.ep.core, now, svc);
    ServiceConnections(c, now, svc, w.slots);
    forall q | q in d.byQuinn ensures q !in FreedSlots(svc) {
      var h := d.byQuinn[q];
      assert h in c.connections && h.quinn == q;
      forall g | g in Elems(svc.order) && HasDrained(svc.answer(g)) ensures g.quinn != q {
        assert LossIn(svc, g).Some? && g !in d.connections;
        assert c.byQuinn[g.quinn] == g && c.byQuinn[q] == h;
      }
    }
  }

  // ---------------------------------------------------------------------
  // Creating connections
  // ---------------------------------------------------------------------

  /** The fields that neither the ledger nor the queues of a feed touch. */
  ghost predicate SameConnections(c: Core, d: Core) {
    && d.role == c.role && d.events == c.events && d.lastService == c.lastService && d.nextTimeout == c.nextTimeout
    && d.connections == c.connections && d.byQuinn == c.byQuinn
    && d.clientIds == c.clientIds && d.nextGeneration == c.nextGeneration
  }

  /** `d` is `c` with one more connection. */
  ghost predicate OneMore(c: Core, d: Core, h: Handle, clientId: string) {
    && h.generation == c.nextGeneration
    && d.role == c.role && d.events == c.events && d.lastService == c.lastService && d.nextTimeout == c.nextTimeout
    && d.connections == c.connections[h := EMPTY_BOOK]
    && d.byQuinn == c.byQuinn[h.quinn := h]
    && d.clientIds == c.clientIds[h := clientId]
    && d.nextGeneration == c.nextGeneration + 1
  }

  lemma AdmitConnections(c: Core, now: Instant, a: AcceptAnswer, clientId: string)
    ensures var d := Admit(c, now, a, clientId).0;
            if a.AcceptOk? then OneMore(c, d, Handle(a.quinn, c.nextGeneration), clientId) else SameConnections(c, d)
  {
    if a.AcceptOk? {
      var m := Mint(c, a.minted).(calls := c.calls + [AcceptCall(now)]);
      var (n, h) := AllocateHandle(m, a.quinn);
      var q := Queue(n, a.remote, a.buf);
      assert SameConnections(n, q);
      assert SameConnections(q, DrainPending(q, h));
    }
  }

  lemma AdmitThenSweep(c: Core, m: Core, now: Instant, a: AcceptAnswer, clientId: string)
    requires SameConnections(c, m)
    ensures var d := SweepOrphans(Admit(m, now, a, clientId).0);
            if a.AcceptOk? then OneMore(c, d, Handle(a.quinn, c.nextGeneration), clientId) else SameConnections(c, d)
  {
    AdmitConnections(m, now, a, clientId);
  }

  lemma HandledSame(c: Core, now: Instant, from: Addr, data: Bytes, ans: FeedAnswer)
    ensures SameConnections(c, Handled(c, now, from, data, ans))
    ensures SameConnections(c, SweepOrphans(Handled(c, now, from, data, ans)))
  {
  }

  /** What a feed comes to: the early return, an admission, or nothing but a sweep. */
  lemma FeedCases(cfg: Config, c: Core, now: Instant, from: Addr, data: Bytes, admitted: Option<nat>, ans: FeedAnswer)
    ensures var d, m := Feed(cfg, c, now, from, data, admitted, ans).0, Handled(c, now, from, data, ans);
            d == if ReturnsEarly(c.role, admitted, ans) then m
                 else if ans.event.NewConnection? && c.role == Server
                 then SweepOrphans(Admit(m, now, ans.event.accept, ClientIdOf(cfg, admitted.value)).0)
                 else SweepOrphans(m)
  {
  }

  /** Feeding creates at most one connection. */
  lemma FeedConnections(cfg: Config, c: Core, now: Instant, from: Addr, data: Bytes, admitted: Option<nat>, ans: FeedAnswer)
    ensures var d := Feed(cfg, c, now, from, data, admitted, ans).0;
            if Creates(c.role, admitted, ans)
            then OneMore(c, d, NewHandle(c, ans), ClientIdOf(cfg, admitted.value))
            else SameConnections(c, d)
  {
    var m := Handled(c, now, from, data, ans);
    HandledSame(c, now, from, data, ans);
    FeedCases(cfg, c, now, from, data, admitted, ans);
    if !ReturnsEarly(c.role, admitted, ans) && ans.event.NewConnection? && c.role == Server {
      AdmitThenSweep(c, m, now, ans.event.accept, ClientIdOf(cfg, admitted.value));
    }
  }

  /** The assertion in the handle allocator: the slot it registers is not live. */
  lemma SlotNeverReused(w: World, i: Input, admitted: Option<nat>)
    requires i.Datagram? && Slab(w.ep.core, w.slots) && FeedOk(w, i, admitted)
    requires Creates(w.ep.core.role, admitted, i.feed)
    ensures i.feed.event.accept.quinn !in w.ep.core.byQuinn
    ensures forall h :: h in w.ep.core.connections ==> h.quinn != i.feed.event.accept.quinn
  {
  }

  lemma FedSlab(cfg: Config, w: World, i: Input, admitted: Option<nat>)
    requires i.Datagram? && Slab(w.ep.core, w.slots) && FeedOk(w, i, admitted)
    ensures var v := Fed(cfg, w, i, admitted); Slab(v.ep.core, v.slots)
  {
    FeedConnections(cfg, w.ep.core, i.now, i.from, i.data, admitted, i.feed);
    if Creates(w.ep.core.role, admitted, i.feed) {
      SlotNeverReused(w, i, admitted);
    }
  }

  // ---------------------------------------------------------------------
  // Finality
  // ---------------------------------------------------------------------

  predicate IsLossOf(e: Event, h: Handle) {
    e.ConnectionLost? && e.conn == h
  }

  /** `h` was lost at event `k`: that is its only loss, and nothing later names it. */
  ghost predicate LostAt(history: seq<Event>, h: Handle, k: nat) {
    && k < |history| && IsLossOf(history[k], h)
    && (forall j :: 0 <= j < k ==> !IsLossOf(history[j], h))
    && (forall j :: k < j < |history| ==> history[j].conn != h)
  }

  ghost predicate HandleStory(history: seq<Event>, live: set<Handle>, h: Handle) {
    if h in live
    then forall j :: 0 <= j < |history| ==> !IsLossOf(history[j], h)
    else exists k: nat :: LostAt(history, h, k)
  }

  /** Handles are issued in increasing generation; events name issued handles; a handle is either live and
      was never reported lost, or was reported lost exactly once and never named again. */
  ghost predicate Final(history: seq<Event>, handed: seq<Handle>, live: set<Handle>, next: nat) {
    && (forall i, j :: 0 <= i < j < |handed| ==> handed[i].generation < handed[j].generation)
    && (forall i :: 0 <= i < |handed| ==> handed[i].generation < next)
    && live <= Elems(handed)
    && (forall j :: 0 <= j < |history| ==> history[j].conn in handed)
    && (forall h :: h in handed ==> HandleStory(history, live, h))
  }

  lemma StoryExtends(history: seq<Event>, live: set<Handle>, h: Handle, e: Event)
    requires HandleStory(history, live, h) && e.conn in live && !e.ConnectionLost?
    ensures HandleStory(history + [e], live, h)
  {
    var more := history + [e];
    if h !in live {
      var k: nat :| LostAt(history, h, k);
      assert LostAt(more, h, k);
    }
  }

  lemma StoryEnds(history: seq<Event>, live: set<Handle>, h: Handle, e: Event)
    requires HandleStory(history, live, h) && e.conn in live && e.ConnectionLost?
    ensures HandleStory(history + [e], live - {e.conn}, h)
  {
    var more := history + [e];
    if h == e.conn {
      assert LostAt(more, h, |history|);
    } else if h !in live {
      var k: nat :| LostAt(history, h, k);
      assert LostAt(more, h, k);
    }
  }

  lemma FinalExtends(history: seq<Event>, handed: seq<Handle>, live: set<Handle>, next: nat, e: Event)
    requires Final(history, handed, live, next) && e.conn in live
    ensures Final(history + [e], handed, if e.ConnectionLost? then live - {e.conn} else live, next)
  {
    forall h | h in handed ensures HandleStory(history + [e], if e.ConnectionLost? then live - {e.conn} else live, h) {
      if e.ConnectionLost? { StoryEnds(history, live, h, e); } else { StoryExtends(history, live, h, e); }
    }
    assert e.conn in Elems(handed);
  }

  lemma {:induction false} FinalExtendsBy(history: seq<Event>, handed: seq<Handle>, live: set<Handle>, next: nat, es: seq<Event>)
    requires Final(history, handed, live, next)
    requires forall j :: 0 <= j < |es| ==> es[j].conn in live && !es[j].ConnectionLost?
    ensures Final(history + es, handed, live, next)
  {
    if es == [] {
      assert history + es == history;
    } else {
      var n := |es| - 1;
      FinalExtendsBy(history, handed, live, next, es[..n]);
      FinalExtends(history + es[..n], handed, live, next, es[n]);
      assert history + es == history + es[..n] + [es[n]];
    }
  }

  /** A new handle carries a generation nobody has seen. */
  lemma FinalHandsOut(history: seq<Event>, handed: seq<Handle>, live: set<Handle>, next: nat, h: Handle)
    requires Final(history, handed, live, next) && h.generation == next
    ensures h !in handed && Final(history, handed + [h], live + {h}, next + 1)
  {
    var more := handed + [h];
    assert h !in handed;
    forall g | g in more ensures HandleStory(history, live + {h}, g) {
      if g == h {
        forall j | 0 <= j < |history| ensures !IsLossOf(history[j], h) {
          assert history[j].conn in handed;
        }
      } else {
        assert g in handed;
        if g !in live { var k: nat :| LostAt(history, g, k); }
      }
    }
  }

  // ---------------------------------------------------------------------
  // The events of a pass
  // ---------------------------------------------------------------------

  lemma ProgressEventsName(h: Handle, p: Progress)
    ensures forall j :: 0 <= j < |ProgressEvents(h, p)| ==> ProgressEvents(h, p)[j].conn == h && !ProgressEvents(h, p)[j].ConnectionLost?
  {
  }

  lemma {:induction false} PollEventsName(connections: map<Handle, Book>, svc: Service, k: nat)
    requires k <= |svc.order|
    ensures forall j :: 0 <= j < |Poll(connections, svc, k).events| ==>
                          && Poll(connections, svc, k).events[j].conn in connections
                          && !Poll(connections, svc, k).events[j].ConnectionLost?
  {
    if k == 0 {
    } else {
      PollEventsName(connections, svc, k - 1);
      PollKeepsKeys(connections, svc, k - 1);
      var s, h := Poll(connections, svc, k - 1), svc.order[k - 1];
      if h in s.connections {
        ProgressEventsName(h, ServiceStreams(s.connections[h], svc.answer(h).polled).1);
      }
    }
  }

  /** Since the events were `base`, the queue has only grown, by what makes `history` longer. */
  ghost predicate Grown(d: Core, base: seq<Event>, history: seq<Event>, handed: seq<Handle>, next: nat) {
    && d.nextGeneration == next
    && base <= d.events
    && Final(history + d.events[|base|..], handed, d.connections.Keys, next)
  }

  lemma ReapFinal(d: Core, l: Loss, base: seq<Event>, history: seq<Event>, handed: seq<Handle>, next: nat)
    requires Grown(d, base, history, handed, next)
    ensures Grown(Reap(d, l), base, history, handed, next)
  {
    if l.conn in d.connections {
      var e := ConnectionLost(l.conn, l.reason);
      FinalExtends(history + d.events[|base|..], handed, d.connections.Keys, next, e);
      assert (d.events + [e])[|base|..] == d.events[|base|..] + [e];
      assert history + (d.events[|base|..] + [e]) == history + d.events[|base|..] + [e];
      assert Reap(d, l).connections.Keys == d.connections.Keys - {l.conn};
    }
  }

  /** Reaping queues one loss per reaped connection. */
  lemma {:induction false} ReapAllFinal(c: Core, lost: seq<Loss>, k: nat, base: seq<Event>, history: seq<Event>, handed: seq<Handle>, next: nat)
    requires k <= |lost| && Grown(c, base, history, handed, next)
    ensures Grown(ReapAll(c, lost, k), base, history, handed, next)
  {
    if k == 0 {
    } else {
      ReapAllFinal(c, lost, k - 1, base, history, handed, next);
      ReapFinal(ReapAll(c, lost, k - 1), lost[k - 1], base, history, handed, next);
    }
  }

  lemma ServicedFinal(c: Core, now: Instant, svc: Service, history: seq<Event>, handed: seq<Handle>)
    requires Final(history, handed, c.connections.Keys, c.nextGeneration)
    ensures Grown(ServiceAll(c, now, svc), c.events, history, handed, c.nextGeneration)
  {
    var n := |svc.order|;
    var s0 := Started(c, now);
    RouteSame(s0, svc, n);
    var r := Route(s0, svc, n);
    var s := Poll(r.connections, svc, n);
    PollKeepsKeys(r.connections, svc, n);
    PollEventsName(r.connections, svc, n);
    FinalExtendsBy(history, handed, c.connections.Keys, c.nextGeneration, s.events);
    var t := Staged(r, s);
    assert t.events[|c.events|..] == s.events;
    ReapAllFinal(t, s.lost, |s.lost|, c.events, history, handed, c.nextGeneration);
  }
}
