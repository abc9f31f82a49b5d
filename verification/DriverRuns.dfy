/** Whole runs of a server's driver over its endpoint: who is offered, in which order, to whom it never is,
    and that every reply is given. */
module DriverRuns {
  import opened Base
  import opened ConnSpec
  import opened StreamSpec
  import opened ParkSpec
  import opened ReplyRuns
  import opened Admission
  import opened EndpointSpec
  import opened EndpointWorld
  import opened EndpointHandles
  import opened EndpointRuns
  import opened EndpointSilence
  import opened DriverSpec

  // ---------------------------------------------------------------------
  // The machine
  // ---------------------------------------------------------------------

  /** The endpoint's world and the driver, with what is remembered: every offer made, every connection taken
      by the application, every event dispatched, and which connection each reply was asked of. */
  datatype Post = Post(w: World, d: Drive, offered: seq<Offer>, delivered: seq<Offer>, dispatched: seq<Event>, asked: map<Reply, Handle>)

  /** Any public call of the endpoint but polling its events; the dispatch of the next event; a command;
      a delivery. The streams that a handle shows are whatever the library has at that moment. */
  datatype Act =
    | CoreStep(i: Input)
    | Dispatch(core: CoreConn, remote: Addr, order: DrainOrder)
    | Command(conn: Handle, cmd: Cmd, core: CoreConn, remote: Addr)
    | Deliver

  function NewPost(cfg: Config): Post {
    Post(ServerWorld(cfg), EMPTY_DRIVE, [], [], [], map[])
  }

  function Look(w: World, h: Handle, core: CoreConn, remote: Addr): Option<Found> {
    if h in w.ep.core.connections then Some(Found(core, remote)) else None
  }

  function NameOf(w: World, h: Handle): Option<string> {
    if h in w.ep.core.clientIds then Some(w.ep.core.clientIds[h]) else None
  }

  function Asked(p: Post, h: Handle, cmd: Cmd): map<Reply, Handle> {
    if ReplyOf(cmd).Some? then p.asked[ReplyOf(cmd).value := h] else p.asked
  }

  function NewOffers(p: Post, e: Event, found: Option<Found>): seq<Offer> {
    if e.Connected? && Surfaces(p.d, e.conn, found) then [Offer(e.conn, found.value.remote, NameOf(p.w, e.conn))] else []
  }

  function DispatchOne(cfg: Config, p: Post, core: CoreConn, remote: Addr, o: DrainOrder): Post
    requires |p.w.ep.guards| == |cfg.clients| && p.w.ep.core.events != []
  {
    var e := p.w.ep.core.events[0];
    var found := Look(p.w, e.conn, core, remote);
    Post(Step(cfg, p.w, PollEvent), DriverSpec.OnEvent(p.d, e, found, NameOf(p.w, e.conn), o),
         p.offered + NewOffers(p, e, found), p.delivered, p.dispatched + [e], p.asked)
  }

  function Do(cfg: Config, p: Post, a: Act): Post
    requires |p.w.ep.guards| == |cfg.clients|
  {
    match a
    case CoreStep(i) => p.(w := Step(cfg, p.w, i))
    case Dispatch(core, remote, o) => if p.w.ep.core.events == [] then p else DispatchOne(cfg, p, core, remote, o)
    case Command(h, cmd, core, remote) =>
      p.(d := DriverSpec.OnCommand(p.d, h, cmd, Look(p.w, h, core, remote)), asked := Asked(p, h, cmd))
    case Deliver =>
      var (d, offer) := DeliverNext(p.d);
      p.(d := d, delivered := p.delivered + if offer.Some? then [offer.value] else [])
  }

  /** The library keeps its contract, maps yield their own keys, and each command brings a new reply. */
  ghost predicate ActOk(cfg: Config, p: Post, a: Act)
    requires |p.w.ep.guards| == |cfg.clients|
  {
    match a
    case CoreStep(i) => !i.PollEvent? && EnvOk(cfg, p.w, i)
    case Dispatch(_, _, o) =>
      p.w.ep.core.events != [] && p.w.ep.core.events[0].ConnectionLost? && p.w.ep.core.events[0].conn in p.d.parked ==>
        Covers(p.d.parked[p.w.ep.core.events[0].conn], o)
    case Command(_, cmd, _, _) => ReplyOf(cmd).Some? ==> ReplyOf(cmd).value !in p.asked
    case Deliver => true
  }

  ghost predicate ActAt(cfg: Config, ps: seq<Post>, acts: seq<Act>, k: nat)
    requires k < |acts| && |ps| == |acts| + 1
  {
    |ps[k].w.ep.guards| == |cfg.clients| && ActOk(cfg, ps[k], acts[k]) && ps[k + 1] == Do(cfg, ps[k], acts[k])
  }

  ghost predicate IsDriven(cfg: Config, ps: seq<Post>, acts: seq<Act>) {
    && |ps| == |acts| + 1
    && ps[0] == NewPost(cfg)
    && forall k :: 0 <= k < |acts| ==> ActAt(cfg, ps, acts, k)
  }

  // ---------------------------------------------------------------------
  // When a connection was announced
  // ---------------------------------------------------------------------

  /** The index of the first `Connected` of `h`, or the length. */
  function First(es: seq<Event>, h: Handle): nat {
    if es == [] then 0
    else
      var n := |es| - 1;
      var f := First(es[..n], h);
      if f < n then f else if es[n] == Connected(h) then n else n + 1
  }

  predicate Heard(es: seq<Event>, h: Handle) {
    First(es, h) < |es|
  }

  lemma {:induction false} FirstIsLeast(es: seq<Event>, h: Handle)
    ensures First(es, h) <= |es|
    ensures Heard(es, h) ==> es[First(es, h)] == Connected(h)
    ensures forall k :: 0 <= k < First(es, h) ==> es[k] != Connected(h)
  {
    if es == [] {
    } else {
      FirstIsLeast(es[..|es| - 1], h);
    }
  }

  lemma FirstPush(es: seq<Event>, e: Event, h: Handle)
    ensures Heard(es, h) ==> First(es + [e], h) == First(es, h)
    ensures !Heard(es, h) && e == Connected(h) ==> First(es + [e], h) == |es|
    ensures Heard(es + [e], h) <==> Heard(es, h) || e == Connected(h)
  {
    FirstIsLeast(es, h);
    assert (es + [e])[..|es|] == es;
  }

  ghost predicate Gone(es: seq<Event>, h: Handle) {
    exists k :: 0 <= k < |es| && IsLossOf(es[k], h)
  }

  lemma GonePush(es: seq<Event>, e: Event, h: Handle)
    ensures Gone(es + [e], h) <==> Gone(es, h) || IsLossOf(e, h)
  {
    var more := es + [e];
    if Gone(es, h) {
      var k :| 0 <= k < |es| && IsLossOf(es[k], h);
      assert IsLossOf(more[k], h);
    }
    if IsLossOf(e, h) {
      assert IsLossOf(more[|es|], h);
    }
  }

  // ---------------------------------------------------------------------
  // What the driver knows of the endpoint
  // ---------------------------------------------------------------------

  /** The dispatched events are the history without the queue. */
  ghost predicate Seen(p: Post) {
    Inv(p.w) && p.dispatched + p.w.ep.core.events == p.w.history
  }

  ghost predicate Moves(v: World, w: World) {
    && v.ep.core.events <= w.ep.core.events
    && w.history == v.history + w.ep.core.events[|v.ep.core.events|..]
  }

  lemma ServicedMoves(w: World, now: Instant, svc: Service)
    requires Handles(w)
    ensures Moves(w, Serviced(w, now, svc))
  {
    ServicedFinal(w.ep.core, now, svc, w.history, w.handed);
  }

  lemma FedStays(cfg: Config, w: World, i: Input, admitted: Option<nat>)
    requires i.Datagram?
    ensures var v := Fed(cfg, w, i, admitted); v.history == w.history && v.ep.core.events == w.ep.core.events
  {
    FeedConnections(cfg, w.ep.core, i.now, i.from, i.data, admitted, i.feed);
  }

  lemma PastGateStays(cfg: Config, w: World, i: Input)
    requires |w.ep.guards| == |cfg.clients| && i.Datagram?
    ensures var o := PastGate(cfg, w, i); o.history == w.history && o.ep.core.events == w.ep.core.events
  {
  }

  lemma DatagramMoves(cfg: Config, w: World, i: Input)
    requires |w.ep.guards| == |cfg.clients| && i.Datagram? && EnvOk(cfg, w, i) && Inv(w) && !Rejected(cfg, w.ep, i)
    ensures Moves(w, Step(cfg, w, i))
  {
    PastGateInv(cfg, w, i);
    PastGateStays(cfg, w, i);
    DatagramStep(cfg, w, i);
    FedMoves(cfg, PastGate(cfg, w, i), i, AdmittedClient(cfg, w, i));
  }

  lemma FedMoves(cfg: Config, w: World, i: Input, admitted: Option<nat>)
    requires i.Datagram? && Handles(w) && FeedOk(w, i, admitted)
    ensures Moves(w, Serviced(Fed(cfg, w, i, admitted), i.now, i.svc))
  {
    FedStays(cfg, w, i, admitted);
    FedHandles(cfg, w, i, admitted);
    ServicedMoves(Fed(cfg, w, i, admitted), i.now, i.svc);
  }

  lemma StepMoves(cfg: Config, w: World, i: Input)
    requires |w.ep.guards| == |cfg.clients| && EnvOk(cfg, w, i) && Inv(w) && !i.PollEvent?
    ensures Moves(w, Step(cfg, w, i))
  {
    match i {
      case Datagram(now, _, _, _, _, _, svc) =>
        if !Rejected(cfg, w.ep, i) { DatagramMoves(cfg, w, i); }
      case Timeout(now, svc) =>
        var t := WithCore(w, w.ep.core.(calls := w.ep.core.calls + [TimeoutCall(now)]));
        ServicedMoves(t, now, svc);
      case PollTransmit(now, svc) =>
        if w.ep.core.outbound == [] { ServicedMoves(w, now, svc); }
      case Work(h, op) =>
    }
  }

  /** A dead handle stays dead, whatever the endpoint does. */
  lemma StepKeepsDead(cfg: Config, w: World, i: Input, h: Handle)
    requires |w.ep.guards| == |cfg.clients| && Inv(w) && Inv(Step(cfg, w, i))
    requires h in w.handed && h !in w.ep.core.connections
    ensures h in Step(cfg, w, i).handed && h !in Step(cfg, w, i).ep.core.connections
  {
    var v := Step(cfg, w, i);
    StepExtends(cfg, w, i);
    var n: nat :| LostAt(w.history, h, n);
    var m :| 0 <= m < |w.handed| && w.handed[m] == h;
    assert v.handed[m] == h;
    LossStays(w.history, v.history, v.ep.core.connections.Keys, h, n);
  }

  /** What was dispatched names issued handles; the loss of a live connection was not dispatched. */
  lemma SeenFacts(p: Post, h: Handle)
    requires Seen(p)
    ensures Heard(p.dispatched, h) ==> h in p.w.handed
    ensures Gone(p.dispatched, h) ==> h !in p.w.ep.core.connections
    ensures p.w.ep.core.events != [] && p.w.ep.core.events[0].conn == h ==>
              h in p.w.handed && (p.w.ep.core.events[0].ConnectionLost? ==> h !in p.w.ep.core.connections)
  {
    var w := p.w;
    if Heard(p.dispatched, h) {
      FirstIsLeast(p.dispatched, h);
      assert w.history[First(p.dispatched, h)].conn == h;
    }
    if Gone(p.dispatched, h) {
      var k :| 0 <= k < |p.dispatched| && IsLossOf(p.dispatched[k], h);
      assert IsLossOf(w.history[k], h);
      LiveNotLost(w, h, k);
    }
    if w.ep.core.events != [] && w.ep.core.events[0].conn == h {
      assert w.history[|p.dispatched|] == w.ep.core.events[0];
      if w.ep.core.events[0].ConnectionLost? { LiveNotLost(w, h, |p.dispatched|); }
    }
  }

  lemma LiveNotLost(w: World, h: Handle, k: nat)
    requires Inv(w) && k < |w.history| && IsLossOf(w.history[k], h)
    ensures h !in w.ep.core.connections
  {
    assert w.history[k].conn in w.handed;
  }

  // ---------------------------------------------------------------------
  // Tables and lives
  // ---------------------------------------------------------------------

  ghost predicate SameKeys(d: Drive) {
    d.parked.Keys == d.surfaced && d.taken.Keys == d.surfaced
  }

  ghost predicate LifeOf(p: Post, h: Handle) {
    && (h in p.d.surfaced ==> Heard(p.dispatched, h) && !Gone(p.dispatched, h))
    && (Heard(p.dispatched, h) ==> h in p.d.surfaced || h !in p.w.ep.core.connections)
  }

  /** A surfaced connection was announced and not reported lost; an announced one is surfaced or dead. */
  ghost predicate Lives(p: Post) {
    forall h :: LifeOf(p, h)
  }

  lemma OnEventKeys(d: Drive, e: Event, found: Option<Found>, clientId: Option<string>, o: DrainOrder)
    requires SameKeys(d)
    ensures var f := DriverSpec.OnEvent(d, e, found, clientId, o);
            && SameKeys(f)
            && f.surfaced == (if e.Connected? && Surfaces(d, e.conn, found) then d.surfaced + {e.conn}
                              else if e.ConnectionLost? then d.surfaced - {e.conn} else d.surfaced)
            && f.pending == (if e.Connected? && Surfaces(d, e.conn, found) then d.pending + [Offer(e.conn, found.value.remote, clientId)]
                             else if e.ConnectionLost? then Retain(d.pending, e.conn) else d.pending)
  {
  }

  lemma OnCommandKeys(d: Drive, h: Handle, cmd: Cmd, found: Option<Found>)
    requires SameKeys(d)
    ensures var f := DriverSpec.OnCommand(d, h, cmd, found);
            SameKeys(f) && f.surfaced == d.surfaced && f.pending == d.pending
  {
  }

  lemma CoreStepSeen(cfg: Config, p: Post, i: Input)
    requires |p.w.ep.guards| == |cfg.clients| && ActOk(cfg, p, CoreStep(i)) && Seen(p)
    ensures Seen(Do(cfg, p, CoreStep(i)))
  {
    StepInv(cfg, p.w, i);
    StepMoves(cfg, p.w, i);
    QueueGrows(p.dispatched, p.w, Step(cfg, p.w, i));
  }

  lemma QueueGrows(dispatched: seq<Event>, v: World, w: World)
    requires Moves(v, w) && dispatched + v.ep.core.events == v.history
    ensures dispatched + w.ep.core.events == w.history
  {
    var a, b := v.ep.core.events, w.ep.core.events;
    Split(dispatched, a, b);
  }

  lemma Split(x: seq<Event>, a: seq<Event>, b: seq<Event>)
    requires a <= b
    ensures x + b == x + a + b[|a|..]
  {
    assert b == a + b[|a|..];
  }

  lemma CoreStepLives(cfg: Config, p: Post, i: Input)
    requires |p.w.ep.guards| == |cfg.clients| && ActOk(cfg, p, CoreStep(i)) && Seen(p) && Lives(p)
    ensures Lives(Do(cfg, p, CoreStep(i)))
  {
    StepInv(cfg, p.w, i);
    var q := Do(cfg, p, CoreStep(i));
    forall h ensures LifeOf(q, h) {
      assert LifeOf(p, h);
      if Heard(p.dispatched, h) && h !in p.w.ep.core.connections {
        SeenFacts(p, h);
        StepKeepsDead(cfg, p.w, i, h);
      }
    }
  }

  lemma DispatchSeen(cfg: Config, p: Post, core: CoreConn, remote: Addr, o: DrainOrder)
    requires |p.w.ep.guards| == |cfg.clients| && p.w.ep.core.events != [] && Seen(p)
    ensures Seen(DispatchOne(cfg, p, core, remote, o))
    ensures Step(cfg, p.w, PollEvent).ep.core.connections == p.w.ep.core.connections
  {
    StepInv(cfg, p.w, PollEvent);
    MoveOver(p.dispatched, p.w.ep.core.events);
  }

  lemma DispatchLife(p: Post, q: Post, e: Event, h: Handle, core: CoreConn, remote: Addr)
    requires LifeOf(p, h) && q.dispatched == p.dispatched + [e] && q.w.ep.core.connections == p.w.ep.core.connections
    requires Gone(p.dispatched, h) || IsLossOf(e, h) ==> h !in p.w.ep.core.connections
    requires var found := Look(p.w, e.conn, core, remote);
             q.d.surfaced == (if e.Connected? && Surfaces(p.d, e.conn, found) then p.d.surfaced + {e.conn}
                              else if e.ConnectionLost? then p.d.surfaced - {e.conn} else p.d.surfaced)
    ensures LifeOf(q, h)
  {
    FirstPush(p.dispatched, e, h);
    GonePush(p.dispatched, e, h);
  }

  lemma DispatchLives(cfg: Config, p: Post, core: CoreConn, remote: Addr, o: DrainOrder)
    requires |p.w.ep.guards| == |cfg.clients| && p.w.ep.core.events != [] && Seen(p) && Lives(p) && SameKeys(p.d)
    ensures Lives(DispatchOne(cfg, p, core, remote, o)) && SameKeys(DispatchOne(cfg, p, core, remote, o).d)
  {
    var q := DispatchOne(cfg, p, core, remote, o);
    var e := p.w.ep.core.events[0];
    DispatchSeen(cfg, p, core, remote, o);
    OnEventKeys(p.d, e, Look(p.w, e.conn, core, remote), NameOf(p.w, e.conn), o);
    forall h ensures LifeOf(q, h) {
      SeenFacts(p, h);
      DispatchLife(p, q, e, h, core, remote);
    }
  }

  // ---------------------------------------------------------------------
  // Offers
  // ---------------------------------------------------------------------

  /** The connections come in the order in which they were announced. */
  ghost predicate Ordered(os: seq<Offer>, es: seq<Event>) {
    && (forall i :: 0 <= i < |os| ==> Heard(es, os[i].conn))
    && (forall i, j :: 0 <= i < j < |os| ==> First(es, os[i].conn) < First(es, os[j].conn))
  }

  function OfferLine(p: Post): seq<Offer> {
    p.delivered + p.d.pending
  }

  ghost predicate Offers(p: Post) {
    && Ordered(p.offered, p.dispatched) && Ordered(OfferLine(p), p.dispatched)
    && (forall o :: o in p.d.pending ==> o.conn in p.d.surfaced)
    && (forall o :: o in OfferLine(p) ==> o in p.offered)
    && (forall o :: o in p.offered ==> o in OfferLine(p) || Gone(p.dispatched, o.conn))
    && (forall h :: h in p.d.surfaced ==> Has(p.offered, h))
  }

  ghost predicate Has(os: seq<Offer>, h: Handle) {
    exists i :: 0 <= i < |os| && os[i].conn == h
  }

  lemma OrderedLater(os: seq<Offer>, es: seq<Event>, e: Event)
    requires Ordered(os, es)
    ensures Ordered(os, es + [e])
  {
    forall i | 0 <= i < |os| ensures Heard(es + [e], os[i].conn) && First(es + [e], os[i].conn) == First(es, os[i].conn) {
      FirstPush(es, e, os[i].conn);
    }
  }

  lemma OrderedPush(os: seq<Offer>, es: seq<Event>, o: Offer)
    requires Ordered(os, es) && !Heard(es, o.conn)
    ensures Ordered(os + [o], es + [Connected(o.conn)])
  {
    OrderedLater(os, es, Connected(o.conn));
    FirstPush(es, Connected(o.conn), o.conn);
    forall i | 0 <= i < |os| ensures First(es + [Connected(o.conn)], os[i].conn) < |es| {
      FirstPush(es, Connected(o.conn), os[i].conn);
    }
  }

  lemma {:induction false} RetainIs(os: seq<Offer>, h: Handle)
    ensures forall o :: o in Retain(os, h) <==> o in os && o.conn != h
  {
    if os == [] {
    } else {
      var n := |os| - 1;
      RetainIs(os[..n], h);
      assert os == os[..n] + [os[n]];
    }
  }

  lemma {:induction false} RetainOrdered(a: seq<Offer>, b: seq<Offer>, es: seq<Event>, h: Handle)
    requires Ordered(a + b, es)
    ensures Ordered(a + Retain(b, h), es)
  {
    if b == [] {
      assert Retain(b, h) == b;
    } else {
      var n := |b| - 1;
      var kept := Retain(b[..n], h);
      assert a + b == a + b[..n] + [b[n]];
      assert forall i :: 0 <= i < |a + b[..n]| ==> (a + b)[i] == (a + b[..n])[i];
      RetainOrdered(a, b[..n], es, h);
      if b[n].conn != h {
        RetainIs(b[..n], h);
        forall i | 0 <= i < |a + kept| ensures First(es, (a + kept)[i].conn) < First(es, b[n].conn) {
          assert (a + kept)[i] in a + b[..n];
          var j :| 0 <= j < |a + b[..n]| && (a + b[..n])[j] == (a + kept)[i];
          assert (a + b)[j] == (a + b[..n])[j] && (a + b)[|a| + n] == b[n];
        }
        assert (a + b)[|a| + n] == b[n];
        assert a + Retain(b, h) == a + kept + [b[n]];
      } else {
        assert Retain(b, h) == kept + [] == kept;
      }
    }
  }

  lemma LaterOffers(p: Post, q: Post, e: Event)
    requires Offers(p) && q.d.surfaced == p.d.surfaced && q.d.pending == p.d.pending
    requires q.offered == p.offered && q.delivered == p.delivered && q.dispatched == p.dispatched + [e]
    ensures Offers(q)
  {
    OrderedLater(p.offered, p.dispatched, e);
    OrderedLater(OfferLine(p), p.dispatched, e);
    forall o | o in p.offered ensures o in OfferLine(q) || Gone(q.dispatched, o.conn) {
      GonePush(p.dispatched, e, o.conn);
    }
  }

  lemma LostOffers(p: Post, q: Post, e: Event)
    requires Offers(p) && e.ConnectionLost? && q.d.surfaced == p.d.surfaced - {e.conn} && q.d.pending == Retain(p.d.pending, e.conn)
    requires q.offered == p.offered && q.delivered == p.delivered && q.dispatched == p.dispatched + [e]
    ensures Offers(q)
  {
    OrderedLater(p.offered, p.dispatched, e);
    RetainOrdered(p.delivered, p.d.pending, p.dispatched, e.conn);
    OrderedLater(OfferLine(q), p.dispatched, e);
    RetainIs(p.d.pending, e.conn);
    forall o | o in p.offered ensures o in OfferLine(q) || Gone(q.dispatched, o.conn) {
      GonePush(p.dispatched, e, o.conn);
    }
  }

  lemma NewOffer(p: Post, q: Post, o: Offer)
    requires Offers(p) && !Heard(p.dispatched, o.conn)
    requires q.d.surfaced == p.d.surfaced + {o.conn} && q.d.pending == p.d.pending + [o]
    requires q.offered == p.offered + [o] && q.delivered == p.delivered && q.dispatched == p.dispatched + [Connected(o.conn)]
    ensures Offers(q)
  {
    OrderedPush(p.offered, p.dispatched, o);
    OrderedPush(OfferLine(p), p.dispatched, o);
    assert OfferLine(q) == OfferLine(p) + [o];
    forall x | x in q.offered ensures x in OfferLine(q) || Gone(q.dispatched, x.conn) {
      GonePush(p.dispatched, Connected(o.conn), x.conn);
    }
    forall h | h in q.d.surfaced ensures Has(q.offered, h) {
      if h == o.conn {
        assert q.offered[|p.offered|].conn == h;
      } else {
        var i :| 0 <= i < |p.offered| && p.offered[i].conn == h;
        assert q.offered[i].conn == h;
      }
    }
  }

  lemma DispatchOffers(cfg: Config, p: Post, core: CoreConn, remote: Addr, o: DrainOrder)
    requires |p.w.ep.guards| == |cfg.clients| && p.w.ep.core.events != [] && Seen(p) && Lives(p) && SameKeys(p.d) && Offers(p)
    ensures Offers(DispatchOne(cfg, p, core, remote, o))
  {
    var q := DispatchOne(cfg, p, core, remote, o);
    var e := p.w.ep.core.events[0];
    var found := Look(p.w, e.conn, core, remote);
    OnEventKeys(p.d, e, found, NameOf(p.w, e.conn), o);
    if e.Connected? && Surfaces(p.d, e.conn, found) {
      assert LifeOf(p, e.conn);
      NewOffer(p, q, Offer(e.conn, remote, NameOf(p.w, e.conn)));
    } else if e.ConnectionLost? {
      assert q.offered == p.offered;
      LostOffers(p, q, e);
    } else {
      assert q.offered == p.offered;
      LaterOffers(p, q, e);
    }
  }

  lemma DeliverOffers(cfg: Config, p: Post)
    requires |p.w.ep.guards| == |cfg.clients| && Offers(p)
    ensures Offers(Do(cfg, p, Deliver)) && OfferLine(Do(cfg, p, Deliver)) == OfferLine(p)
  {
    var q := Do(cfg, p, Deliver);
    if p.d.pending != [] {
      MoveOver(p.delivered, p.d.pending);
      SameLine(p, q);
    }
  }

  lemma MoveOver<T>(a: seq<T>, b: seq<T>)
    requires b != []
    ensures a + [b[0]] + b[1..] == a + b
  {
  }

  lemma SameLine(p: Post, q: Post)
    requires Offers(p) && OfferLine(q) == OfferLine(p) && q.offered == p.offered && q.dispatched == p.dispatched
    requires q.d.surfaced == p.d.surfaced && (forall o :: o in q.d.pending ==> o in p.d.pending)
    ensures Offers(q)
  {
  }

  // ---------------------------------------------------------------------
  // All of it, over every run
  // ---------------------------------------------------------------------

  ghost predicate PostInv(p: Post) {
    Seen(p) && SameKeys(p.d) && Lives(p) && Offers(p)
  }

  lemma DoKeeps(cfg: Config, p: Post, a: Act)
    requires |p.w.ep.guards| == |cfg.clients| && ActOk(cfg, p, a) && PostInv(p)
    ensures PostInv(Do(cfg, p, a))
  {
    match a {
      case CoreStep(i) =>
        CoreStepSeen(cfg, p, i);
        CoreStepLives(cfg, p, i);
      case Dispatch(core, remote, o) =>
        if p.w.ep.core.events != [] {
          DispatchSeen(cfg, p, core, remote, o);
          DispatchLives(cfg, p, core, remote, o);
          DispatchOffers(cfg, p, core, remote, o);
        }
      case Command(h, cmd, core, remote) =>
        OnCommandKeys(p.d, h, cmd, Look(p.w, h, core, remote));
        assert forall g :: LifeOf(p, g) ==> LifeOf(Do(cfg, p, a), g);
      case Deliver =>
        DeliverOffers(cfg, p);
        assert forall g :: LifeOf(p, g) ==> LifeOf(Do(cfg, p, a), g);
    }
  }

  lemma StartKeeps(cfg: Config)
    ensures PostInv(NewPost(cfg))
  {
    ServerStarts(cfg);
  }

  lemma {:induction false} RunKeeps(cfg: Config, ps: seq<Post>, acts: seq<Act>, k: nat)
    requires IsDriven(cfg, ps, acts) && k < |ps|
    ensures PostInv(ps[k])
  {
    if k == 0 {
      StartKeeps(cfg);
    } else {
      RunKeeps(cfg, ps, acts, k - 1);
      assert ActAt(cfg, ps, acts, k - 1);
      DoKeeps(cfg, ps[k - 1], acts[k - 1]);
    }
  }

  /** In every run: no connection is offered twice, offers and deliveries come in the order of the first
      `Connected` of each connection, an offer is withdrawn only by a dispatched loss, and what is next to be
      delivered was not reported lost. */
  lemma AcceptDelivery(cfg: Config, ps: seq<Post>, acts: seq<Act>, k: nat)
    requires IsDriven(cfg, ps, acts) && k < |ps|
    ensures var p := ps[k];
            && p.d.parked.Keys == p.d.surfaced
            && (forall i, j :: 0 <= i < j < |p.offered| ==> p.offered[i].conn != p.offered[j].conn)
            && Ordered(p.offered, p.dispatched) && Ordered(OfferLine(p), p.dispatched)
            && (forall o :: o in p.offered ==> o in OfferLine(p) || Gone(p.dispatched, o.conn))
            && (forall o :: o in p.d.pending ==> !Gone(p.dispatched, o.conn))
  {
    RunKeeps(cfg, ps, acts, k);
    var p := ps[k];
    forall o | o in p.d.pending ensures !Gone(p.dispatched, o.conn) {
      assert LifeOf(p, o.conn);
    }
  }
}
