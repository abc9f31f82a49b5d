/** The endpoint as the program keeps it: an object whose maps, queues and ID sets are changed in place.
    Every method is proved to take the step that `EndpointSpec` describes. */
module Endpoint {
  import opened Base
  import opened ByteCodec
  import opened Admission
  import opened Replay
  import opened RateLimitSpec
  import opened RateLimit
  import opened ConnSpec
  import opened EndpointSpec

  /** Append one event per stream. */
  method PushAll(es: seq<Event>, h: Handle, ids: seq<StreamId>, mk: (Handle, StreamId) -> Event) returns (r: seq<Event>)
    ensures r == es + StreamEvents(h, ids, mk)
  {
    r := es;
    for k := 0 to |ids|
      invariant r == es + StreamEvents(h, ids, mk)[..k]
    {
      r := r + [mk(h, ids[k])];
    }
  }

  /** The events that one connection's progress raises, in the order in which they are queued. */
  method EventsFor(h: Handle, p: Progress) returns (es: seq<Event>)
    ensures es == ProgressEvents(h, p)
  {
    es := [];
    if p.connected {
      es := es + [Connected(h)];
    }
    es := PushAll(es, h, p.arrived, (c: Handle, id: StreamId) => StreamOpened(c, id));
    es := PushAll(es, h, p.readable, (c: Handle, id: StreamId) => StreamReadable(c, id));
    es := PushAll(es, h, p.writable, (c: Handle, id: StreamId) => StreamWritable(c, id));
    es := PushAll(es, h, p.finAcked, (c: Handle, id: StreamId) => StreamFinAcked(c, id));
    ghost var before := es;
    for k := 0 to |p.stopped|
      invariant es == before + seq(k, i requires 0 <= i < k => StreamStopped(h, p.stopped[i].0, p.stopped[i].1))
    {
      es := es + [StreamStopped(h, p.stopped[k].0, p.stopped[k].1)];
    }
  }

  /** Collect datagrams until the connection has none, or yields an empty one. */
  method DrainDatagrams(ts: seq<Transmit>) returns (r: seq<Transmit>)
    ensures r == Nonempty(ts)
  {
    r := [];
    var k := 0;
    while k < |ts|
      invariant 0 <= k <= |ts|
      invariant Nonempty(ts) == r + Nonempty(ts[k..])
    {
      if ts[k].contents == [] {
        return;
      }
      r := r + [ts[k]];
      k := k + 1;
    }
  }

  class Endpoint {
    const role: Role
    const cfg: Config
    const replay: seq<ReplayGuard>
    const rateLimiter: RateLimiter
    var issuedCids: set<Cid>
    var pendingCids: seq<Cid>
    var cidsByConn: map<Handle, seq<Cid>>
    var connections: map<Handle, Book>
    var clientIds: map<Handle, string>
    var byQuinn: map<nat, Handle>
    var nextGeneration: nat
    var outbound: seq<Transmit>
    var events: seq<Event>
    var nextTimeout: Option<Instant>
    var lastService: Option<Instant>
    var installed: Option<nat>
    ghost var calls: seq<QuinnCall>

    ghost function View(): Core
      reads this
    {
      Core(role, issuedCids, pendingCids, cidsByConn, connections, clientIds, byQuinn, nextGeneration,
           outbound, events, nextTimeout, lastService, installed, calls)
    }

    ghost function Guards(): seq<Seen>
      reads replay
    {
      seq(|replay|, i requires 0 <= i < |replay| reads replay => replay[i].seen)
    }

    /** One guard per client, each its own object. */
    ghost predicate Valid()
      reads rateLimiter
    {
      && |replay| == |cfg.clients|
      && NoDup(replay)
      && (forall i :: 0 <= i < |replay| ==> replay[i].window == WINDOW_MINUTES)
      && rateLimiter.Valid()
    }

    // -- the connection-ID ledger -----------------------------------------

    /** The recorder: a freshly generated ID routes at once and waits to be attributed. */
    method GenerateCid(cid: Cid)
      modifies this`issuedCids, this`pendingCids
      ensures View() == Mint(old(View()), [cid])
    {
      issuedCids := issuedCids + {cid};
      pendingCids := pendingCids + [cid];
    }

    /** The library generates `cids`, one after the other. */
    method GenerateAll(cids: seq<Cid>)
      modifies this`issuedCids, this`pendingCids
      ensures View() == Mint(old(View()), cids)
    {
      ghost var before := View();
      for k := 0 to |cids|
        invariant View() == Mint(before, cids[..k])
      {
        GenerateCid(cids[k]);
        assert cids[..k + 1] == cids[..k] + [cids[k]];
        assert Elems(cids[..k + 1]) == Elems(cids[..k]) + {cids[k]};
      }
      assert cids[..|cids|] == cids;
    }

    method DrainPendingCids(h: Handle)
      modifies this`pendingCids, this`cidsByConn
      ensures View() == DrainPending(old(View()), h)
    {
      if pendingCids == [] {
        return;
      }
      var drained := pendingCids;
      pendingCids := [];
      var list := if h in cidsByConn then cidsByConn[h] else [];
      cidsByConn := cidsByConn[h := list + drained];
    }

    /** Take `cids` out of the routing set, one by one. */
    method Unroute(cids: seq<Cid>)
      modifies this`issuedCids
      ensures issuedCids == old(issuedCids) - Elems(cids)
    {
      for k := 0 to |cids|
        invariant issuedCids == old(issuedCids) - Elems(cids[..k])
      {
        issuedCids := issuedCids - {cids[k]};
        assert cids[..k + 1] == cids[..k] + [cids[k]];
      }
      assert cids[..|cids|] == cids;
    }

    method SweepOrphanCids()
      modifies this`issuedCids, this`pendingCids
      ensures View() == SweepOrphans(old(View()))
    {
      var orphans := pendingCids;
      pendingCids := [];
      Unroute(orphans);
    }

    method PruneConnectionCids(h: Handle)
      modifies this`issuedCids, this`cidsByConn
      ensures View() == PruneCids(old(View()), h)
    {
      if h in cidsByConn {
        var cids := cidsByConn[h];
        cidsByConn := cidsByConn - {h};
        Unroute(cids);
      }
    }

    // -- admission --------------------------------------------------------

    method Allocate(quinn: nat) returns (h: Handle)
      modifies this`nextGeneration, this`byQuinn
      ensures View() == AllocateHandle(old(View()), quinn).0 && h == AllocateHandle(old(View()), quinn).1
    {
      var generation := nextGeneration;
      nextGeneration := nextGeneration + 1;
      h := Handle(quinn, generation);
      byQuinn := byQuinn[quinn := h];
    }

    method RegisterAccepted(quinn: nat, remote: Addr, buf: Bytes, clientId: string) returns (h: Handle)
      modifies this
      ensures h == AllocateHandle(old(View()), quinn).1
      ensures View() == Register(DrainPending(Queue(AllocateHandle(old(View()), quinn).0, remote, buf), h), h, clientId)
    {
      h := Allocate(quinn);
      if buf != [] {
        outbound := outbound + [Transmit(remote, buf)];
      }
      DrainPendingCids(h);
      connections := connections[h := EMPTY_BOOK];
      clientIds := clientIds[h := clientId];
    }

    method AdmitIncoming(now: Instant, a: AcceptAnswer, clientId: string) returns (outcome: DatagramOutcome)
      modifies this
      ensures View() == Admit(old(View()), now, a, clientId).0 && outcome == Admit(old(View()), now, a, clientId).1
    {
      calls := calls + [AcceptCall(now)];
      GenerateAll(a.minted);
      match a {
        case AcceptOk(quinn, _, remote, buf) =>
          var h := RegisterAccepted(quinn, remote, buf, clientId);
          outcome := Accepted(h);
        case AcceptFailed(_) =>
          outcome := Dropped;
      }
    }

    method HandDatagram(now: Instant, from: Addr, data: Bytes, ans: FeedAnswer)
      modifies this
      ensures View() == Handled(old(View()), now, from, data, ans)
    {
      calls := calls + [HandleCall(now, from, data, installed)];
      GenerateAll(ans.minted);
      if ans.response != [] && role == Server {
        outbound := outbound + [Transmit(from, ans.response)];
      }
    }

    method FeedDatagram(now: Instant, from: Addr, data: Bytes, admitted: Option<nat>, ans: FeedAnswer) returns (outcome: DatagramOutcome)
      modifies this
      ensures View() == Feed(cfg, old(View()), now, from, data, admitted, ans).0
      ensures outcome == Feed(cfg, old(View()), now, from, data, admitted, ans).1
    {
      HandDatagram(now, from, data, ans);
      match ans.event {
        case NewConnection(accept) =>
          match role {
            case Server =>
              match admitted {
                case None => return Dropped;
                case Some(i) => outcome := AdmitIncoming(now, accept, ClientIdOf(cfg, i));
              }
            case Client =>
              outcome := Dropped;
          }
        case ConnectionEvent(quinn) =>
          outcome := if quinn in byQuinn then Accepted(byQuinn[quinn]) else Dropped;
        case Response =>
          outcome := Dropped;
        case NoEvent =>
          outcome := Dropped;
      }
      SweepOrphanCids();
    }

    // -- servicing --------------------------------------------------------

    method RouteConnection(h: Handle, evs: seq<EndpointEvent>)
      modifies this`issuedCids, this`pendingCids, this`cidsByConn
      ensures View() == RouteEvents(old(View()), h, evs, |evs|)
    {
      for j := 0 to |evs|
        invariant View() == RouteEvents(old(View()), h, evs, j)
      {
        GenerateAll(evs[j].minted);
        DrainPendingCids(h);
      }
    }

    method RouteAll(svc: Service)
      modifies this`issuedCids, this`pendingCids, this`cidsByConn
      ensures View() == Route(old(View()), svc, |svc.order|)
    {
      for k := 0 to |svc.order|
        invariant View() == Route(old(View()), svc, k)
      {
        RouteConnection(svc.order[k], svc.answer(svc.order[k]).endpointEvents);
      }
    }

    /** Service one connection's streams and collect what it has to send; its work is then flushed. */
    method PollConnection(h: Handle, a: ConnAnswer, ghost s: Stage) returns (es: seq<Event>, ts: seq<Transmit>, lost: seq<Loss>)
      requires s.connections == connections
      modifies this`connections
      ensures PollOne(s, h, a) == Stage(connections, s.events + es, s.transmits + ts, s.lost + lost)
    {
      es, ts, lost := [], [], [];
      if h in connections {
        var (book, progress) := ServiceStreams(connections[h], a.polled);
        es := EventsFor(h, progress);
        if progress.lost.Some? {
          lost := [Loss(h, progress.lost.value)];
        } else if a.isDrained {
          lost := [Loss(h, LocallyClosed)];
        }
        ts := DrainDatagrams(a.datagrams);
        connections := connections[h := book.(dirty := false)];
      }
    }

    method PollAll(svc: Service) returns (es: seq<Event>, ts: seq<Transmit>, lost: seq<Loss>)
      modifies this`connections
      ensures Stage(connections, es, ts, lost) == Poll(old(connections), svc, |svc.order|)
    {
      es, ts, lost := [], [], [];
      for k := 0 to |svc.order|
        invariant Stage(connections, es, ts, lost) == Poll(old(connections), svc, k)
      {
        var e, t, l := PollConnection(svc.order[k], svc.answer(svc.order[k]), Stage(connections, es, ts, lost));
        es, ts, lost := es + e, ts + t, lost + l;
      }
    }

    /** Queue what the poll yields, events before losses. */
    method PollAndQueue(svc: Service) returns (lost: seq<Loss>)
      modifies this`connections, this`events, this`outbound
      ensures View() == Staged(old(View()), Poll(old(connections), svc, |svc.order|))
      ensures lost == Poll(old(connections), svc, |svc.order|).lost
    {
      var es, ts;
      es, ts, lost := PollAll(svc);
      events := events + es;
      outbound := outbound + ts;
    }

    method ReapConnection(l: Loss)
      modifies this
      ensures View() == Reap(old(View()), l)
    {
      if l.conn in connections {
        connections := connections - {l.conn};
        byQuinn := byQuinn - {l.conn.quinn};
        clientIds := clientIds - {l.conn};
        PruneConnectionCids(l.conn);
        events := events + [ConnectionLost(l.conn, l.reason)];
      }
    }

    method ReapLost(lost: seq<Loss>)
      modifies this
      ensures View() == ReapAll(old(View()), lost, |lost|)
    {
      for k := 0 to |lost|
        invariant View() == ReapAll(old(View()), lost, k)
      {
        ReapConnection(lost[k]);
      }
    }

    method RefreshNextTimeout(svc: Service)
      modifies this`nextTimeout
      ensures nextTimeout == Earliest(connections.Keys, svc, |svc.order|)
    {
      nextTimeout := None;
      for k := 0 to |svc.order|
        invariant nextTimeout == Earliest(connections.Keys, svc, k)
      {
        if svc.order[k] in connections {
          nextTimeout := Earlier(nextTimeout, svc.answer(svc.order[k]).deadline);
        }
      }
    }

    method ServiceConnections(now: Instant, svc: Service)
      modifies this
      ensures View() == ServiceAll(old(View()), now, svc)
    {
      lastService := Some(now);
      calls := calls + [ServiceCall(now)];
      RouteAll(svc);
      var lost := PollAndQueue(svc);
      ReapLost(lost);
      SweepOrphanCids();
      RefreshNextTimeout(svc);
    }

    // -- the public calls -------------------------------------------------

    /** The full pre-filter. */
    method RunPrefilter(data: Bytes, minute: U32) returns (client: Option<nat>)
      requires Valid()
      modifies replay
      ensures Valid()
      ensures Guards() == Prefilter(cfg.hash, cfg.clients, old(Guards()), data, minute).0
      ensures client == Prefilter(cfg.hash, cfg.clients, old(Guards()), data, minute).1
    {
      var dcid := PeekDcid(data);
      if dcid == None {
        return None;
      }
      if |dcid.value| != DCID_LEN {
        return None;
      }
      var p := ParseDcid(dcid.value).value;
      if !IsFresh(p.freshness, minute, WINDOW_MINUTES) {
        return None;
      }
      var i := SelectPsk(cfg.hash, cfg.clients, p);
      if i == None {
        return None;
      }
      var isNew := replay[i.value].CheckAndRecord(p.nonce, p.freshness, minute);
      assert Guards() == Prefilter(cfg.hash, cfg.clients, old(Guards()), data, minute).0;
      if !isNew {
        return None;
      }
      return i;
    }

    /** Hand an admitted datagram on, then turn what it unblocked into transmits and events. */
    method FeedThenService(now: Instant, from: Addr, data: Bytes, admitted: Option<nat>, feed: FeedAnswer, svc: Service, ghost i: Input)
      returns (outcome: DatagramOutcome)
      requires i.Datagram? && i == Datagram(now, from, data, i.minute, i.allowed, feed, svc)
      modifies this
      ensures View() == FeedAndService(cfg, old(View()), i, admitted).0
      ensures outcome == FeedAndService(cfg, old(View()), i, admitted).1
    {
      outcome := FeedDatagram(now, from, data, admitted, feed);
      ServiceConnections(now, svc);
    }

    /** A datagram that no live connection owns and the rate limiter let by: past the pre-filter, or
        dropped in silence. */
    method ReceiveAllowed(now: Instant, from: Addr, data: Bytes, minute: U32, feed: FeedAnswer, svc: Service)
      returns (outcome: DatagramOutcome)
      requires Valid() && role == Server && !IsActiveDcid(View(), data)
      modifies this, replay
      ensures Valid()
      ensures var i := Datagram(now, from, data, minute, true, feed, svc);
              var e := Ep(old(View()), old(Guards()));
              Ep(View(), Guards()) == HandleDatagram(cfg, e, i).0 && outcome == HandleDatagram(cfg, e, i).1
    {
      var client := RunPrefilter(data, minute);
      if client == None {
        return Dropped;
      }
      installed := client;
      outcome := FeedThenService(now, from, data, client, feed, svc, Datagram(now, from, data, minute, true, feed, svc));
    }

    /** Feed one inbound datagram. `minute` is the wall clock; `allowed` is what the rate limiter said, if
        it was asked. */
    method ReceiveDatagram(now: Instant, from: Addr, data: Bytes, minute: U32, feed: FeedAnswer, svc: Service)
      returns (outcome: DatagramOutcome, ghost allowed: bool)
      requires Valid()
      modifies this, replay, rateLimiter
      ensures Valid()
      ensures var i := Datagram(now, from, data, minute, allowed, feed, svc);
              var e := Ep(old(View()), old(Guards()));
              Ep(View(), Guards()) == HandleDatagram(cfg, e, i).0 && outcome == HandleDatagram(cfg, e, i).1
      ensures old(role == Server && !IsActiveDcid(View(), data)) ==>
                && allowed == CheckStep(old(rateLimiter.View()), from.ip, now).1
                && rateLimiter.View() == CheckStep(old(rateLimiter.View()), from.ip, now).0
      ensures !old(role == Server && !IsActiveDcid(View(), data)) ==> rateLimiter.View() == old(rateLimiter.View())
    {
      var dcid := ReadDcidAny(data);
      var active := dcid.Some? && dcid.value in issuedCids;
      if role == Server && !active {
        var ok := rateLimiter.Check(from.ip, now);
        allowed := ok;
        if !ok {
          return Dropped, allowed;
        }
        outcome := ReceiveAllowed(now, from, data, minute, feed, svc);
      } else {
        allowed := true;
        outcome := FeedThenService(now, from, data, None, feed, svc, Datagram(now, from, data, minute, true, feed, svc));
      }
    }

    method TakeTransmit(now: Instant, svc: Service) returns (t: Option<Transmit>)
      modifies this
      ensures View() == DoPollTransmit(old(View()), now, svc).0 && t == DoPollTransmit(old(View()), now, svc).1
    {
      if outbound == [] {
        ServiceConnections(now, svc);
      }
      if outbound == [] {
        return None;
      }
      t := Some(outbound[0]);
      outbound := outbound[1..];
    }

    method TakeEvent() returns (e: Option<Event>)
      modifies this`events
      ensures View() == DoPollEvent(old(View())).0 && e == DoPollEvent(old(View())).1
    {
      if events == [] {
        return None;
      }
      e := Some(events[0]);
      events := events[1..];
    }

    method HandleTimeout(now: Instant, svc: Service)
      modifies this
      ensures View() == DoTimeout(old(View()), now, svc)
    {
      calls := calls + [TimeoutCall(now)];
      ServiceConnections(now, svc);
    }

    /** Stream work of the caller on a live connection; a dead handle reaches nothing. */
    method DoStreamWork(h: Handle, op: ConnOp) returns (found: bool)
      modifies this`connections, this`calls
      ensures View() == DoWork(old(View()), h, op)
      ensures found <==> h in old(connections)
    {
      found := h in connections;
      if found {
        connections := connections[h := ApplyOp(connections[h], op)];
        calls := calls + [WorkCall(h, op)];
      }
    }

    /** The instant to sleep until. */
    method Deadline() returns (t: Option<Instant>)
      ensures t == NextTimeout(View())
    {
      if exists h :: h in connections && connections[h].dirty {
        return if lastService.Some? then lastService else nextTimeout;
      }
      return nextTimeout;
    }

    constructor ForServer(cfg: Config, guards: seq<ReplayGuard>, limiter: RateLimiter)
      requires |guards| == |cfg.clients| && NoDup(guards) && limiter.Valid()
      requires forall i :: 0 <= i < |guards| ==> guards[i].window == WINDOW_MINUTES && guards[i].seen == {}
      ensures Valid() && this.cfg == cfg && Ep(View(), Guards()) == NewServer(cfg)
    {
      role, this.cfg, replay, rateLimiter := Server, cfg, guards, limiter;
      issuedCids, pendingCids, cidsByConn, connections := {}, [], map[], map[];
      clientIds, byQuinn, nextGeneration := map[], map[], 1;
      outbound, events, nextTimeout, lastService, installed, calls := [], [], None, None, None, [];
    }

    method RegisterDialled(a: ConnectAnswer) returns (h: Handle)
      modifies this
      ensures h == AllocateHandle(Mint(old(View()), a.minted), a.quinn).1
      ensures var d := DrainPending(AllocateHandle(Mint(old(View()), a.minted), a.quinn).0, h);
              View() == d.(connections := d.connections[h := EMPTY_BOOK], nextTimeout := a.deadline)
    {
      GenerateAll(a.minted);
      h := Allocate(a.quinn);
      DrainPendingCids(h);
      connections := connections[h := EMPTY_BOOK];
      nextTimeout := a.deadline;
    }

    /** Register the connection that dialling `dcid` yielded. */
    method Dial(now: Instant, dcid: Bytes, a: ConnectAnswer) returns (h: Handle)
      requires View() == EMPTY_CLIENT
      modifies this
      ensures View() == NewClient(now, dcid, a).0.core && h == NewClient(now, dcid, a).1
    {
      lastService := Some(now);
      calls := calls + [ConnectCall(now, dcid)];
      assert calls == [ConnectCall(now, dcid)];
      h := RegisterDialled(a);
    }

    constructor ForClient(hash: KeyedHash, limiter: RateLimiter)
      requires limiter.Valid()
      ensures Valid() && this.cfg == Config(hash, []) && Guards() == [] && replay == []
      ensures View() == EMPTY_CLIENT
    {
      role, cfg, replay, rateLimiter := Client, Config(hash, []), [], limiter;
      issuedCids, pendingCids, cidsByConn, connections := {}, [], map[], map[];
      clientIds, byQuinn, nextGeneration := map[], map[], 1;
      outbound, events, nextTimeout, lastService, installed, calls := [], [], None, None, None, [];
    }
  }

  /** A limiter with the documented defaults. */
  method DefaultLimiter() returns (l: RateLimiter)
    ensures fresh(l) && l.Valid() && l.View() == EmptyLimiter(2048.0, 512.0, 32.0, 8.0, 4096)
  {
    l := new RateLimiter(2048.0, 512.0, 32.0, 8.0, 4096);
  }

  /** A server starts exactly when its clients can be told apart, with an empty guard for each. */
  method StartServer(hash: KeyedHash, entries: seq<ClientEntry>) returns (r: Result<Endpoint, ConfigError>)
    ensures r.Ok? <==> Unambiguous(entries)
    ensures r.Ok? ==> && fresh(r.value) && r.value.Valid() && r.value.cfg == Config(hash, entries)
                      && Ep(r.value.View(), r.value.Guards()) == NewServer(Config(hash, entries))
  {
    var clients := BuildClients(entries);
    if clients.Err? {
      return Err(clients.error);
    }
    var guards: seq<ReplayGuard> := [];
    for k := 0 to |entries|
      invariant |guards| == k && NoDup(guards)
      invariant forall i :: 0 <= i < k ==> fresh(guards[i]) && guards[i].window == WINDOW_MINUTES && guards[i].seen == {}
    {
      var guard := new ReplayGuard(WINDOW_MINUTES);
      guards := guards + [guard];
    }
    var limiter := DefaultLimiter();
    var e := new Endpoint.ForServer(Config(hash, clients.value), guards, limiter);
    r := Ok(e);
  }

  /** Dial: the first flight goes to the ID built from the key, a nonce and the minute. */
  method StartClient(now: Instant, hash: KeyedHash, psk: Bytes, nonce: Bytes, minute: U32, a: ConnectAnswer)
    returns (e: Endpoint, h: Handle)
    requires |nonce| == 8
    ensures fresh(e) && e.Valid()
    ensures Ep(e.View(), e.Guards()) == NewClient(now, Assemble(DialParts(hash, psk, nonce, minute)), a).0
    ensures h == NewClient(now, Assemble(DialParts(hash, psk, nonce, minute)), a).1
  {
    var dcid := BuildDcid(hash, psk, nonce, minute);
    var limiter := DefaultLimiter();
    e := new Endpoint.ForClient(hash, limiter);
    h := e.Dial(now, dcid[..], a);
  }
}
