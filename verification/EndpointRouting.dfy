/** Where a datagram goes: past the pre-filter or not, to the library under which configuration, to which live
    connection; and what is sent in answer. */
module EndpointRouting {
  import opened Base
  import opened ByteCodec
  import opened Admission
  import opened Replay
  import opened ConnSpec
  import opened EndpointSpec
  import opened EndpointLedger
  import opened EndpointWorld
  import opened EndpointHandles
  import opened EndpointTime

  // ---------------------------------------------------------------------
  // Routing by connection ID
  // ---------------------------------------------------------------------

  /** A live connection lists `cid`. */
  ghost predicate Listed(c: Core, cid: Cid) {
    exists h :: h in c.connections && h in c.cidsByConn && cid in c.cidsByConn[h]
  }

  lemma IssuedIsListed(c: Core, cid: Cid)
    requires Settled(c)
    ensures cid in c.issued <==> Listed(c, cid)
  {
    if cid in c.issued {
      var h :| Owns(c.cidsByConn, h, cid);
      assert h in c.connections.Keys;
    }
    if Listed(c, cid) {
      var h :| h in c.connections && h in c.cidsByConn && cid in c.cidsByConn[h];
      assert Owns(c.cidsByConn, h, cid);
    }
  }

  /** A short-header datagram of any length from nine bytes on is routed by the eight bytes behind its first. */
  lemma ShortHeaderRoutes(c: Core, first: Byte, cid: Bytes, rest: Bytes)
    requires Settled(c) && first < 0x80 && |cid| == 8
    ensures IsActiveDcid(c, [first] + cid + rest) <==> Listed(c, cid)
  {
    var data := [first] + cid + rest;
    assert data[1..9] == cid;
    IssuedIsListed(c, cid);
  }

  /** A long-header datagram is routed by the ID that its length byte delimits. */
  lemma LongHeaderRoutes(c: Core, data: Bytes, cid: Bytes)
    requires Settled(c) && LongHeader(data, cid)
    ensures IsActiveDcid(c, data) <==> Listed(c, cid)
  {
    PeekIsLongHeader(data, cid);
    assert data[0] >= 0x80;
    IssuedIsListed(c, cid);
  }

  /** Nothing else is routed: not an empty datagram, a shorter one with a short header, or a long header with no ID
      within. */
  lemma OnlyTheseRoute(c: Core, data: Bytes)
    requires IsActiveDcid(c, data)
    ensures data != [] && if data[0] < 0x80 then |data| >= 9 else exists cid :: LongHeader(data, cid)
  {
    if data[0] >= 0x80 {
      var cid := PeekDcid(data).value;
      PeekIsLongHeader(data, cid);
    }
  }

  /** A datagram of a live connection. */
  ghost predicate BelongsToLive(c: Core, data: Bytes) {
    || (exists first: Byte, cid: Bytes, rest: Bytes ::
          first < 0x80 && |cid| == 8 && data == [first] + cid + rest && Listed(c, cid))
    || (exists cid :: LongHeader(data, cid) && Listed(c, cid))
  }

  /** It is never rejected, whatever the limiter, the guards and the clock say, and leaves the guards alone. */
  lemma LiveIsNeverRejected(cfg: Config, e: Ep, i: Input)
    requires i.Datagram? && |e.guards| == |cfg.clients| && Settled(e.core) && BelongsToLive(e.core, i.data)
    ensures !Rejected(cfg, e, i) && HandleDatagram(cfg, e, i).0.guards == e.guards
    ensures HandleDatagram(cfg, e, i).0.core.calls ==
            e.core.calls + [HandleCall(i.now, i.from, i.data, e.core.installed), ServiceCall(i.now)]
  {
    LiveIsActive(e.core, i.data);
    CallsMade(cfg, e, i);
    assert [HandleCall(i.now, i.from, i.data, e.core.installed)] + [] + [ServiceCall(i.now)] ==
           [HandleCall(i.now, i.from, i.data, e.core.installed), ServiceCall(i.now)];
  }

  lemma LiveIsActive(c: Core, data: Bytes)
    requires Settled(c) && BelongsToLive(c, data)
    ensures IsActiveDcid(c, data)
  {
    if first: Byte, cid: Bytes, rest: Bytes :|
         first < 0x80 && |cid| == 8 && data == [first] + cid + rest && Listed(c, cid) {
      ShortHeaderRoutes(c, first, cid, rest);
    } else {
      var cid :| LongHeader(data, cid) && Listed(c, cid);
      LongHeaderRoutes(c, data, cid);
    }
  }

  // ---------------------------------------------------------------------
  // What the library is asked
  // ---------------------------------------------------------------------

  lemma HandledAsks(c: Core, now: Instant, from: Addr, data: Bytes, ans: FeedAnswer)
    ensures var m := Handled(c, now, from, data, ans);
            && m.calls == c.calls + [HandleCall(now, from, data, c.installed)]
            && m.outbound == c.outbound + (if c.role == Server && ans.response != [] then [Transmit(from, ans.response)] else [])
            && m.role == c.role
  {
  }

  lemma AdmitAsks(m: Core, now: Instant, a: AcceptAnswer, clientId: string)
    ensures var d := SweepOrphans(Admit(m, now, a, clientId).0);
            && d.calls == m.calls + [AcceptCall(now)]
            && d.outbound == m.outbound + (if a.AcceptOk? && a.buf != [] then [Transmit(a.remote, a.buf)] else [])
  {
    if a.AcceptOk? {
      var (n, h) := AllocateHandle(Mint(m, a.minted).(calls := m.calls + [AcceptCall(now)]), a.quinn);
      var q := Queue(n, a.remote, a.buf);
      assert DrainPending(q, h).outbound == q.outbound && DrainPending(q, h).calls == q.calls;
    }
  }

  lemma FeedCalls(cfg: Config, c: Core, now: Instant, from: Addr, data: Bytes, admitted: Option<nat>, ans: FeedAnswer)
    ensures Feed(cfg, c, now, from, data, admitted, ans).0.calls ==
            c.calls + [HandleCall(now, from, data, c.installed)]
            + if c.role == Server && admitted.Some? && ans.event.NewConnection? then [AcceptCall(now)] else []
  {
    FeedCases(cfg, c, now, from, data, admitted, ans);
    HandledAsks(c, now, from, data, ans);
    if c.role == Server && admitted.Some? && ans.event.NewConnection? {
      AdmitAsks(Handled(c, now, from, data, ans), now, ans.event.accept, ClientIdOf(cfg, admitted.value));
    }
  }

  lemma {:induction false} ReapAllCalls(c: Core, lost: seq<Loss>, k: nat)
    requires k <= |lost|
    ensures ReapAll(c, lost, k).calls == c.calls
  {
    if k == 0 {
    } else {
      ReapAllCalls(c, lost, k - 1);
    }
  }

  lemma ServiceCalls(c: Core, now: Instant, svc: Service)
    ensures ServiceAll(c, now, svc).calls == c.calls + [ServiceCall(now)]
  {
    RouteSame(Started(c, now), svc, |svc.order|);
    var r := Route(Started(c, now), svc, |svc.order|);
    var s := Poll(r.connections, svc, |svc.order|);
    ReapAllCalls(Staged(r, s), s.lost, |s.lost|);
  }

  /** A datagram that is not rejected is handed to the library once, unchanged: under the configuration of the client
      as which it was admitted, or, on an active ID or by a client, under the one in force. A connection is accepted
      only after such an admission. Then everything is serviced. A rejected one asks nothing of the library. */
  lemma CallsMade(cfg: Config, e: Ep, i: Input)
    requires i.Datagram? && |e.guards| == |cfg.clients|
    ensures var gated := Gated(e, i);
            var client := if gated then Gate(cfg, e, i).1 else None;
            HandleDatagram(cfg, e, i).0.core.calls == e.core.calls +
              if gated && client == None then []
              else [HandleCall(i.now, i.from, i.data, if gated then client else e.core.installed)]
                   + (if client.Some? && i.feed.event.NewConnection? then [AcceptCall(i.now)] else [])
                   + [ServiceCall(i.now)]
  {
    var client := if Gated(e, i) then Gate(cfg, e, i).1 else None;
    if !(Gated(e, i) && client == None) {
      var c := if Gated(e, i) then e.core.(installed := client) else e.core;
      FeedCalls(cfg, c, i.now, i.from, i.data, client, i.feed);
      var f := Feed(cfg, c, i.now, i.from, i.data, client, i.feed).0;
      ServiceCalls(f, i.now, i.svc);
      Regroup(e.core.calls, [HandleCall(i.now, i.from, i.data, c.installed)],
              if client.Some? && i.feed.event.NewConnection? then [AcceptCall(i.now)] else [], [ServiceCall(i.now)]);
    }
  }

  lemma Regroup<T>(a: seq<T>, b: seq<T>, c: seq<T>, d: seq<T>)
    ensures a + b + c + d == a + (b + c + d)
  {
  }

  // ---------------------------------------------------------------------
  // What is answered
  // ---------------------------------------------------------------------

  /** A server queues a nonempty response for the sender, and a nonempty accept buffer for the peer it names; nothing
      else is queued, and a client queues nothing. */
  lemma FeedSends(cfg: Config, c: Core, now: Instant, from: Addr, data: Bytes, admitted: Option<nat>, ans: FeedAnswer)
    ensures var accepted := c.role == Server && admitted.Some? && ans.event.NewConnection? && ans.event.accept.AcceptOk?;
            Feed(cfg, c, now, from, data, admitted, ans).0.outbound == c.outbound
              + (if c.role == Server && ans.response != [] then [Transmit(from, ans.response)] else [])
              + (if accepted && ans.event.accept.buf != [] then [Transmit(ans.event.accept.remote, ans.event.accept.buf)] else [])
  {
    FeedCases(cfg, c, now, from, data, admitted, ans);
    HandledAsks(c, now, from, data, ans);
    if c.role == Server && admitted.Some? && ans.event.NewConnection? {
      AdmitAsks(Handled(c, now, from, data, ans), now, ans.event.accept, ClientIdOf(cfg, admitted.value));
    }
  }

  /** The outcome names the new connection if one was accepted; the live connection in the slot, if the library
      routed the datagram to it; and nobody otherwise. */
  lemma FeedOutcome(cfg: Config, c: Core, now: Instant, from: Addr, data: Bytes, admitted: Option<nat>, ans: FeedAnswer, slots: set<nat>)
    requires Slab(c, slots)
    ensures var outcome := Feed(cfg, c, now, from, data, admitted, ans).1;
            match ans.event
            case NewConnection(accept) =>
              outcome == (if c.role == Server && admitted.Some? && accept.AcceptOk? then Accepted(Handle(accept.quinn, c.nextGeneration)) else Dropped)
            case ConnectionEvent(quinn) =>
              && (forall h :: h in c.connections && h.quinn == quinn ==> outcome == Accepted(h))
              && ((forall h :: h in c.connections ==> h.quinn != quinn) ==> outcome == Dropped)
            case Response => outcome == Dropped
            case NoEvent => outcome == Dropped
  {
    HandledSame(c, now, from, data, ans);
  }

  // ---------------------------------------------------------------------
  // What a pass sends
  // ---------------------------------------------------------------------

  /** The datagrams before the first empty one. */
  ghost predicate Leading(ts: seq<Transmit>, n: nat) {
    && n <= |ts| && (forall i :: 0 <= i < n ==> ts[i].contents != [])
    && (n < |ts| ==> ts[n].contents == [])
  }

  lemma {:induction false} NonemptyIsLeading(ts: seq<Transmit>, n: nat)
    requires Leading(ts, n)
    ensures Nonempty(ts) == ts[..n]
    decreases n
  {
    if n == 0 {
    } else {
      NonemptyIsLeading(ts[1..], n - 1);
      assert ts[..n] == [ts[0]] + ts[1..][..n - 1];
    }
  }

  /** The leading datagrams of the first `k` connections, in the order of the pass; `n` says how many lead. */
  function Leaders(svc: Service, n: Handle -> nat, k: nat): seq<Transmit>
    requires k <= |svc.order|
  {
    if k == 0 then []
    else
      var ts := svc.answer(svc.order[k - 1]).datagrams;
      Leaders(svc, n, k - 1) + ts[..Min(n(svc.order[k - 1]), |ts|)]
  }

  lemma {:induction false} PollSends(connections: map<Handle, Book>, svc: Service, n: Handle -> nat, k: nat)
    requires k <= |svc.order| && Elems(svc.order) <= connections.Keys
    requires forall h :: h in svc.order ==> Leading(svc.answer(h).datagrams, n(h))
    ensures Poll(connections, svc, k).transmits == Leaders(svc, n, k)
  {
    if k == 0 {
    } else {
      var h := svc.order[k - 1];
      PollSends(connections, svc, n, k - 1);
      PollKeepsKeys(connections, svc, k - 1);
      assert h in svc.order && h in Elems(svc.order);
      NonemptyIsLeading(svc.answer(h).datagrams, n(h));
    }
  }

  /** A pass queues, behind what is queued already, the datagrams that each connection yields before its first empty
      one, connection by connection. */
  lemma PassSends(c: Core, now: Instant, svc: Service, n: Handle -> nat)
    requires Elems(svc.order) == c.connections.Keys
    requires forall h :: h in svc.order ==> Leading(svc.answer(h).datagrams, n(h))
    ensures ServiceAll(c, now, svc).outbound == c.outbound + Leaders(svc, n, |svc.order|)
  {
    RouteSame(Started(c, now), svc, |svc.order|);
    var r := Route(Started(c, now), svc, |svc.order|);
    var s := Poll(r.connections, svc, |svc.order|);
    ReapAllSubset(Staged(r, s), s.lost, |s.lost|);
    PollSends(r.connections, svc, n, |svc.order|);
  }
}
