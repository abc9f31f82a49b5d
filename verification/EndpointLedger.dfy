/** The connection-ID ledger: which IDs route past the pre-filter, and who owns them. */
module EndpointLedger {
  import opened Base
  import opened ByteCodec
  import opened Admission
  import opened ConnSpec
  import opened EndpointSpec

  predicate Owns(owned: map<Handle, seq<Cid>>, h: Handle, x: Cid) {
    h in owned && x in owned[h]
  }

  ghost predicate Owned(owned: map<Handle, seq<Cid>>, x: Cid) {
    exists h :: Owns(owned, h, x)
  }

  /** `issued` is the disjoint union of the pending IDs and the per-connection lists. */
  ghost predicate Ledger(issued: set<Cid>, pending: seq<Cid>, owned: map<Handle, seq<Cid>>) {
    && NoDup(pending)
    && (forall x :: x in issued <==> x in pending || Owned(owned, x))
    && (forall h, x :: Owns(owned, h, x) ==> x !in pending)
    && (forall h1, h2, x :: Owns(owned, h1, x) && Owns(owned, h2, x) ==> h1 == h2)
    && (forall h :: h in owned ==> NoDup(owned[h]))
  }

  ghost predicate LedgerOf(c: Core) {
    Ledger(c.issued, c.pending, c.cidsByConn)
  }

  /** The ledger between public calls: nothing pending, and only live connections own IDs. */
  ghost predicate Settled(c: Core) {
    LedgerOf(c) && c.pending == [] && c.cidsByConn.Keys <= c.connections.Keys
  }

  ghost predicate Disjoint(batch: seq<Cid>, s: set<Cid>) {
    forall x :: x in batch ==> x !in s
  }

  lemma AppendNoDup<T>(a: seq<T>, b: seq<T>)
    requires NoDup(a) && NoDup(b) && forall x :: x in a ==> x !in b
    ensures NoDup(a + b)
  {
    forall i, j | 0 <= i < j < |a + b| ensures (a + b)[i] != (a + b)[j] {
      if i < |a| <= j {
        assert a[i] in a && b[j - |a|] in b;
      }
    }
  }

  lemma MintKeepsLedger(c: Core, batch: seq<Cid>)
    requires LedgerOf(c) && NoDup(batch) && Disjoint(batch, c.issued)
    ensures LedgerOf(Mint(c, batch))
  {
    AppendNoDup(c.pending, batch);
  }

  lemma DrainKeepsLedger(c: Core, h: Handle)
    requires LedgerOf(c)
    ensures LedgerOf(DrainPending(c, h)) && DrainPending(c, h).pending == []
    ensures DrainPending(c, h).issued == c.issued
    ensures forall g, x :: Owns(DrainPending(c, h).cidsByConn, g, x) <==> Owns(c.cidsByConn, g, x) || (g == h && x in c.pending)
  {
    if c.pending != [] {
      var d := DrainPending(c, h);
      var list := OwnedBy(c, h);
      forall x | x in list ensures x !in c.pending {
        assert Owns(c.cidsByConn, h, x);
      }
      AppendNoDup(list, c.pending);
      assert forall g, x :: Owns(d.cidsByConn, g, x) <==> Owns(c.cidsByConn, g, x) || (g == h && x in c.pending);
      forall x ensures x in d.issued <==> Owned(d.cidsByConn, x) {
        if x in c.pending {
          assert Owns(d.cidsByConn, h, x);
        }
        if Owned(c.cidsByConn, x) {
          var g :| Owns(c.cidsByConn, g, x);
          assert Owns(d.cidsByConn, g, x);
        }
      }
    }
  }

  lemma SweepKeepsLedger(c: Core)
    requires LedgerOf(c)
    ensures LedgerOf(SweepOrphans(c)) && SweepOrphans(c).pending == []
  {
    forall x | x in c.pending ensures !Owned(c.cidsByConn, x) {
    }
  }

  lemma PruneKeepsLedger(c: Core, h: Handle)
    requires LedgerOf(c)
    ensures LedgerOf(PruneCids(c, h))
    ensures PruneCids(c, h).cidsByConn == c.cidsByConn - {h}
    ensures PruneCids(c, h).pending == c.pending
  {
    if h in c.cidsByConn {
      var d := PruneCids(c, h);
      assert forall g, x :: Owns(d.cidsByConn, g, x) <==> Owns(c.cidsByConn, g, x) && g != h;
      forall x ensures x in d.issued <==> x in d.pending || Owned(d.cidsByConn, x) {
        assert x in Elems(c.cidsByConn[h]) <==> Owns(c.cidsByConn, h, x);
        if Owned(c.cidsByConn, x) {
          var g :| Owns(c.cidsByConn, g, x);
          assert g != h ==> Owns(d.cidsByConn, g, x);
        }
        if Owned(d.cidsByConn, x) {
          var g :| Owns(d.cidsByConn, g, x);
          assert Owns(c.cidsByConn, g, x);
        }
      }
    }
  }

  // ---------------------------------------------------------------------
  // What a step mints
  // ---------------------------------------------------------------------

  function EventMints(evs: seq<EndpointEvent>, j: nat): seq<Cid>
    requires j <= |evs|
  {
    if j == 0 then [] else EventMints(evs, j - 1) + evs[j - 1].minted
  }

  function MintsOf(svc: Service, h: Handle): seq<Cid> {
    EventMints(svc.answer(h).endpointEvents, |svc.answer(h).endpointEvents|)
  }

  function ServiceMints(svc: Service, k: nat): seq<Cid>
    requires k <= |svc.order|
  {
    if k == 0 then [] else ServiceMints(svc, k - 1) + MintsOf(svc, svc.order[k - 1])
  }

  /** The IDs minted by one datagram: by `handle`, and by `accept` if it is called. */
  function FeedMints(role: Role, admitted: Option<nat>, ans: FeedAnswer): seq<Cid> {
    ans.minted + if ans.event.NewConnection? && role == Server && admitted.Some? then ans.event.accept.minted else []
  }

  /** `batch` is minted now: distinct, and never minted before. */
  ghost predicate NewIds(batch: seq<Cid>, minted: set<Cid>) {
    NoDup(batch) && Disjoint(batch, minted)
  }

  lemma NewIdsSplit(a: seq<Cid>, b: seq<Cid>, minted: set<Cid>)
    requires NewIds(a + b, minted)
    ensures NewIds(a, minted) && NewIds(b, minted + Elems(a))
  {
    forall i, j | 0 <= i < j < |a| ensures a[i] != a[j] {
      assert (a + b)[i] == a[i] && (a + b)[j] == a[j];
    }
    forall i, j | 0 <= i < j < |b| ensures b[i] != b[j] {
      assert (a + b)[|a| + i] == b[i] && (a + b)[|a| + j] == b[j];
    }
    forall x | x in b ensures x !in minted + Elems(a) {
      assert x in a + b;
      var j :| 0 <= j < |b| && b[j] == x;
      assert (a + b)[|a| + j] == x;
      assert forall i :: 0 <= i < |a| ==> (a + b)[i] == a[i] && a[i] != x;
    }
    forall x | x in a ensures x !in minted {
      assert x in a + b;
    }
  }

  // ---------------------------------------------------------------------
  // Routing
  // ---------------------------------------------------------------------

  /** What routing leaves alone. */
  ghost predicate SameButLedger(c: Core, d: Core) {
    d == c.(issued := d.issued, pending := d.pending, cidsByConn := d.cidsByConn)
  }

  ghost predicate RoutedFrom(c: Core, d: Core, live: set<Handle>, minted: set<Cid>) {
    && LedgerOf(d) && SameButLedger(c, d)
    && d.cidsByConn.Keys <= live
    && d.issued <= minted
  }

  lemma MintAndDrain(c: Core, d: Core, h: Handle, batch: seq<Cid>, live: set<Handle>, minted: set<Cid>)
    requires RoutedFrom(c, d, live, minted) && h in live && NewIds(batch, minted)
    ensures RoutedFrom(c, DrainPending(Mint(d, batch), h), live, minted + Elems(batch))
  {
    MintKeepsLedger(d, batch);
    DrainKeepsLedger(Mint(d, batch), h);
  }

  lemma {:induction false} RouteEventsKeeps(c: Core, d: Core, h: Handle, evs: seq<EndpointEvent>, j: nat, live: set<Handle>, minted: set<Cid>)
    requires j <= |evs| && h in live && RoutedFrom(c, d, live, minted) && NewIds(EventMints(evs, j), minted)
    ensures RoutedFrom(c, RouteEvents(d, h, evs, j), live, minted + Elems(EventMints(evs, j)))
    ensures d.pending == [] || j > 0 ==> RouteEvents(d, h, evs, j).pending == []
  {
    if j == 0 {
      assert minted + Elems<Cid>([]) == minted;
    } else {
      var a, b := EventMints(evs, j - 1), evs[j - 1].minted;
      NewIdsSplit(a, b, minted);
      RouteEventsKeeps(c, d, h, evs, j - 1, live, minted);
      MintAndDrain(c, RouteEvents(d, h, evs, j - 1), h, b, live, minted + Elems(a));
      assert minted + Elems(a) + Elems(b) == minted + Elems(a + b);
    }
  }

  lemma {:induction false} RouteKeeps(c: Core, svc: Service, k: nat, live: set<Handle>, minted: set<Cid>)
    requires k <= |svc.order| && Elems(svc.order) <= live
    requires RoutedFrom(c, c, live, minted) && NewIds(ServiceMints(svc, k), minted)
    ensures RoutedFrom(c, Route(c, svc, k), live, minted + Elems(ServiceMints(svc, k)))
    ensures c.pending == [] ==> Route(c, svc, k).pending == []
  {
    if k == 0 {
      assert minted + Elems<Cid>([]) == minted;
    } else {
      var h := svc.order[k - 1];
      assert h in Elems(svc.order);
      var a, b := ServiceMints(svc, k - 1), MintsOf(svc, h);
      NewIdsSplit(a, b, minted);
      RouteKeeps(c, svc, k - 1, live, minted);
      RouteEventsKeeps(c, Route(c, svc, k - 1), h, svc.answer(h).endpointEvents, |svc.answer(h).endpointEvents|, live, minted + Elems(a));
      assert minted + Elems(a) + Elems(b) == minted + Elems(a + b);
    }
  }

  // ---------------------------------------------------------------------
  // Reaping
  // ---------------------------------------------------------------------

  ghost predicate ReapInv(c: Core, minted: set<Cid>) {
    LedgerOf(c) && c.cidsByConn.Keys <= c.connections.Keys && c.issued <= minted
  }

  lemma {:induction false} ReapAllKeeps(c: Core, lost: seq<Loss>, k: nat, minted: set<Cid>)
    requires k <= |lost| && ReapInv(c, minted)
    ensures ReapInv(ReapAll(c, lost, k), minted)
  {
    if k == 0 {
    } else {
      ReapAllKeeps(c, lost, k - 1, minted);
      ReapKeeps(ReapAll(c, lost, k - 1), lost[k - 1], minted);
    }
  }

  lemma ReapKeeps(c: Core, l: Loss, minted: set<Cid>)
    requires ReapInv(c, minted)
    ensures ReapInv(Reap(c, l), minted)
  {
    if l.conn in c.connections {
      var d := c.(connections := c.connections - {l.conn}, byQuinn := c.byQuinn - {l.conn.quinn}, clientIds := c.clientIds - {l.conn});
      PruneKeepsLedger(d, l.conn);
    }
  }

  lemma {:induction false} PollKeepsKeys(connections: map<Handle, Book>, svc: Service, k: nat)
    requires k <= |svc.order|
    ensures Poll(connections, svc, k).connections.Keys == connections.Keys
  {
    if k == 0 {
    } else {
      PollKeepsKeys(connections, svc, k - 1);
    }
  }

  /** A servicing pass settles the ledger, even if an orphan was pending when it began. */
  lemma ServiceSettles(c: Core, now: Instant, svc: Service, minted: set<Cid>)
    requires LedgerOf(c) && c.cidsByConn.Keys <= c.connections.Keys && c.issued <= minted
    requires Elems(svc.order) == c.connections.Keys
    requires NewIds(ServiceMints(svc, |svc.order|), minted)
    ensures Settled(ServiceAll(c, now, svc))
    ensures ServiceAll(c, now, svc).issued <= minted + Elems(ServiceMints(svc, |svc.order|))
  {
    var n := |svc.order|;
    var s0 := Started(c, now);
    RouteKeeps(s0, svc, n, c.connections.Keys, minted);
    var r := Route(s0, svc, n);
    var s := Poll(r.connections, svc, n);
    PollKeepsKeys(r.connections, svc, n);
    var all := minted + Elems(ServiceMints(svc, n));
    assert ReapInv(Staged(r, s), all);
    ReapAllKeeps(Staged(r, s), s.lost, |s.lost|, all);
    SweepKeepsLedger(ReapAll(Staged(r, s), s.lost, |s.lost|));
  }

  // ---------------------------------------------------------------------
  // Feeding
  // ---------------------------------------------------------------------

  lemma HandledKeepsLedger(c: Core, now: Instant, from: Addr, data: Bytes, ans: FeedAnswer, minted: set<Cid>)
    requires Settled(c) && c.issued <= minted && NewIds(ans.minted, minted)
    ensures LedgerOf(Handled(c, now, from, data, ans))
    ensures Handled(c, now, from, data, ans).issued <= minted + Elems(ans.minted)
  {
    MintKeepsLedger(c, ans.minted);
  }

  lemma AdmitKeepsLedger(c: Core, now: Instant, a: AcceptAnswer, clientId: string, minted: set<Cid>)
    requires LedgerOf(c) && c.cidsByConn.Keys <= c.connections.Keys && c.issued <= minted && NewIds(a.minted, minted)
    ensures var d := SweepOrphans(Admit(c, now, a, clientId).0);
            Settled(d) && d.issued <= minted + Elems(a.minted)
  {
    MintKeepsLedger(c, a.minted);
    var m := Mint(c, a.minted);
    match a {
      case AcceptOk(quinn, _, remote, buf) =>
        var (n, h) := AllocateHandle(m, quinn);
        DrainKeepsLedger(Queue(n, remote, buf), h);
      case AcceptFailed(_) =>
    }
    SweepKeepsLedger(Admit(c, now, a, clientId).0);
  }

  /** Feeding a datagram settles the ledger, except that the early return leaves orphans pending. */
  lemma FeedKeepsLedger(cfg: Config, c: Core, now: Instant, from: Addr, data: Bytes, admitted: Option<nat>, ans: FeedAnswer, minted: set<Cid>)
    requires Settled(c) && c.issued <= minted
    requires NewIds(FeedMints(c.role, admitted, ans), minted)
    ensures var d := Feed(cfg, c, now, from, data, admitted, ans).0;
            && LedgerOf(d) && d.cidsByConn.Keys <= d.connections.Keys
            && d.issued <= minted + Elems(FeedMints(c.role, admitted, ans))
            && (d.pending == [] || (ReturnsEarly(c.role, admitted, ans) && d.pending == ans.minted))
  {
    var m := Handled(c, now, from, data, ans);
    var rest := if ans.event.NewConnection? && c.role == Server && admitted.Some? then ans.event.accept.minted else [];
    NewIdsSplit(ans.minted, rest, minted);
    HandledKeepsLedger(c, now, from, data, ans, minted);
    assert minted + Elems(ans.minted) + Elems(rest) == minted + Elems(ans.minted + rest);
    if ReturnsEarly(c.role, admitted, ans) {
    } else if ans.event.NewConnection? && c.role == Server {
      AdmitKeepsLedger(m, now, ans.event.accept, ClientIdOf(cfg, admitted.value), minted + Elems(ans.minted));
    } else {
      SweepKeepsLedger(m);
    }
  }

  /** In a settled state a datagram bypasses the pre-filter exactly when a live connection owns its ID,
      and that connection is unique. */
  lemma BypassIffOwned(c: Core, data: Bytes)
    requires Settled(c)
    ensures IsActiveDcid(c, data) <==>
              ReadDcidAny(data).Some? && exists h :: h in c.connections && Owns(c.cidsByConn, h, ReadDcidAny(data).value)
    ensures forall x, g, h :: Owns(c.cidsByConn, g, x) && Owns(c.cidsByConn, h, x) ==> g == h
  {
    var dcid := ReadDcidAny(data);
    if dcid.Some? && Owned(c.cidsByConn, dcid.value) {
      var h :| Owns(c.cidsByConn, h, dcid.value);
      assert h in c.connections;
    }
  }
}
