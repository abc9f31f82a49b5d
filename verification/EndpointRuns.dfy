/** What holds in every state of every run of an endpoint. */
module EndpointRuns {
  import opened Base
  import opened ByteCodec
  import opened Admission
  import opened Replay
  import opened ConnSpec
  import opened EndpointSpec
  import opened EndpointLedger
  import opened EndpointWorld
  import opened EndpointHandles

  // ---------------------------------------------------------------------
  // Ledger, slab and finality together
  // ---------------------------------------------------------------------

  ghost predicate IsSuffix(a: seq<Event>, b: seq<Event>) {
    |a| <= |b| && b[|b| - |a|..] == a
  }

  ghost predicate Handles(w: World) {
    && Slab(w.ep.core, w.slots)
    && Final(w.history, w.handed, w.ep.core.connections.Keys, w.ep.core.nextGeneration)
    && IsSuffix(w.ep.core.events, w.history)
  }

  /** The ledger in the middle of a call: orphans of the early return may be pending. */
  ghost predicate Unsettled(w: World) {
    && LedgerOf(w.ep.core) && w.ep.core.cidsByConn.Keys <= w.ep.core.connections.Keys
    && w.ep.core.issued <= w.minted
  }

  /** The invariant between public calls. */
  ghost predicate Inv(w: World) {
    Handles(w) && Settled(w.ep.core) && w.ep.core.issued <= w.minted
  }

  lemma ServerStarts(cfg: Config)
    ensures Inv(ServerWorld(cfg))
  {
  }

  lemma FedHandles(cfg: Config, w: World, i: Input, admitted: Option<nat>)
    requires i.Datagram? && Handles(w) && FeedOk(w, i, admitted)
    ensures Handles(Fed(cfg, w, i, admitted))
  {
    var c := w.ep.core;
    FedSlab(cfg, w, i, admitted);
    FeedConnections(cfg, c, i.now, i.from, i.data, admitted, i.feed);
    if Creates(c.role, admitted, i.feed) {
      var h := NewHandle(c, i.feed);
      FinalHandsOut(w.history, w.handed, c.connections.Keys, c.nextGeneration, h);
      assert c.connections[h := EMPTY_BOOK].Keys == c.connections.Keys + {h};
    }
  }

  lemma FedUnsettled(cfg: Config, w: World, i: Input, admitted: Option<nat>)
    requires i.Datagram? && Settled(w.ep.core) && w.ep.core.issued <= w.minted && FeedOk(w, i, admitted)
    ensures Unsettled(Fed(cfg, w, i, admitted))
    ensures var p := Fed(cfg, w, i, admitted).ep.core.pending;
            p == [] || (ReturnsEarly(w.ep.core.role, admitted, i.feed) && p == i.feed.minted)
  {
    FeedKeepsLedger(cfg, w.ep.core, i.now, i.from, i.data, admitted, i.feed, w.minted);
  }

  lemma ServicedHandles(w: World, now: Instant, svc: Service)
    requires Handles(w) && ServiceOk(w, svc)
    ensures Handles(Serviced(w, now, svc))
  {
    var c, d := w.ep.core, ServiceAll(w.ep.core, now, svc);
    ServicedSlab(w, now, svc);
    ServicedFinal(c, now, svc, w.history, w.handed);
    SuffixGrows(c.events, d.events, w.history);
  }

  lemma SuffixGrows(a: seq<Event>, b: seq<Event>, history: seq<Event>)
    requires IsSuffix(a, history) && a <= b
    ensures IsSuffix(b, history + Appended(a, b))
  {
    var more := history + Appended(a, b);
    assert b == a + b[|a|..];
    assert more[|more| - |b|..] == history[|history| - |a|..] + b[|a|..];
  }

  lemma ServicedInv(w: World, now: Instant, svc: Service)
    requires Handles(w) && Unsettled(w) && ServiceOk(w, svc)
    ensures Inv(Serviced(w, now, svc))
  {
    ServicedHandles(w, now, svc);
    ServiceSettles(w.ep.core, now, svc, w.minted);
  }

  lemma PoppedInv(w: World)
    requires Inv(w)
    ensures Inv(Popped(w))
  {
  }

  lemma PollEventInv(w: World)
    requires Inv(w)
    ensures Inv(WithCore(w, DoPollEvent(w.ep.core).0))
  {
    var c := w.ep.core;
    if c.events != [] {
      assert w.history[|w.history| - (|c.events| - 1)..] == c.events[1..];
    }
  }

  lemma WorkInv(w: World, h: Handle, op: ConnOp)
    requires Inv(w)
    ensures Inv(WithCore(w, DoWork(w.ep.core, h, op)))
  {
    var c, d := w.ep.core, DoWork(w.ep.core, h, op);
    assert d.connections.Keys == c.connections.Keys;
    assert Slab(d, w.slots) && Settled(d);
  }

  lemma PastGateInv(cfg: Config, w: World, i: Input)
    requires |w.ep.guards| == |cfg.clients| && i.Datagram? && Inv(w)
    ensures Inv(PastGate(cfg, w, i))
  {
  }

  lemma StepInv(cfg: Config, w: World, i: Input)
    requires |w.ep.guards| == |cfg.clients| && EnvOk(cfg, w, i) && Inv(w)
    ensures Inv(Step(cfg, w, i))
  {
    match i {
      case Datagram(now, _, _, _, _, _, svc) =>
        PastGateInv(cfg, w, i);
        if !Rejected(cfg, w.ep, i) {
          var o, admitted := PastGate(cfg, w, i), AdmittedClient(cfg, w, i);
          FedHandles(cfg, o, i, admitted);
          FedUnsettled(cfg, o, i, admitted);
          ServicedInv(Fed(cfg, o, i, admitted), now, svc);
        }
      case Timeout(now, svc) =>
        var t := WithCore(w, w.ep.core.(calls := w.ep.core.calls + [TimeoutCall(now)]));
        ServicedInv(t, now, svc);
      case PollTransmit(now, svc) =>
        if w.ep.core.outbound == [] {
          ServicedInv(w, now, svc);
          PoppedInv(Serviced(w, now, svc));
        } else {
          PoppedInv(w);
        }
      case PollEvent => PollEventInv(w);
      case Work(h, op) => WorkInv(w, h, op);
    }
  }

  /** Every state of every run: the pending queue is empty, the issued IDs are the disjoint union of the
      lists of live connections, slab and handles are mutually inverse, and lost handles are final. */
  lemma {:induction false} RunInv(cfg: Config, ws: seq<World>, ins: seq<Input>, k: nat)
    requires IsRun(cfg, ws, ins) && Inv(ws[0]) && k < |ws|
    ensures Inv(ws[k]) && |ws[k].ep.guards| == |cfg.clients|
  {
    if k == 0 {
    } else {
      RunInv(cfg, ws, ins, k - 1);
      assert StepAt(cfg, ws, ins, k - 1);
      StepInv(cfg, ws[k - 1], ins[k - 1]);
      StepKeepsGuardCount(cfg, ws[k - 1], ins[k - 1]);
    }
  }

  // ---------------------------------------------------------------------
  // Histories only grow
  // ---------------------------------------------------------------------

  ghost predicate Extends(v: World, w: World) {
    v.history <= w.history && v.handed <= w.handed && v.log <= w.log && v.emitted <= w.emitted
  }

  lemma FedExtends(cfg: Config, w: World, i: Input, admitted: Option<nat>)
    requires i.Datagram?
    ensures Extends(w, Fed(cfg, w, i, admitted))
  {
  }

  lemma ServicedExtends(w: World, now: Instant, svc: Service)
    ensures Extends(w, Serviced(w, now, svc))
  {
  }

  lemma PastGateExtends(cfg: Config, w: World, i: Input)
    requires i.Datagram? && |w.ep.guards| == |cfg.clients|
    ensures Extends(w, PastGate(cfg, w, i))
  {
  }

  lemma ExtendsTransitive(u: World, v: World, w: World)
    requires Extends(u, v) && Extends(v, w)
    ensures Extends(u, w)
  {
  }

  lemma StepExtends(cfg: Config, w: World, i: Input)
    requires |w.ep.guards| == |cfg.clients|
    ensures Extends(w, Step(cfg, w, i))
  {
    match i {
      case Datagram(now, _, _, _, _, _, svc) =>
        PastGateExtends(cfg, w, i);
        if !Rejected(cfg, w.ep, i) {
          var o, admitted := PastGate(cfg, w, i), AdmittedClient(cfg, w, i);
          var f := Fed(cfg, o, i, admitted);
          FedExtends(cfg, o, i, admitted);
          ServicedExtends(f, now, svc);
          ExtendsTransitive(w, o, f);
          ExtendsTransitive(w, f, Serviced(f, now, svc));
        }
      case Timeout(now, svc) =>
        ServicedExtends(WithCore(w, w.ep.core.(calls := w.ep.core.calls + [TimeoutCall(now)])), now, svc);
      case PollTransmit(now, svc) =>
        ServicedExtends(w, now, svc);
      case PollEvent =>
      case Work(h, op) =>
    }
  }

  lemma {:induction false} RunExtends(cfg: Config, ws: seq<World>, ins: seq<Input>, j: nat, k: nat)
    requires IsRun(cfg, ws, ins) && j <= k < |ws|
    ensures Extends(ws[j], ws[k])
    decreases k
  {
    if j == k {
    } else {
      RunExtends(cfg, ws, ins, j, k - 1);
      assert StepAt(cfg, ws, ins, k - 1);
      StepExtends(cfg, ws[k - 1], ins[k - 1]);
    }
  }

  lemma LossStays(a: seq<Event>, b: seq<Event>, live: set<Handle>, h: Handle, n: nat)
    requires a <= b && LostAt(a, h, n) && HandleStory(b, live, h)
    ensures h !in live && LostAt(b, h, n)
  {
    assert IsLossOf(b[n], h);
    assert h !in live;
    var m: nat :| LostAt(b, h, m);
    assert !(n < m) && !(m < n);
  }

  /** A handle that is not live after having been issued is never live again, and from its one
      `ConnectionLost` on no queued event names it. */
  lemma HandleFinality(cfg: Config, ws: seq<World>, ins: seq<Input>, j: nat, k: nat, h: Handle)
    requires IsRun(cfg, ws, ins) && Inv(ws[0]) && j <= k < |ws|
    requires h in ws[j].handed && h !in ws[j].ep.core.connections
    ensures h !in ws[k].ep.core.connections
    ensures exists n: nat :: LostAt(ws[j].history, h, n) && LostAt(ws[k].history, h, n)
  {
    RunInv(cfg, ws, ins, j);
    RunInv(cfg, ws, ins, k);
    RunExtends(cfg, ws, ins, j, k);
    var n: nat :| LostAt(ws[j].history, h, n);
    var m :| 0 <= m < |ws[j].handed| && ws[j].handed[m] == h;
    assert ws[k].handed[m] == h;
    LossStays(ws[j].history, ws[k].history, ws[k].ep.core.connections.Keys, h, n);
  }

  /** Does the call create a connection? */
  predicate Connects(cfg: Config, w: World, i: Input)
    requires |w.ep.guards| == |cfg.clients|
  {
    i.Datagram? && !Rejected(cfg, w.ep, i) && Creates(w.ep.core.role, AdmittedClient(cfg, w, i), i.feed)
  }

  lemma PastGateKeepsConnections(cfg: Config, w: World, i: Input)
    requires |w.ep.guards| == |cfg.clients| && i.Datagram?
    ensures var o := PastGate(cfg, w, i);
            && o.ep.core.byQuinn == w.ep.core.byQuinn && o.ep.core.connections == w.ep.core.connections
            && o.ep.core.role == w.ep.core.role
  {
    if Gated(w.ep, i) {
      var client := Gate(cfg, w.ep, i).1;
      assert PastGate(cfg, w, i).ep.core == if client.Some? then w.ep.core.(installed := client) else w.ep.core;
    } else {
      assert PastGate(cfg, w, i) == w;
    }
  }

  /** In every run, whenever a call creates a connection its slot belongs to no live one. */
  lemma NoSlotReused(cfg: Config, ws: seq<World>, ins: seq<Input>, k: nat)
    requires IsRun(cfg, ws, ins) && Inv(ws[0]) && k < |ins|
    requires |ws[k].ep.guards| == |cfg.clients| && Connects(cfg, ws[k], ins[k])
    ensures ins[k].feed.event.accept.quinn !in ws[k].ep.core.byQuinn
    ensures forall h :: h in ws[k].ep.core.connections ==> h.quinn != ins[k].feed.event.accept.quinn
  {
    var w, i := ws[k], ins[k];
    RunInv(cfg, ws, ins, k);
    assert StepAt(cfg, ws, ins, k);
    PastGateInv(cfg, w, i);
    PastGateKeepsConnections(cfg, w, i);
    SlotNeverReused(PastGate(cfg, w, i), i, AdmittedClient(cfg, w, i));
  }

  /** No two handles ever issued are equal. */
  lemma HandlesDistinct(cfg: Config, ws: seq<World>, ins: seq<Input>, k: nat)
    requires IsRun(cfg, ws, ins) && Inv(ws[0]) && k < |ws|
    ensures NoDup(ws[k].handed)
  {
    RunInv(cfg, ws, ins, k);
  }
}
