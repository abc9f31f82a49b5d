/** A run of a server with one client, from its start, in which an ID comes to route past the pre-filter that
    was minted for no connection. */
module EndpointStray {
  import opened Base
  import opened ByteCodec
  import opened Admission
  import opened Replay
  import opened ConnSpec
  import opened EndpointSpec
  import opened EndpointLedger
  import opened EndpointWorld
  import opened EndpointHandles
  import opened EndpointRuns
  import opened EndpointSilence
  import opened EndpointTime
  import opened EndpointAttribution
  import opened EndpointClient

  const NONCE: Bytes := [0, 0, 0, 0, 0, 0, 0, 0]
  const LONG_FLAGS: Byte := 0x80
  const VERSION: Bytes := [0, 0, 0, 1]
  const FIRST_ID: Cid := [1, 1, 1, 1, 1, 1, 1, 1]
  const ORPHAN: Cid := [2, 2, 2, 2, 2, 2, 2, 2]
  const FIRST := Handle(0, 1)
  const PEER := Addr(0, 0)

  function OneClient(hash: KeyedHash, psk: Bytes): Config {
    Config(hash, [ClientEntry("a", psk)])
  }

  function DialDcid(hash: KeyedHash, psk: Bytes): Bytes {
    Assemble(DialParts(hash, psk, NONCE, 0))
  }

  /** A pass over the one connection, in which it sends the endpoint events `evs`. */
  function PassWith(evs: seq<EndpointEvent>): Service {
    Service([FIRST], h => ConnAnswer(evs, [], false, [], None))
  }

  /** The client dials at minute 0, and the library accepts it in slot 0. */
  function Dial(hash: KeyedHash, psk: Bytes): Input {
    Datagram(0.0, PEER, [LONG_FLAGS] + VERSION + [20] + DialDcid(hash, psk), 0, true,
             FeedAnswer([], [], NewConnection(AcceptOk(0, [FIRST_ID], PEER, []))), PassWith([]))
  }

  /** A short-header datagram for that connection, which the library takes for a new one after minting an ID;
      in the same pass the connection sends an endpoint event that mints nothing. */
  function Stray(): Input {
    Datagram(0.0, PEER, [0] + FIRST_ID, 0, true, FeedAnswer([ORPHAN], [], NewConnection(AcceptFailed([]))),
             PassWith([EndpointEvent([], false)]))
  }

  lemma DialPasses(hash: KeyedHash, psk: Bytes)
    ensures Prefilter(hash, OneClient(hash, psk).clients, [{}], Dial(hash, psk).data, 0).1 == Some(0)
  {
    var dcid := DialDcid(hash, psk);
    assert Dial(hash, psk).data == [LONG_FLAGS] + VERSION + [|dcid|] + dcid + [];
    assert LongHeader(Dial(hash, psk).data, dcid);
    DialIsAdmitted(hash, OneClient(hash, psk).clients, [{}], Dial(hash, psk).data, 0, 0, NONCE, 0);
  }

  lemma DialIsGated(hash: KeyedHash, psk: Bytes)
    ensures var cfg, i := OneClient(hash, psk), Dial(hash, psk);
            var w := ServerWorld(cfg);
            Gated(w.ep, i) && AdmittedClient(cfg, w, i) == Some(0) && !Rejected(cfg, w.ep, i)
  {
    var cfg := OneClient(hash, psk);
    assert ServerWorld(cfg).ep.guards == [{}];
    DialPasses(hash, psk);
  }

  /** Every pass of this run mints nothing and loses nobody. */
  lemma PassIsQuiet(evs: seq<EndpointEvent>)
    requires evs == [] || evs == [EndpointEvent([], false)]
    ensures var svc := PassWith(evs);
            && NoDup(svc.order) && Elems(svc.order) == {FIRST}
            && MintsOf(svc, FIRST) == [] && ServiceMints(svc, 1) == []
            && LossIn(svc, FIRST).None? && !HasDrained(svc.answer(FIRST))
  {
    assert EventMints([], 0) == [];
    if evs != [] {
      assert EventMints(evs, 1) == EventMints(evs, 0) + [];
    }
    var svc := PassWith(evs);
    assert ServiceMints(svc, 1) == ServiceMints(svc, 0) + MintsOf(svc, FIRST);
  }

  lemma PassIsOk(w: World, evs: seq<EndpointEvent>)
    requires evs == [] || evs == [EndpointEvent([], false)]
    requires w.ep.core.connections.Keys == {FIRST}
    ensures ServiceOk(w, PassWith(evs))
  {
    PassIsQuiet(evs);
  }

  /** What the two steps need of a world: one live connection, and what was minted for whom. */
  ghost predicate Serving(w: World, minted: set<Cid>) {
    && w.ep.core.role == Server && w.ep.core.connections.Keys == {FIRST}
    && w.minted == minted && w.owner == map[FIRST_ID := FIRST]
  }

  lemma PassOwners(owner: map<Cid, Handle>, evs: seq<EndpointEvent>)
    requires evs == [] || evs == [EndpointEvent([], false)]
    ensures RouteOwners(owner, PassWith(evs), 1) == owner
  {
    PassIsQuiet(evs);
    assert RouteOwners(owner, PassWith(evs), 1) == GiveAll(RouteOwners(owner, PassWith(evs), 0), [], FIRST);
  }

  lemma PassKeeps(c: Core, evs: seq<EndpointEvent>, slots: set<nat>)
    requires evs == [] || evs == [EndpointEvent([], false)]
    requires Slab(c, slots) && c.connections.Keys == {FIRST}
    ensures var d := ServiceAll(c, 0.0, PassWith(evs)); d.connections.Keys == {FIRST} && d.role == c.role
  {
    PassIsQuiet(evs);
    ServiceConnections(c, 0.0, PassWith(evs), slots);
    ServiceKeepsRole(c, 0.0, PassWith(evs));
    var d := ServiceAll(c, 0.0, PassWith(evs));
    forall h ensures h in d.connections.Keys <==> h in {FIRST} {
      assert h in d.connections <==> h in c.connections && LossIn(PassWith(evs), h).None?;
    }
  }

  lemma PassServes(w: World, evs: seq<EndpointEvent>, minted: set<Cid>)
    requires evs == [] || evs == [EndpointEvent([], false)]
    requires Handles(w) && Serving(w, minted)
    ensures Serving(Serviced(w, 0.0, PassWith(evs)), minted)
  {
    PassIsQuiet(evs);
    PassKeeps(w.ep.core, evs, w.slots);
    PassOwners(w.owner, evs);
    assert minted + Elems<Cid>([]) == minted;
  }

  // ---------------------------------------------------------------------
  // The first step
  // ---------------------------------------------------------------------

  /** A server that has let its first datagram through. */
  ghost predicate Starting(w: World) {
    && Handles(w) && w.ep.core.role == Server && w.ep.core.nextGeneration == 1
    && w.ep.core.connections == map[] && w.slots == {} && w.minted == {} && w.owner == map[]
  }

  lemma GateOnly(cfg: Config, w: World, i: Input)
    requires |w.ep.guards| == |cfg.clients| && i.Datagram?
    ensures var o := PastGate(cfg, w, i);
            && o.slots == w.slots && o.minted == w.minted && o.owner == w.owner
            && o.ep.core == w.ep.core.(installed := o.ep.core.installed)
  {
  }

  lemma GateStarts(cfg: Config, i: Input)
    requires i.Datagram?
    ensures Starting(PastGate(cfg, ServerWorld(cfg), i))
  {
    ServerStarts(cfg);
    PastGateInv(cfg, ServerWorld(cfg), i);
    GateOnly(cfg, ServerWorld(cfg), i);
  }

  /** Admitted, the dial creates the connection. */
  lemma DialFeeds(cfg: Config, w: World, i: Input)
    requires Starting(w) && i.Datagram? && i.feed == FeedAnswer([], [], NewConnection(AcceptOk(0, [FIRST_ID], PEER, [])))
    ensures FeedOk(w, i, Some(0))
    ensures Handles(Fed(cfg, w, i, Some(0))) && Serving(Fed(cfg, w, i, Some(0)), {FIRST_ID})
  {
    assert FeedMints(Server, Some(0), i.feed) == [FIRST_ID];
    assert NewHandle(w.ep.core, i.feed) == FIRST;
    FedHandles(cfg, w, i, Some(0));
    DialConnects(cfg, w.ep.core, i);
    assert GiveAll(map[], [FIRST_ID], FIRST) == map[FIRST_ID := FIRST];
    assert {} + Elems([FIRST_ID]) == {FIRST_ID};
  }

  lemma DialConnects(cfg: Config, c: Core, i: Input)
    requires c.role == Server && c.nextGeneration == 1 && c.connections == map[]
    requires i.Datagram? && i.feed == FeedAnswer([], [], NewConnection(AcceptOk(0, [FIRST_ID], PEER, [])))
    ensures var d := Feed(cfg, c, i.now, i.from, i.data, Some(0), i.feed).0;
            d.role == Server && d.connections.Keys == {FIRST}
  {
    FeedConnections(cfg, c, i.now, i.from, i.data, Some(0), i.feed);
  }

  /** The dial is a step within the contract, and leaves the server with that one connection. */
  lemma DialServes(hash: KeyedHash, psk: Bytes)
    ensures var cfg, i := OneClient(hash, psk), Dial(hash, psk);
            EnvOk(cfg, ServerWorld(cfg), i) && Serving(Step(cfg, ServerWorld(cfg), i), {FIRST_ID})
  {
    var cfg, i := OneClient(hash, psk), Dial(hash, psk);
    var w := ServerWorld(cfg);
    DialIsGated(hash, psk);
    GateStarts(cfg, i);
    DialFeeds(cfg, PastGate(cfg, w, i), i);
    var f := Fed(cfg, PastGate(cfg, w, i), i, Some(0));
    PassIsOk(f, []);
    PassServes(f, [], {FIRST_ID});
    DatagramStep(cfg, w, i);
  }

  /** The world after the dial satisfies all invariants, with an exact attribution. */
  lemma DialIsSound(hash: KeyedHash, psk: Bytes)
    ensures var cfg, i := OneClient(hash, psk), Dial(hash, psk);
            Inv(Step(cfg, ServerWorld(cfg), i)) && Attributed(Step(cfg, ServerWorld(cfg), i))
  {
    var cfg, i := OneClient(hash, psk), Dial(hash, psk);
    DialServes(hash, psk);
    DialIsGated(hash, psk);
    ServerReady(cfg, []);
    StepInv(cfg, ServerWorld(cfg), i);
    StepAttribution(cfg, ServerWorld(cfg), i);
  }

  // ---------------------------------------------------------------------
  // The second step
  // ---------------------------------------------------------------------

  lemma StrayIsActive(w: World)
    requires Inv(w) && Attributed(w) && Serving(w, {FIRST_ID})
    ensures IsActiveDcid(w.ep.core, Stray().data)
  {
    RoutedIsOwned(w);
    assert Stray().data[1..9] == FIRST_ID;
  }

  lemma StrayMisattributes()
    ensures Misattributes([ORPHAN], PassWith([EndpointEvent([], false)]))
  {
    var svc := PassWith([EndpointEvent([], false)]);
    PassIsQuiet([EndpointEvent([], false)]);
    assert FirstActive(svc, 0) && LossIn(svc, svc.order[0]).None?;
  }

  lemma StrayFeeds(cfg: Config, w: World)
    requires Inv(w) && Serving(w, {FIRST_ID})
    ensures FeedOk(w, Stray(), None)
    ensures Serving(Fed(cfg, w, Stray(), None), {FIRST_ID, ORPHAN})
  {
    var i := Stray();
    assert FIRST_ID[0] != ORPHAN[0];
    assert FeedMints(Server, None, i.feed) == [ORPHAN];
    FeedConnections(cfg, w.ep.core, i.now, i.from, i.data, None, i.feed);
    assert {FIRST_ID} + Elems([ORPHAN]) == {FIRST_ID, ORPHAN};
  }

  lemma StrayStep(cfg: Config, w: World)
    requires |w.ep.guards| == |cfg.clients| && Inv(w) && Attributed(w) && Serving(w, {FIRST_ID})
    ensures EnvOk(cfg, w, Stray()) && Misfiles(cfg, w, Stray())
    ensures Serving(Step(cfg, w, Stray()), {FIRST_ID, ORPHAN})
  {
    var i := Stray();
    StrayIsActive(w);
    StrayMisattributes();
    StrayFeeds(cfg, w);
    assert !Gated(w.ep, i) && PastGate(cfg, w, i) == w;
    FedHandles(cfg, w, i, None);
    PassIsOk(Fed(cfg, w, i, None), [EndpointEvent([], false)]);
    PassServes(Fed(cfg, w, i, None), [EndpointEvent([], false)], {FIRST_ID, ORPHAN});
    DatagramStep(cfg, w, i);
  }

  /** An attribution that is not exact there can only be the orphan's. */
  lemma OrphanRoutes(w: World)
    requires Inv(w) && !Exact(w) && Serving(w, {FIRST_ID, ORPHAN})
    ensures ORPHAN in w.ep.core.issued && ORPHAN !in w.owner
  {
    var g, x :| Owns(w.ep.core.cidsByConn, g, x) && !(x in w.owner && w.owner[x] == g);
    assert g in w.ep.core.connections.Keys;
    assert x in w.ep.core.issued && x in w.minted;
    assert FIRST_ID[0] != ORPHAN[0];
  }

  lemma OrphanIsActive(c: Core)
    requires ORPHAN in c.issued
    ensures IsActiveDcid(c, [0] + ORPHAN)
  {
    assert ([0] + ORPHAN)[1..9] == ORPHAN;
  }

  lemma MisfiledRoutes(cfg: Config, w: World, i: Input, v: World)
    requires |w.ep.guards| == |cfg.clients| && Inv(w) && Attributed(w) && EnvOk(cfg, w, i) && v == Step(cfg, w, i)
    requires Misfiles(cfg, w, i) && Serving(v, {FIRST_ID, ORPHAN})
    ensures IsActiveDcid(v.ep.core, [0] + ORPHAN) && ORPHAN !in v.owner
  {
    StepAttribution(cfg, w, i);
    StepInv(cfg, w, i);
    OrphanRoutes(v);
    OrphanIsActive(v.ep.core);
  }

  lemma OneClientIsUnambiguous(hash: KeyedHash, psk: Bytes)
    ensures Unambiguous(OneClient(hash, psk).clients)
  {
    assert !IsWhitespace("a"[0]);
  }

  lemma TwoSteps(cfg: Config, u: World, v: World, w: World, i: Input, j: Input)
    requires |u.ep.guards| == |cfg.clients| && EnvOk(cfg, u, i) && v == Step(cfg, u, i)
    requires |v.ep.guards| == |cfg.clients| && EnvOk(cfg, v, j) && w == Step(cfg, v, j)
    ensures IsRun(cfg, [u, v, w], [i, j])
  {
    assert StepAt(cfg, [u, v, w], [i, j], 0) && StepAt(cfg, [u, v, w], [i, j], 1);
  }

  /** A run of two calls from the start, the second of the failing family, after which `ORPHAN` routes although it
      was minted for nobody. */
  ghost predicate IsStrayRun(cfg: Config, ws: seq<World>, ins: seq<Input>) {
    && |ws| == 3 && |ins| == 2 && ws[0] == ServerWorld(cfg) && IsRun(cfg, ws, ins)
    && |ws[1].ep.guards| == |cfg.clients| && Misfiles(cfg, ws[1], ins[1])
    && IsActiveDcid(ws[2].ep.core, [0] + ORPHAN) && ORPHAN !in ws[2].owner
  }

  lemma StrayIsRun(cfg: Config, u: World, v: World, w: World, i: Input, j: Input)
    requires u == ServerWorld(cfg) && |u.ep.guards| == |cfg.clients| && EnvOk(cfg, u, i) && v == Step(cfg, u, i)
    requires |v.ep.guards| == |cfg.clients| && EnvOk(cfg, v, j) && w == Step(cfg, v, j) && Misfiles(cfg, v, j)
    requires IsActiveDcid(w.ep.core, [0] + ORPHAN) && ORPHAN !in w.owner
    ensures IsStrayRun(cfg, [u, v, w], [i, j])
  {
    TwoSteps(cfg, u, v, w, i, j);
    EndsStray(cfg, [u, v, w], [i, j]);
  }

  lemma EndsStray(cfg: Config, ws: seq<World>, ins: seq<Input>)
    requires |ws| == 3 && |ins| == 2 && ws[0] == ServerWorld(cfg) && IsRun(cfg, ws, ins)
    requires |ws[1].ep.guards| == |cfg.clients| && Misfiles(cfg, ws[1], ins[1])
    requires IsActiveDcid(ws[2].ep.core, [0] + ORPHAN) && ORPHAN !in ws[2].owner
    ensures IsStrayRun(cfg, ws, ins)
  {
  }

  /** A server that may start, with one client, has such a run within the contract: a dial and a stray datagram. */
  lemma StrayRunMisfiles(hash: KeyedHash, psk: Bytes) returns (ws: seq<World>)
    ensures Unambiguous(OneClient(hash, psk).clients)
    ensures IsStrayRun(OneClient(hash, psk), ws, [Dial(hash, psk), Stray()])
  {
    var cfg, i, j := OneClient(hash, psk), Dial(hash, psk), Stray();
    var u := ServerWorld(cfg);
    OneClientIsUnambiguous(hash, psk);
    DialServes(hash, psk);
    DialIsSound(hash, psk);
    StepKeepsGuardCount(cfg, u, i);
    var v := Step(cfg, u, i);
    StrayStep(cfg, v);
    var w := Step(cfg, v, j);
    MisfiledRoutes(cfg, v, j, w);
    StrayIsRun(cfg, u, v, w, i, j);
    ws := [u, v, w];
  }
}
