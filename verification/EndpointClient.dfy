/** The start of a run on either side, and what a client never does. */
module EndpointClient {
  import opened Base
  import opened ByteCodec
  import opened Admission
  import opened Replay
  import opened ConnSpec
  import opened EndpointSpec
  import opened EndpointLedger
  import opened EndpointWorld
  import opened EndpointHandles
  import opened EndpointRuns
  import opened EndpointSilence
  import opened EndpointTime
  import opened EndpointAttribution

  function ClientWorld(now: Instant, dcid: Bytes, a: ConnectAnswer): World {
    var (e, h) := NewClient(now, dcid, a);
    World(e, {a.quinn}, Elems(a.minted), map x | x in a.minted :: h, [], [h], map[], [], [])
  }

  lemma ClientLedger(now: Instant, dcid: Bytes, a: ConnectAnswer)
    requires NoDup(a.minted)
    ensures Settled(NewClient(now, dcid, a).0.core) && NewClient(now, dcid, a).0.core.issued == Elems(a.minted)
    ensures NewClient(now, dcid, a).0.core.cidsByConn == if a.minted == [] then map[] else map[NewClient(now, dcid, a).1 := a.minted]
  {
    var (e, h) := NewClient(now, dcid, a);
    var c := e.core;
    assert [] + a.minted == a.minted;
    if a.minted != [] {
      assert c.cidsByConn == map[h := a.minted];
      forall x ensures x in c.issued <==> Owned(c.cidsByConn, x) {
        if x in c.issued { assert Owns(c.cidsByConn, h, x); }
      }
    }
  }

  lemma ClientTables(now: Instant, dcid: Bytes, a: ConnectAnswer)
    ensures var (e, h) := NewClient(now, dcid, a);
            && e.core.connections == map[h := EMPTY_BOOK] && e.core.byQuinn == map[a.quinn := h]
            && e.core.nextGeneration == 2 && h == Handle(a.quinn, 1) && e.core.events == []
            && e.core.lastService == Some(now) && e.core.calls == [ConnectCall(now, dcid)] && e.core.nextTimeout == a.deadline
  {
  }

  lemma ClientHandles(now: Instant, dcid: Bytes, a: ConnectAnswer)
    ensures Handles(ClientWorld(now, dcid, a))
  {
    ClientTables(now, dcid, a);
  }

  lemma ClientOwns(now: Instant, dcid: Bytes, a: ConnectAnswer)
    requires NoDup(a.minted)
    ensures Attributed(ClientWorld(now, dcid, a))
  {
    ClientTables(now, dcid, a);
    ClientLedger(now, dcid, a);
    var w, h := ClientWorld(now, dcid, a), NewClient(now, dcid, a).1;
    forall x | x in w.owner ensures Owns(w.ep.core.cidsByConn, h, x) {
      assert x in a.minted;
    }
  }

  /** A freshly dialled client satisfies the invariants of runs, so everything proved of runs holds of it. It has
      asked the library for that dial only, and is to sleep until the deadline that came with it. */
  lemma ClientStarts(now: Instant, dcid: Bytes, a: ConnectAnswer, ins: seq<Input>)
    requires NoDup(a.minted)
    ensures var w := ClientWorld(now, dcid, a);
            && Inv(w) && Attributed(w)
            && (Reached(now, ins, 0) ==> Awake(w.ep.core, ins, 0))
            && NextTimeout(w.ep.core) == a.deadline && w.ep.core.calls == [ConnectCall(now, dcid)]
  {
    ClientTables(now, dcid, a);
    ClientHandles(now, dcid, a);
    ClientLedger(now, dcid, a);
    ClientOwns(now, dcid, a);
  }

  /** So does a freshly started server. */
  lemma ServerReady(cfg: Config, ins: seq<Input>)
    ensures Inv(ServerWorld(cfg)) && Attributed(ServerWorld(cfg)) && Awake(ServerWorld(cfg).ep.core, ins, 0)
  {
    ServerStarts(cfg);
  }

  /** A client: one handle ever, and no admission. */
  ghost predicate Dialler(w: World, h: Handle) {
    w.ep.core.role == Client && w.handed == [h] && w.ep.core.connections.Keys <= {h} && w.log == []
  }

  lemma ServicedDialler(w: World, now: Instant, svc: Service, h: Handle)
    requires Handles(w) && ServiceOk(w, svc) && Dialler(w, h)
    ensures Dialler(Serviced(w, now, svc), h)
  {
    ServiceKeepsRole(w.ep.core, now, svc);
    ServiceConnections(w.ep.core, now, svc, w.slots);
  }

  lemma ClientFeed(cfg: Config, c: Core, now: Instant, from: Addr, data: Bytes, ans: FeedAnswer)
    requires c.role == Client
    ensures var d := Feed(cfg, c, now, from, data, None, ans).0;
            d.role == Client && d.outbound == c.outbound && d.connections == c.connections
  {
  }

  /** Handing a client a datagram queues nothing: no endpoint-level response leaves a client. */
  lemma ClientFeedQueuesNothing(cfg: Config, w: World, i: Input, h: Handle)
    requires i.Datagram? && |w.ep.guards| == |cfg.clients| && Dialler(w, h)
    ensures !Gated(w.ep, i) && PastGate(cfg, w, i) == w && AdmittedClient(cfg, w, i) == None
    ensures Fed(cfg, w, i, None).ep.core.outbound == w.ep.core.outbound
    ensures Fed(cfg, w, i, None).ep.core.connections == w.ep.core.connections
    ensures Dialler(Fed(cfg, w, i, None), h)
  {
    ClientFeed(cfg, w.ep.core, i.now, i.from, i.data, i.feed);
    assert !Creates(Client, None, i.feed);
  }

  lemma StepDialler(cfg: Config, w: World, i: Input, h: Handle)
    requires |w.ep.guards| == |cfg.clients| && EnvOk(cfg, w, i) && Inv(w) && Dialler(w, h)
    ensures Dialler(Step(cfg, w, i), h)
  {
    match i {
      case Datagram(now, _, _, _, _, _, svc) =>
        ClientFeedQueuesNothing(cfg, w, i, h);
        FedHandles(cfg, w, i, None);
        ServicedDialler(Fed(cfg, w, i, None), now, svc, h);
      case Timeout(now, svc) =>
        ServicedDialler(WithCore(w, w.ep.core.(calls := w.ep.core.calls + [TimeoutCall(now)])), now, svc, h);
      case PollTransmit(now, svc) =>
        if w.ep.core.outbound == [] { ServicedDialler(w, now, svc, h); }
      case PollEvent =>
      case Work(g, op) =>
        assert DoWork(w.ep.core, g, op).connections.Keys == w.ep.core.connections.Keys;
    }
  }

  /** In every run a client has the one connection it dialled, until that is lost, and none after. */
  lemma {:induction false} ClientKeepsOneConnection(cfg: Config, ws: seq<World>, ins: seq<Input>, k: nat, h: Handle)
    requires IsRun(cfg, ws, ins) && Inv(ws[0]) && Dialler(ws[0], h) && k < |ws|
    ensures Dialler(ws[k], h)
  {
    if k == 0 {
    } else {
      ClientKeepsOneConnection(cfg, ws, ins, k - 1, h);
      RunInv(cfg, ws, ins, k - 1);
      assert StepAt(cfg, ws, ins, k - 1);
      StepDialler(cfg, ws[k - 1], ins[k - 1], h);
    }
  }
}
