/** Whole runs of an endpoint: the state machine together with what its surroundings remember, and the
    contract under which the QUIC library answers. */
module EndpointWorld {
  import opened Base
  import opened ByteCodec
  import opened Admission
  import opened Replay
  import opened ConnSpec
  import opened EndpointSpec
  import opened EndpointLedger

  /** The endpoint, and for the statements about runs:
      slots: the slab slots the library holds;
      minted, owner: every connection ID ever minted, and for whom;
      history: every event ever queued; handed: every handle ever issued; clientOf: as which client;
      log: every admission, with its client, nonce and minute; emitted: every datagram given out. */
  datatype World = World(ep: Ep, slots: set<nat>, minted: set<Cid>, owner: map<Cid, Handle>,
                         history: seq<Event>, handed: seq<Handle>, clientOf: map<Handle, nat>,
                         log: seq<(nat, Entry)>, emitted: seq<Transmit>)

  function ServerWorld(cfg: Config): World {
    World(NewServer(cfg), {}, {}, map[], [], [], map[], [], [])
  }

  // ---------------------------------------------------------------------
  // One servicing pass
  // ---------------------------------------------------------------------

  predicate HasDrained(a: ConnAnswer) {
    exists i :: 0 <= i < |a.endpointEvents| && a.endpointEvents[i].drained
  }

  /** The slots freed by handling `Drained` events. */
  function FreedSlots(svc: Service): set<nat> {
    set h | h in Elems(svc.order) && HasDrained(svc.answer(h)) :: h.quinn
  }

  function GiveAll(owner: map<Cid, Handle>, cids: seq<Cid>, h: Handle): map<Cid, Handle> {
    owner + map x | x in cids :: h
  }

  function RouteOwners(owner: map<Cid, Handle>, svc: Service, k: nat): map<Cid, Handle>
    requires k <= |svc.order|
  {
    if k == 0 then owner
    else GiveAll(RouteOwners(owner, svc, k - 1), MintsOf(svc, svc.order[k - 1]), svc.order[k - 1])
  }

  /** The events queued between two states. */
  function Appended(before: seq<Event>, after: seq<Event>): seq<Event> {
    if |before| <= |after| then after[|before|..] else []
  }

  function Serviced(w: World, now: Instant, svc: Service): World {
    var d := ServiceAll(w.ep.core, now, svc);
    w.(ep := w.ep.(core := d),
       slots := w.slots - FreedSlots(svc),
       minted := w.minted + Elems(ServiceMints(svc, |svc.order|)),
       owner := RouteOwners(w.owner, svc, |svc.order|),
       history := w.history + Appended(w.ep.core.events, d.events))
  }

  /** The contract of a pass: the map yields each live connection once, minted IDs are new, and only a
      drained connection sends `Drained`. */
  ghost predicate ServiceOk(w: World, svc: Service) {
    && NoDup(svc.order)
    && Elems(svc.order) == w.ep.core.connections.Keys
    && NewIds(ServiceMints(svc, |svc.order|), w.minted)
    && forall h :: h in svc.order && HasDrained(svc.answer(h)) ==> svc.answer(h).isDrained
  }

  // ---------------------------------------------------------------------
  // One admitted datagram
  // ---------------------------------------------------------------------

  /** Is a connection created? */
  predicate Creates(role: Role, admitted: Option<nat>, ans: FeedAnswer) {
    ans.event.NewConnection? && role == Server && admitted.Some? && ans.event.accept.AcceptOk?
  }

  function NewHandle(c: Core, ans: FeedAnswer): Handle
    requires ans.event.NewConnection? && ans.event.accept.AcceptOk?
  {
    Handle(ans.event.accept.quinn, c.nextGeneration)
  }

  function Fed(cfg: Config, w: World, i: Input, admitted: Option<nat>): World
    requires i.Datagram?
  {
    var c := w.ep.core;
    var d := Feed(cfg, c, i.now, i.from, i.data, admitted, i.feed).0;
    var m := w.(ep := w.ep.(core := d), minted := w.minted + Elems(FeedMints(c.role, admitted, i.feed)));
    if Creates(c.role, admitted, i.feed) then
      var h := NewHandle(c, i.feed);
      m.(slots := w.slots + {h.quinn},
         owner := GiveAll(w.owner, FeedMints(c.role, admitted, i.feed), h),
         handed := w.handed + [h],
         clientOf := w.clientOf[h := admitted.value])
    else m
  }

  /** The contract of `handle` and `accept`: minted IDs are new, the slot is free, and the generation
      counter has not reached the end of 64 bits (where the program stops). */
  ghost predicate FeedOk(w: World, i: Input, admitted: Option<nat>)
    requires i.Datagram?
  {
    && NewIds(FeedMints(w.ep.core.role, admitted, i.feed), w.minted)
    && (Creates(w.ep.core.role, admitted, i.feed) ==>
          && i.feed.event.accept.quinn !in w.slots
          && w.ep.core.nextGeneration + 1 < 0x1_0000_0000_0000_0000)
  }

  /** The world once the silence gate has let `i` through. */
  function PastGate(cfg: Config, w: World, i: Input): World
    requires i.Datagram? && |w.ep.guards| == |cfg.clients|
  {
    if !Gated(w.ep, i) then w
    else
      var (guards, client) := Gate(cfg, w.ep, i);
      w.(ep := Ep(if client.Some? then w.ep.core.(installed := client) else w.ep.core, guards),
         log := w.log + if client.Some? then [(client.value, EntryOf(i.data))] else [])
  }

  /** The nonce and minute a datagram claims. */
  function EntryOf(data: Bytes): Entry {
    match PeekDcid(data)
    case Some(dcid) => (match ParseDcid(dcid) case Some(p) => (p.nonce, p.freshness) case None => ([], 0))
    case None => ([], 0)
  }

  function AdmittedClient(cfg: Config, w: World, i: Input): Option<nat>
    requires i.Datagram? && |w.ep.guards| == |cfg.clients|
  {
    if Gated(w.ep, i) then Gate(cfg, w.ep, i).1 else None
  }

  // ---------------------------------------------------------------------
  // Steps and runs
  // ---------------------------------------------------------------------

  function Popped(w: World): World {
    var (c, t) := PopTransmit(w.ep.core);
    w.(ep := w.ep.(core := c), emitted := w.emitted + if t.Some? then [t.value] else [])
  }

  function WithCore(w: World, c: Core): World {
    w.(ep := w.ep.(core := c))
  }

  function Step(cfg: Config, w: World, i: Input): World
    requires |w.ep.guards| == |cfg.clients|
  {
    match i
    case Datagram(now, _, _, _, _, _, svc) =>
      if Rejected(cfg, w.ep, i) then PastGate(cfg, w, i)
      else Serviced(Fed(cfg, PastGate(cfg, w, i), i, AdmittedClient(cfg, w, i)), now, svc)
    case Timeout(now, svc) => Serviced(WithCore(w, w.ep.core.(calls := w.ep.core.calls + [TimeoutCall(now)])), now, svc)
    case PollTransmit(now, svc) => Popped(if w.ep.core.outbound != [] then w else Serviced(w, now, svc))
    case PollEvent => WithCore(w, DoPollEvent(w.ep.core).0)
    case Work(h, op) => WithCore(w, DoWork(w.ep.core, h, op))
  }

  /** The contract of a step. */
  ghost predicate EnvOk(cfg: Config, w: World, i: Input)
    requires |w.ep.guards| == |cfg.clients|
  {
    match i
    case Datagram(_, _, _, _, _, _, svc) =>
      Rejected(cfg, w.ep, i) ||
      (var o, admitted := PastGate(cfg, w, i), AdmittedClient(cfg, w, i);
       FeedOk(o, i, admitted) && ServiceOk(Fed(cfg, o, i, admitted), svc))
    case Timeout(_, svc) => ServiceOk(w, svc)
    case PollTransmit(_, svc) => w.ep.core.outbound != [] || ServiceOk(w, svc)
    case PollEvent => true
    case Work(_, _) => true
  }

  /** The step of a datagram that is handed on. */
  lemma DatagramStep(cfg: Config, w: World, i: Input)
    requires |w.ep.guards| == |cfg.clients| && i.Datagram? && !Rejected(cfg, w.ep, i)
    ensures Step(cfg, w, i) == Serviced(Fed(cfg, PastGate(cfg, w, i), i, AdmittedClient(cfg, w, i)), i.now, i.svc)
  {
  }

  lemma FedIsFeed(cfg: Config, w: World, i: Input, admitted: Option<nat>)
    requires i.Datagram?
    ensures var v := Serviced(Fed(cfg, w, i, admitted), i.now, i.svc);
            v.ep == Ep(FeedAndService(cfg, w.ep.core, i, admitted).0, w.ep.guards)
  {
  }

  lemma DatagramIsHandleDatagram(cfg: Config, w: World, i: Input)
    requires |w.ep.guards| == |cfg.clients| && i.Datagram?
    ensures Step(cfg, w, i).ep == HandleDatagram(cfg, w.ep, i).0
  {
    if !Rejected(cfg, w.ep, i) {
      DatagramStep(cfg, w, i);
      FedIsFeed(cfg, PastGate(cfg, w, i), i, AdmittedClient(cfg, w, i));
    }
  }

  /** The world's step is the endpoint's step. */
  lemma StepIsStepOf(cfg: Config, w: World, i: Input)
    requires |w.ep.guards| == |cfg.clients|
    ensures Step(cfg, w, i).ep == StepOf(cfg, w.ep, i).0
  {
    if i.Datagram? {
      DatagramIsHandleDatagram(cfg, w, i);
    }
  }

  ghost predicate StepAt(cfg: Config, ws: seq<World>, ins: seq<Input>, k: nat)
    requires k < |ins| && |ws| == |ins| + 1
  {
    && |ws[k].ep.guards| == |cfg.clients|
    && EnvOk(cfg, ws[k], ins[k])
    && ws[k + 1] == Step(cfg, ws[k], ins[k])
  }

  /** `ws` are the worlds of a run that starts in `ws[0]` and makes the calls `ins`. */
  ghost predicate IsRun(cfg: Config, ws: seq<World>, ins: seq<Input>) {
    && |ws| == |ins| + 1
    && |ws[0].ep.guards| == |cfg.clients|
    && forall k :: 0 <= k < |ins| ==> StepAt(cfg, ws, ins, k)
  }

  lemma StepKeepsGuardCount(cfg: Config, w: World, i: Input)
    requires |w.ep.guards| == |cfg.clients|
    ensures |Step(cfg, w, i).ep.guards| == |cfg.clients|
  {
  }
}
