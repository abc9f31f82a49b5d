/** The endpoint as a step machine on values. Every call into the QUIC library is answered by an
    argument of the step, so a step is a function; what those answers must respect is `EndpointWorld`'s
    contract. */
module EndpointSpec {
  import opened Base
  import opened ByteCodec
  import opened Admission
  import opened Replay
  import opened ConnSpec

  /** The library's slab index, tagged with a generation that is never reused. */
  datatype Handle = Handle(quinn: nat, generation: nat)

  datatype Role = Server | Client

  type Cid = Bytes

  datatype Addr = Addr(ip: nat, port: nat)

  datatype Transmit = Transmit(destination: Addr, contents: Bytes)

  datatype Event =
    | Connected(conn: Handle)
    | StreamOpened(conn: Handle, id: StreamId)
    | StreamReadable(conn: Handle, id: StreamId)
    | StreamWritable(conn: Handle, id: StreamId)
    | StreamFinAcked(conn: Handle, id: StreamId)
    | StreamStopped(conn: Handle, id: StreamId, code: nat)
    | ConnectionLost(conn: Handle, reason: Reason)

  datatype DatagramOutcome = Dropped | Accepted(conn: Handle)

  // ---------------------------------------------------------------------
  // Answers of the QUIC library
  // ---------------------------------------------------------------------

  /** One event a connection sends to its endpoint: the IDs minted while handling it, and whether it is
      the `Drained` event that frees the slab slot. */
  datatype EndpointEvent = EndpointEvent(minted: seq<Cid>, drained: bool)

  datatype ConnAnswer = ConnAnswer(endpointEvents: seq<EndpointEvent>, polled: seq<ConnEvent>, isDrained: bool,
                                   datagrams: seq<Transmit>, deadline: Option<Instant>)

  /** The answers during one servicing pass, and the order in which the hash map yields the connections. */
  datatype Service = Service(order: seq<Handle>, answer: Handle -> ConnAnswer)

  datatype AcceptAnswer =
    | AcceptOk(quinn: nat, minted: seq<Cid>, remote: Addr, buf: Bytes)
    | AcceptFailed(minted: seq<Cid>)

  datatype FeedEvent = NewConnection(accept: AcceptAnswer) | ConnectionEvent(quinn: nat) | Response | NoEvent

  datatype FeedAnswer = FeedAnswer(minted: seq<Cid>, response: Bytes, event: FeedEvent)

  /** What dialling yields: the slot, the IDs minted on the way, the first deadline. */
  datatype ConnectAnswer = ConnectAnswer(quinn: nat, minted: seq<Cid>, deadline: Option<Instant>)

  /** What the endpoint has asked of the library, in order. */
  datatype QuinnCall =
    | ConnectCall(now: Instant, dcid: Bytes)
    | HandleCall(now: Instant, from: Addr, data: Bytes, config: Option<nat>)
    | AcceptCall(now: Instant)
    | TimeoutCall(now: Instant)
    | ServiceCall(now: Instant)
    | WorkCall(conn: Handle, op: ConnOp)

  // ---------------------------------------------------------------------
  // State
  // ---------------------------------------------------------------------

  /** Everything but the pre-filter. `installed` is the client whose server configuration is in force. */
  datatype Core = Core(role: Role, issued: set<Cid>, pending: seq<Cid>, cidsByConn: map<Handle, seq<Cid>>,
                       connections: map<Handle, Book>, clientIds: map<Handle, string>, byQuinn: map<nat, Handle>,
                       nextGeneration: nat, outbound: seq<Transmit>, events: seq<Event>,
                       nextTimeout: Option<Instant>, lastService: Option<Instant>,
                       installed: Option<nat>, calls: seq<QuinnCall>)

  datatype Config = Config(hash: KeyedHash, clients: seq<ClientEntry>)

  datatype Ep = Ep(core: Core, guards: seq<Seen>)

  const EMPTY_CORE := Core(Server, {}, [], map[], map[], map[], map[], 1, [], [], None, None, None, [])

  function NewServer(cfg: Config): Ep {
    Ep(EMPTY_CORE, seq(|cfg.clients|, i => {}))
  }

  // ---------------------------------------------------------------------
  // The connection-ID ledger
  // ---------------------------------------------------------------------

  function Mint(c: Core, cids: seq<Cid>): Core {
    c.(issued := c.issued + Elems(cids), pending := c.pending + cids)
  }

  function OwnedBy(c: Core, h: Handle): seq<Cid> {
    if h in c.cidsByConn then c.cidsByConn[h] else []
  }

  function DrainPending(c: Core, h: Handle): Core {
    if c.pending == [] then c
    else c.(pending := [], cidsByConn := c.cidsByConn[h := OwnedBy(c, h) + c.pending])
  }

  function SweepOrphans(c: Core): Core {
    c.(issued := c.issued - Elems(c.pending), pending := [])
  }

  function PruneCids(c: Core, h: Handle): Core {
    if h in c.cidsByConn
    then c.(issued := c.issued - Elems(c.cidsByConn[h]), cidsByConn := c.cidsByConn - {h})
    else c
  }

  predicate IsActiveDcid(c: Core, data: Bytes) {
    var dcid := ReadDcidAny(data);
    dcid.Some? && dcid.value in c.issued
  }

  // ---------------------------------------------------------------------
  // Admission
  // ---------------------------------------------------------------------

  function AllocateHandle(c: Core, quinn: nat): (Core, Handle) {
    var h := Handle(quinn, c.nextGeneration);
    (c.(nextGeneration := c.nextGeneration + 1, byQuinn := c.byQuinn[quinn := h]), h)
  }

  function Queue(c: Core, destination: Addr, contents: Bytes): Core {
    if contents == [] then c else c.(outbound := c.outbound + [Transmit(destination, contents)])
  }

  function Register(c: Core, h: Handle, clientId: string): Core {
    c.(connections := c.connections[h := EMPTY_BOOK], clientIds := c.clientIds[h := clientId])
  }

  function Admit(c: Core, now: Instant, a: AcceptAnswer, clientId: string): (Core, DatagramOutcome) {
    var m := Mint(c, a.minted).(calls := c.calls + [AcceptCall(now)]);
    match a
    case AcceptOk(quinn, minted, remote, buf) =>
      var (n, h) := AllocateHandle(m, quinn);
      (Register(DrainPending(Queue(n, remote, buf), h), h, clientId), Accepted(h))
    case AcceptFailed(minted) => (m, Dropped)
  }

  const EMPTY_CLIENT := EMPTY_CORE.(role := Client)

  /** A client that has just dialled `dcid`. Its one connection has no client identity, and the dial counts
      as its first servicing. */
  function NewClient(now: Instant, dcid: Bytes, a: ConnectAnswer): (Ep, Handle) {
    var m := Mint(EMPTY_CLIENT.(lastService := Some(now), calls := [ConnectCall(now, dcid)]), a.minted);
    var (n, h) := AllocateHandle(m, a.quinn);
    var d := DrainPending(n, h);
    (Ep(d.(connections := d.connections[h := EMPTY_BOOK], nextTimeout := a.deadline), []), h)
  }

  function ClientIdOf(cfg: Config, i: nat): string {
    if i < |cfg.clients| then cfg.clients[i].clientId else ""
  }

  /** Handing the datagram to the library, before its event is looked at. */
  function Handled(c: Core, now: Instant, from: Addr, data: Bytes, ans: FeedAnswer): Core {
    var m := Mint(c, ans.minted).(calls := c.calls + [HandleCall(now, from, data, c.installed)]);
    if c.role == Server then Queue(m, from, ans.response) else m
  }

  /** The early return: a new connection on an active ID, which nobody admitted. */
  predicate ReturnsEarly(role: Role, admitted: Option<nat>, ans: FeedAnswer) {
    ans.event.NewConnection? && role == Server && admitted == None
  }

  function Feed(cfg: Config, c: Core, now: Instant, from: Addr, data: Bytes, admitted: Option<nat>, ans: FeedAnswer): (Core, DatagramOutcome) {
    var m := Handled(c, now, from, data, ans);
    if ReturnsEarly(c.role, admitted, ans) then (m, Dropped)
    else
      match ans.event
      case NewConnection(accept) =>
        if c.role == Server then
          var (n, outcome) := Admit(m, now, accept, ClientIdOf(cfg, admitted.value));
          (SweepOrphans(n), outcome)
        else (SweepOrphans(m), Dropped)
      case ConnectionEvent(quinn) =>
        (SweepOrphans(m), if quinn in m.byQuinn then Accepted(m.byQuinn[quinn]) else Dropped)
      case Response => (SweepOrphans(m), Dropped)
      case NoEvent => (SweepOrphans(m), Dropped)
  }

  // ---------------------------------------------------------------------
  // Servicing
  // ---------------------------------------------------------------------

  /** The first `j` endpoint events of `h`: each may mint IDs, attributed to `h` at once. */
  function RouteEvents(c: Core, h: Handle, evs: seq<EndpointEvent>, j: nat): Core
    requires j <= |evs|
  {
    if j == 0 then c else DrainPending(Mint(RouteEvents(c, h, evs, j - 1), evs[j - 1].minted), h)
  }

  function Route(c: Core, svc: Service, k: nat): Core
    requires k <= |svc.order|
  {
    if k == 0 then c
    else
      var h := svc.order[k - 1];
      RouteEvents(Route(c, svc, k - 1), h, svc.answer(h).endpointEvents, |svc.answer(h).endpointEvents|)
  }

  function StreamEvents(h: Handle, ids: seq<StreamId>, mk: (Handle, StreamId) -> Event): seq<Event> {
    seq(|ids|, i requires 0 <= i < |ids| => mk(h, ids[i]))
  }

  function ProgressEvents(h: Handle, p: Progress): seq<Event> {
    (if p.connected then [Connected(h)] else [])
    + StreamEvents(h, p.arrived, (c: Handle, id: StreamId) => StreamOpened(c, id))
    + StreamEvents(h, p.readable, (c: Handle, id: StreamId) => StreamReadable(c, id))
    + StreamEvents(h, p.writable, (c: Handle, id: StreamId) => StreamWritable(c, id))
    + StreamEvents(h, p.finAcked, (c: Handle, id: StreamId) => StreamFinAcked(c, id))
    + seq(|p.stopped|, i requires 0 <= i < |p.stopped| => StreamStopped(h, p.stopped[i].0, p.stopped[i].1))
  }

  /** The transmit drain stops at the first empty datagram. */
  function Nonempty(ts: seq<Transmit>): seq<Transmit> {
    if ts == [] || ts[0].contents == [] then [] else [ts[0]] + Nonempty(ts[1..])
  }

  /** A connection is reaped when its event queue said so, or when it is drained. */
  function LossOf(p: Progress, isDrained: bool): Option<Reason> {
    if p.lost.Some? then p.lost else if isDrained then Some(LocallyClosed) else None
  }

  datatype Loss = Loss(conn: Handle, reason: Reason)

  datatype Stage = Stage(connections: map<Handle, Book>, events: seq<Event>, transmits: seq<Transmit>, lost: seq<Loss>)

  function PollOne(s: Stage, h: Handle, a: ConnAnswer): Stage {
    if h !in s.connections then s
    else
      var (b, p) := ServiceStreams(s.connections[h], a.polled);
      var loss := LossOf(p, a.isDrained);
      Stage(s.connections[h := b.(dirty := false)],
            s.events + ProgressEvents(h, p),
            s.transmits + Nonempty(a.datagrams),
            s.lost + if loss.Some? then [Loss(h, loss.value)] else [])
  }

  function Poll(connections: map<Handle, Book>, svc: Service, k: nat): Stage
    requires k <= |svc.order|
  {
    if k == 0 then Stage(connections, [], [], [])
    else PollOne(Poll(connections, svc, k - 1), svc.order[k - 1], svc.answer(svc.order[k - 1]))
  }

  function Reap(c: Core, l: Loss): Core {
    if l.conn !in c.connections then c
    else
      var d := PruneCids(c.(connections := c.connections - {l.conn}, byQuinn := c.byQuinn - {l.conn.quinn},
                            clientIds := c.clientIds - {l.conn}), l.conn);
      d.(events := d.events + [ConnectionLost(l.conn, l.reason)])
  }

  function ReapAll(c: Core, lost: seq<Loss>, k: nat): Core
    requires k <= |lost|
  {
    if k == 0 then c else Reap(ReapAll(c, lost, k - 1), lost[k - 1])
  }

  function Earlier(a: Option<Instant>, b: Option<Instant>): Option<Instant> {
    if a == None then b else if b == None then a else if b.value < a.value then b else a
  }

  /** The earliest deadline among the first `k` connections that are still live. */
  function Earliest(live: set<Handle>, svc: Service, k: nat): Option<Instant>
    requires k <= |svc.order|
  {
    if k == 0 then None
    else
      var rest := Earliest(live, svc, k - 1);
      if svc.order[k - 1] in live then Earlier(rest, svc.answer(svc.order[k - 1]).deadline) else rest
  }

  function Staged(c: Core, s: Stage): Core {
    c.(connections := s.connections, events := c.events + s.events, outbound := c.outbound + s.transmits)
  }

  function Started(c: Core, now: Instant): Core {
    c.(lastService := Some(now), calls := c.calls + [ServiceCall(now)])
  }

  /** One servicing pass: route, poll, queue, reap, sweep, refresh. */
  function ServiceAll(c: Core, now: Instant, svc: Service): Core {
    var r := Route(Started(c, now), svc, |svc.order|);
    var s := Poll(r.connections, svc, |svc.order|);
    var d := SweepOrphans(ReapAll(Staged(r, s), s.lost, |s.lost|));
    d.(nextTimeout := Earliest(d.connections.Keys, svc, |svc.order|))
  }

  // ---------------------------------------------------------------------
  // The public calls
  // ---------------------------------------------------------------------

  /** A public call with everything it depends on. `allowed` is the verdict the rate limiter gives if it
      is asked; `minute` is the wall clock. */
  datatype Input =
    | Datagram(now: Instant, from: Addr, data: Bytes, minute: U32, allowed: bool, feed: FeedAnswer, svc: Service)
    | Timeout(now: Instant, svc: Service)
    | PollTransmit(now: Instant, svc: Service)
    | PollEvent
    | Work(conn: Handle, op: ConnOp)

  datatype Output = Outcome(outcome: DatagramOutcome) | Sent(transmit: Option<Transmit>) | Raised(event: Option<Event>) | Nothing

  /** The silence gate: the guards afterwards, and the client as which the datagram was admitted. */
  function Gate(cfg: Config, e: Ep, i: Input): (seq<Seen>, Option<nat>)
    requires i.Datagram? && |e.guards| == |cfg.clients|
  {
    if !i.allowed then (e.guards, None) else Prefilter(cfg.hash, cfg.clients, e.guards, i.data, i.minute)
  }

  predicate Gated(e: Ep, i: Input)
    requires i.Datagram?
  {
    e.core.role == Server && !IsActiveDcid(e.core, i.data)
  }

  /** Rejected by the limiter or the pre-filter. */
  predicate Rejected(cfg: Config, e: Ep, i: Input)
    requires |e.guards| == |cfg.clients|
  {
    i.Datagram? && Gated(e, i) && Gate(cfg, e, i).1 == None
  }

  function FeedAndService(cfg: Config, c: Core, i: Input, admitted: Option<nat>): (Core, DatagramOutcome)
    requires i.Datagram?
  {
    var (f, outcome) := Feed(cfg, c, i.now, i.from, i.data, admitted, i.feed);
    (ServiceAll(f, i.now, i.svc), outcome)
  }

  function HandleDatagram(cfg: Config, e: Ep, i: Input): (Ep, DatagramOutcome)
    requires i.Datagram? && |e.guards| == |cfg.clients|
  {
    if Gated(e, i) then
      var (guards, client) := Gate(cfg, e, i);
      if client == None then (Ep(e.core, guards), Dropped)
      else
        var (c, outcome) := FeedAndService(cfg, e.core.(installed := client), i, client);
        (Ep(c, guards), outcome)
    else
      var (c, outcome) := FeedAndService(cfg, e.core, i, None);
      (Ep(c, e.guards), outcome)
  }

  function PopTransmit(c: Core): (Core, Option<Transmit>) {
    if c.outbound == [] then (c, None) else (c.(outbound := c.outbound[1..]), Some(c.outbound[0]))
  }

  function DoPollTransmit(c: Core, now: Instant, svc: Service): (Core, Option<Transmit>) {
    if c.outbound != [] then PopTransmit(c) else PopTransmit(ServiceAll(c, now, svc))
  }

  function DoPollEvent(c: Core): (Core, Option<Event>) {
    if c.events == [] then (c, None) else (c.(events := c.events[1..]), Some(c.events[0]))
  }

  function DoWork(c: Core, h: Handle, op: ConnOp): Core {
    if h !in c.connections then c
    else c.(connections := c.connections[h := ApplyOp(c.connections[h], op)], calls := c.calls + [WorkCall(h, op)])
  }

  function DoTimeout(c: Core, now: Instant, svc: Service): Core {
    ServiceAll(c.(calls := c.calls + [TimeoutCall(now)]), now, svc)
  }

  function StepOf(cfg: Config, e: Ep, i: Input): (Ep, Output)
    requires |e.guards| == |cfg.clients|
  {
    match i
    case Datagram(_, _, _, _, _, _, _) =>
      var (n, outcome) := HandleDatagram(cfg, e, i);
      (n, Outcome(outcome))
    case Timeout(now, svc) => (e.(core := DoTimeout(e.core, now, svc)), Nothing)
    case PollTransmit(now, svc) =>
      var (c, t) := DoPollTransmit(e.core, now, svc);
      (e.(core := c), Sent(t))
    case PollEvent =>
      var (c, ev) := DoPollEvent(e.core);
      (e.(core := c), Raised(ev))
    case Work(h, op) => (e.(core := DoWork(e.core, h, op)), Nothing)
  }

  predicate AnyDirty(c: Core) {
    exists h :: h in c.connections && c.connections[h].dirty
  }

  /** The deadline the caller should sleep until. */
  function NextTimeout(c: Core): Option<Instant> {
    if AnyDirty(c) then (if c.lastService.Some? then c.lastService else c.nextTimeout) else c.nextTimeout
  }
}
