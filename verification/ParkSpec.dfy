/** Operations that wait: what a handle's command does, at once or parked, and what each event does to
    the parked ones. Replies are identified by number; a sent or dropped reply is recorded in `answers`. */
module ParkSpec {
  import opened Base
  import opened ByteCodec
  import opened Admission
  import opened ConnSpec
  import opened StreamSpec

  type Reply = nat

  datatype Answer = GotStream(id: StreamId) | Done | GotBytes(bytes: Bytes) | Failed(error: ConnError)

  datatype PendingWrite = PendingWrite(data: Bytes, offset: nat, reply: Reply)

  datatype PendingRead = PendingRead(buf: Bytes, goal: ReadGoal, reply: Reply)

  datatype Park = Park(accepts: seq<Reply>, writes: map<StreamId, PendingWrite>, readers: map<StreamId, PendingRead>,
                       fins: map<StreamId, seq<Reply>>, answers: seq<(Reply, Answer)>)

  const EMPTY_PARK := Park([], map[], map[], map[], [])

  datatype Cmd =
    | OpenCmd(reply: Reply)
    | AcceptCmd(reply: Reply)
    | WriteCmd(id: StreamId, data: Bytes, reply: Reply)
    | FinishCmd(id: StreamId, reply: Reply)
    | WaitCmd(id: StreamId, reply: Reply)
    | ResetCmd(id: StreamId, code: nat, reply: Reply)
    | StopCmd(id: StreamId, code: nat, reply: Reply)
    | ReleaseCmd(id: StreamId)
    | ReadToEndCmd(id: StreamId, limit: nat, reply: Reply)
    | ReadCmd(id: StreamId, max: nat, reply: Reply)
    | CloseCmd

  /** The reply a command carries, if any. */
  function ReplyOf(cmd: Cmd): Option<Reply> {
    if cmd.ReleaseCmd? || cmd.CloseCmd? then None else Some(cmd.reply)
  }

  function Send(p: Park, r: Reply, a: Answer): Park {
    p.(answers := p.answers + [(r, a)])
  }

  function SendAll(p: Park, rs: seq<Reply>, a: Answer): Park {
    if rs == [] then p else Send(SendAll(p, rs[..|rs| - 1], a), rs[|rs| - 1], a)
  }

  function UnitAnswer(r: Result<(), ConnError>): Answer {
    match r case Ok(_) => Done case Err(e) => Failed(e)
  }

  function BytesAnswer(r: Result<Bytes, ConnError>): Answer {
    match r case Ok(b) => GotBytes(b) case Err(e) => Failed(e)
  }

  function IdAnswer(r: Result<StreamId, ConnError>): Answer {
    match r case Ok(id) => GotStream(id) case Err(e) => Failed(e)
  }

  // ---------------------------------------------------------------------
  // Parking; a parked operation that is overwritten drops its reply, which its waiter sees as `Closed`
  // ---------------------------------------------------------------------

  function DropWrite(p: Park, id: StreamId, e: ConnError): Park {
    if id in p.writes then Send(p.(writes := p.writes - {id}), p.writes[id].reply, Failed(e)) else p
  }

  function DropRead(p: Park, id: StreamId, e: ConnError): Park {
    if id in p.readers then Send(p.(readers := p.readers - {id}), p.readers[id].reply, Failed(e)) else p
  }

  function DropFins(p: Park, id: StreamId, a: Answer): Park {
    if id in p.fins then SendAll(p.(fins := p.fins - {id}), p.fins[id], a) else p
  }

  function ParkWrite(p: Park, id: StreamId, w: PendingWrite): Park {
    var q := DropWrite(p, id, Closed);
    q.(writes := q.writes[id := w])
  }

  function ParkRead(p: Park, id: StreamId, r: PendingRead): Park {
    var q := DropRead(p, id, Closed);
    q.(readers := q.readers[id := r])
  }

  function ParkFin(p: Park, id: StreamId, r: Reply): Park {
    p.(fins := p.fins[id := (if id in p.fins then p.fins[id] else []) + [r]])
  }

  // ---------------------------------------------------------------------
  // Offering
  // ---------------------------------------------------------------------

  function OfferWrite(c: CoreConn, p: Park, id: StreamId, w: PendingWrite): (CoreConn, Park) {
    if w.offset > |w.data| then (c, Send(p, w.reply, Done))
    else
      var (d, offset, answer) := PumpedWrite(c, id, w.data, w.offset);
      (d, if answer.Some? then Send(p, w.reply, UnitAnswer(answer.value)) else ParkWrite(p, id, w.(offset := offset)))
  }

  function PumpedRead(c: CoreConn, id: StreamId, r: PendingRead): (CoreConn, Bytes, Option<Result<Bytes, ConnError>>) {
    match r.goal
    case ToEnd(limit) => PumpedToEnd(c, id, r.buf, limit)
    case UpTo(max) => var (d, answer) := PumpedUpTo(c, id, max); (d, r.buf, answer)
  }

  function OfferRead(c: CoreConn, p: Park, id: StreamId, r: PendingRead): (CoreConn, Park) {
    var (d, buf, answer) := PumpedRead(c, id, r);
    (d, if answer.Some? then Send(p, r.reply, BytesAnswer(answer.value)) else ParkRead(p, id, r.(buf := buf)))
  }

  // ---------------------------------------------------------------------
  // Commands
  // ---------------------------------------------------------------------

  function WaitAnswer(f: Option<SendFin>): Option<Answer> {
    match f
    case Some(Acked) => Some(Done)
    case Some(Stopped(code)) => Some(Failed(PeerStopped(code)))
    case Some(Queued) => None
    case None => Some(Failed(ClosedStream))
  }

  function FactOf(b: Book, id: StreamId): Option<SendFin> {
    if id in b.sendFins then Some(b.sendFins[id]) else None
  }

  function Apply(c: CoreConn, p: Park, cmd: Cmd): (CoreConn, Park) {
    match cmd
    case OpenCmd(r) => var (d, a) := OpenStream(c); (d, Send(p, r, IdAnswer(a)))
    case AcceptCmd(r) =>
      var (d, a) := AcceptStream(c);
      (d, if a.Some? then Send(p, r, GotStream(a.value)) else p.(accepts := p.accepts + [r]))
    case WriteCmd(id, data, r) => OfferWrite(c, p, id, PendingWrite(data, 0, r))
    case FinishCmd(id, r) => var (d, a) := StreamFinish(c, id); (d, Send(p, r, UnitAnswer(a)))
    case WaitCmd(id, r) =>
      var a := WaitAnswer(FactOf(c.book, id));
      (c, if a.Some? then Send(p, r, a.value) else ParkFin(p, id, r))
    case ResetCmd(id, code, r) =>
      var (d, a) := StreamReset(c, id, code);
      var q := if a.Ok? then DropWrite(DropFins(p, id, Failed(ClosedStream)), id, ClosedStream) else p;
      (d, Send(q, r, UnitAnswer(a)))
    case StopCmd(id, code, r) =>
      var (d, a) := StreamStop(c, id, code);
      var q := if a.Ok? then DropRead(p, id, ClosedStream) else p;
      (d, Send(q, r, UnitAnswer(a)))
    case ReleaseCmd(id) => (ReleaseSend(c, id), p)
    case ReadToEndCmd(id, limit, r) => OfferRead(c, p, id, PendingRead([], ToEnd(limit), r))
    case ReadCmd(id, max, r) => OfferRead(c, p, id, PendingRead([], UpTo(Max(max, 1)), r))
    case CloseCmd => (c, p)
  }

  // ---------------------------------------------------------------------
  // Events
  // ---------------------------------------------------------------------

  function OnStreamOpened(c: CoreConn, p: Park): (CoreConn, Park)
    decreases |p.accepts|
  {
    if p.accepts == [] then (c, p)
    else
      var (d, a) := AcceptStream(c);
      if a == None then (d, p)
      else OnStreamOpened(d, Send(p.(accepts := p.accepts[1..]), p.accepts[0], GotStream(a.value)))
  }

  function OnReadable(c: CoreConn, p: Park, id: StreamId): (CoreConn, Park) {
    if id in p.readers then OfferRead(c, p.(readers := p.readers - {id}), id, p.readers[id]) else (c, p)
  }

  function OnWritable(c: CoreConn, p: Park, id: StreamId): (CoreConn, Park) {
    if id in p.writes then OfferWrite(c, p.(writes := p.writes - {id}), id, p.writes[id]) else (c, p)
  }

  function OnFinAcked(p: Park, id: StreamId): Park {
    DropFins(p, id, Done)
  }

  function OnStopped(c: CoreConn, p: Park, id: StreamId, code: nat): (CoreConn, Park) {
    OnWritable(c, DropFins(p, id, Failed(PeerStopped(code))), id)
  }

  // ---------------------------------------------------------------------
  // Failing everything; the maps are drained in whatever order they yield
  // ---------------------------------------------------------------------

  function FailWrites(p: Park, order: seq<StreamId>): Park {
    if order == [] then p else DropWrite(FailWrites(p, order[..|order| - 1]), order[|order| - 1], Closed)
  }

  function FailReads(p: Park, order: seq<StreamId>): Park {
    if order == [] then p else DropRead(FailReads(p, order[..|order| - 1]), order[|order| - 1], Closed)
  }

  function FailFins(p: Park, order: seq<StreamId>): Park {
    if order == [] then p else DropFins(FailFins(p, order[..|order| - 1]), order[|order| - 1], Failed(Closed))
  }

  /** The orders in which the three maps yield their keys. */
  datatype DrainOrder = DrainOrder(writes: seq<StreamId>, readers: seq<StreamId>, fins: seq<StreamId>)

  ghost predicate Covers(p: Park, o: DrainOrder) {
    Elems(o.writes) == p.writes.Keys && Elems(o.readers) == p.readers.Keys && Elems(o.fins) == p.fins.Keys
  }

  function FailAccepts(p: Park): Park {
    SendAll(p.(accepts := []), p.accepts, Failed(Closed))
  }

  function FailAll(p: Park, o: DrainOrder): Park {
    FailFins(FailReads(FailWrites(FailAccepts(p), o.writes), o.readers), o.fins)
  }
}
