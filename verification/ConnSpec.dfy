/** One connection's stream bookkeeping, as a value, and what each operation does to it. The answers
    of the underlying QUIC connection are arguments. */
module ConnSpec {
  import opened Base

  type StreamId = nat

  /** Why a connection ended: closed by us, or by a remote or transport cause. */
  datatype Reason = LocallyClosed | Remote(code: nat)

  datatype SendFin = Queued | Acked | Stopped(code: nat)

  datatype ConnError =
    | Closed
    | PeerStopped(code: nat)
    | PeerReset(code: nat)
    | ClosedStream
    | ReadLimitExceeded(limit: nat)
    | InvalidErrorCode(code: nat)

  /** Application error codes are QUIC varints. */
  predicate IsVarint(code: nat) {
    code < 0x4000_0000_0000_0000
  }

  datatype Book = Book(readyAccepts: seq<StreamId>, finishedReads: set<StreamId>, sendFins: map<StreamId, SendFin>, dirty: bool)

  const EMPTY_BOOK := Book([], {}, map[], false)

  /** What the connection's event queue yields; `Opened` carries the streams accepted on the spot. */
  datatype ConnEvent =
    | HandshakeDone
    | Lost(reason: Reason)
    | Opened(ids: seq<StreamId>)
    | Readable(id: StreamId)
    | Writable(id: StreamId)
    | Finished(id: StreamId)
    | StoppedByPeer(id: StreamId, code: nat)
    | Ignored

  datatype Progress = Progress(connected: bool, lost: Option<Reason>, arrived: seq<StreamId>, readable: seq<StreamId>,
                               writable: seq<StreamId>, finAcked: seq<StreamId>, stopped: seq<(StreamId, nat)>)

  const NO_PROGRESS := Progress(false, None, [], [], [], [], [])

  predicate Terminal(f: SendFin) {
    f != Queued
  }

  /** Record a fact unless a terminal one is there; say whether it is to be reported. */
  function RecordSendFin(b: Book, id: StreamId, fact: SendFin): (Book, bool) {
    if id in b.sendFins && Terminal(b.sendFins[id]) then (b, false)
    else (b.(sendFins := b.sendFins[id := fact]), Terminal(fact))
  }

  function ServeEvent(b: Book, p: Progress, ev: ConnEvent): (Book, Progress) {
    match ev
    case HandshakeDone => (b, p.(connected := true))
    case Lost(reason) => (b, p.(lost := Some(reason)))
    case Opened(ids) => (b.(readyAccepts := b.readyAccepts + ids), p.(arrived := p.arrived + ids))
    case Readable(id) => (b, p.(readable := p.readable + [id]))
    case Writable(id) => (b, p.(writable := p.writable + [id]))
    case Finished(id) =>
      var (c, news) := RecordSendFin(b, id, Acked);
      (c, if news then p.(finAcked := p.finAcked + [id]) else p)
    case StoppedByPeer(id, code) =>
      var (c, news) := RecordSendFin(b, id, Stopped(code));
      (c, if news then p.(stopped := p.stopped + [(id, code)]) else p)
    case Ignored => (b, p)
  }

  /** Drain the event queue `evs`. */
  function ServiceStreams(b: Book, evs: seq<ConnEvent>): (Book, Progress) {
    if evs == [] then (b, NO_PROGRESS)
    else
      var n := |evs| - 1;
      var (c, p) := ServiceStreams(b, evs[..n]);
      ServeEvent(c, p, evs[n])
  }

  datatype FinishAnswer = FinishOk | FinishStopped(code: nat) | FinishClosed

  /** The caller's stream work, with what the connection answered. */
  datatype ConnOp =
    | OpenBi
    | AcceptBi
    | Read(id: StreamId, len: nat, hitFin: bool)
    | Write(id: StreamId, len: nat)
    | Finish(id: StreamId, answer: FinishAnswer)
    | Reset(id: StreamId, code: nat)
    | Stop(id: StreamId, code: nat)
    | ForgetRecv(id: StreamId)
    | ForgetSend(id: StreamId)
    | Close

  function Marked(b: Book): Book {
    b.(dirty := true)
  }

  function AfterRead(b: Book, id: StreamId, len: nat, hitFin: bool): Book {
    if id in b.finishedReads || len == 0 then b
    else if hitFin then Marked(b).(finishedReads := b.finishedReads + {id})
    else Marked(b)
  }

  function AfterFinish(b: Book, id: StreamId, answer: FinishAnswer): Book {
    if id in b.sendFins then b
    else
      match answer
      case FinishOk => Marked(b).(sendFins := b.sendFins[id := Queued])
      case FinishStopped(code) => RecordSendFin(Marked(b), id, Stopped(code)).0
      case FinishClosed => Marked(b)
  }

  function AfterReset(b: Book, id: StreamId, code: nat): Book {
    if !IsVarint(code) then b
    else Marked(b).(finishedReads := b.finishedReads - {id}, sendFins := b.sendFins - {id})
  }

  function AfterStop(b: Book, id: StreamId, code: nat): Book {
    if !IsVarint(code) then b else Marked(b).(finishedReads := b.finishedReads - {id})
  }

  function ApplyOp(b: Book, op: ConnOp): Book {
    match op
    case OpenBi => b
    case AcceptBi => if b.readyAccepts == [] then b else b.(readyAccepts := b.readyAccepts[1..])
    case Read(id, len, hitFin) => AfterRead(b, id, len, hitFin)
    case Write(id, len) => if len == 0 then b else Marked(b)
    case Finish(id, answer) => AfterFinish(b, id, answer)
    case Reset(id, code) => AfterReset(b, id, code)
    case Stop(id, code) => AfterStop(b, id, code)
    case ForgetRecv(id) => b.(finishedReads := b.finishedReads - {id})
    case ForgetSend(id) => b.(sendFins := b.sendFins - {id})
    case Close => b
  }
}
