/** The streams of one connection, as the QUIC library holds them, and what the non-blocking and the
    parked operations on them amount to. */
module StreamSpec {
  import opened Base
  import opened ByteCodec
  import opened Admission
  import opened ConnSpec

  /** A receive half: what has arrived and not been read, whether FIN follows it, or the peer's reset. */
  datatype RecvHalf = RecvHalf(buffered: Bytes, fin: bool, reset: Option<nat>)

  /** A send half: what the library has taken, the credit left, FIN, or the peer's STOP_SENDING. */
  datatype SendHalf = SendHalf(sent: Bytes, credit: nat, finished: bool, stopped: Option<nat>)

  /** The library frees a receive half once FIN or a reset has been read; a freed half is not in the map. */
  datatype Streams = Streams(recv: map<StreamId, RecvHalf>, send: map<StreamId, SendHalf>, incoming: seq<StreamId>, closed: bool,
                             openable: seq<StreamId>)

  /** The core's connection: bookkeeping and streams. */
  datatype CoreConn = CoreConn(book: Book, streams: Streams)

  datatype ReadOutcome = ReadSome(n: nat) | ReadBlocked | ReadFinished

  datatype WriteOutcome = Wrote(n: nat) | WriteBlocked

  // ---------------------------------------------------------------------
  // Reading
  // ---------------------------------------------------------------------

  /** One non-blocking read into a buffer of `len` bytes: the connection afterwards, the answer, the bytes. */
  function StreamRead(c: CoreConn, id: StreamId, len: nat): (CoreConn, Result<ReadOutcome, ConnError>, Bytes) {
    if id in c.book.finishedReads then (c, Ok(ReadFinished), [])
    else if len == 0 then (c, Ok(ReadBlocked), [])
    else
      var d := c.(book := Marked(c.book));
      if id !in c.streams.recv then (d, Err(ClosedStream), [])
      else
        var half := c.streams.recv[id];
        if half.reset.Some? then
          (d.(streams := c.streams.(recv := c.streams.recv - {id})), Err(PeerReset(half.reset.value)), [])
        else
          var n := Min(len, |half.buffered|);
          var bytes := half.buffered[..n];
          var hitFin := n < len && half.fin;
          (Taken(d, id, half, n, hitFin),
           Ok(if n > 0 then ReadSome(n) else if hitFin then ReadFinished else ReadBlocked), bytes)
  }

  /** `n` bytes of a half are read; at FIN the half is freed and its end remembered. */
  function Taken(d: CoreConn, id: StreamId, half: RecvHalf, n: nat, hitFin: bool): CoreConn
    requires n <= |half.buffered|
  {
    if hitFin
    then CoreConn(d.book.(finishedReads := d.book.finishedReads + {id}), d.streams.(recv := d.streams.recv - {id}))
    else d.(streams := d.streams.(recv := d.streams.recv[id := half.(buffered := half.buffered[n..])]))
  }

  function Forgotten(c: CoreConn, id: StreamId): CoreConn {
    c.(book := c.book.(finishedReads := c.book.finishedReads - {id}))
  }

  /** What a parked read wants: everything up to FIN within a limit, or the first chunk of at most `max`. */
  datatype ReadGoal = ToEnd(limit: nat) | UpTo(max: nat)

  const READ_CHUNK: nat := 16384

  /** A read to FIN that has gathered `buf`, offered to the core once more: the connection afterwards, the
      bytes gathered, and the answer if there is one. This is the net effect, whatever the chunking. */
  function PumpedToEnd(c: CoreConn, id: StreamId, buf: Bytes, limit: nat): (CoreConn, Bytes, Option<Result<Bytes, ConnError>>) {
    if id in c.book.finishedReads then (Forgotten(c, id), buf, Some(Ok(buf)))
    else
      var d := c.(book := Marked(c.book));
      if id !in c.streams.recv then (d, buf, Some(Err(ClosedStream)))
      else
        var half := c.streams.recv[id];
        if half.reset.Some? then
          (d.(streams := c.streams.(recv := c.streams.recv - {id})), buf, Some(Err(PeerReset(half.reset.value))))
        else if half.buffered != [] && |buf| + |half.buffered| > limit then
          var n := Max(1, limit + 1 - |buf|);
          (Taken(d, id, half, n, false), buf + half.buffered[..n], Some(Err(ReadLimitExceeded(limit))))
        else if half.fin then
          (Forgotten(Taken(d, id, half, |half.buffered|, true), id), buf + half.buffered, Some(Ok(buf + half.buffered)))
        else (Taken(d, id, half, |half.buffered|, false), buf + half.buffered, None)
  }

  function PumpedUpTo(c: CoreConn, id: StreamId, max: nat): (CoreConn, Option<Result<Bytes, ConnError>>) {
    var (d, r, bytes) := StreamRead(c, id, Max(1, Min(max, READ_CHUNK)));
    (d, match r
        case Ok(ReadSome(_)) => Some(Ok(bytes))
        case Ok(ReadFinished) => Some(Ok([]))
        case Ok(ReadBlocked) => None
        case Err(e) => Some(Err(e)))
  }

  // ---------------------------------------------------------------------
  // Writing
  // ---------------------------------------------------------------------

  /** The library's answer to a write of `n` bytes of `data`; `n` is its choice within the credit. */
  function StreamWrite(c: CoreConn, id: StreamId, data: Bytes, n: nat): (CoreConn, Result<WriteOutcome, ConnError>)
    requires CanWrite(c.streams, id, data) ==> 1 <= n <= Min(c.streams.send[id].credit, |data|)
  {
    if data == [] then (c, Ok(Wrote(0)))
    else
      var d := c.(book := Marked(c.book));
      if id !in c.streams.send || c.streams.send[id].finished then (d, Err(ClosedStream))
      else
        var half := c.streams.send[id];
        if half.stopped.Some? then (d, Err(PeerStopped(half.stopped.value)))
        else if half.credit == 0 then (d, Ok(WriteBlocked))
        else (Given(d, id, half, data[..n]), Ok(Wrote(n)))
  }

  predicate CanWrite(s: Streams, id: StreamId, data: Bytes) {
    && data != [] && id in s.send
    && !s.send[id].finished && s.send[id].stopped == None && s.send[id].credit > 0
  }

  function Given(d: CoreConn, id: StreamId, half: SendHalf, bytes: Bytes): CoreConn
    requires |bytes| <= half.credit
  {
    d.(streams := d.streams.(send := d.streams.send[id := half.(sent := half.sent + bytes, credit := half.credit - |bytes|)]))
  }

  /** A write of `data` of which `offset` bytes are in, offered once more: the net effect. */
  function PumpedWrite(c: CoreConn, id: StreamId, data: Bytes, offset: nat): (CoreConn, nat, Option<Result<(), ConnError>>)
    requires offset <= |data|
  {
    if offset == |data| then (c, offset, Some(Ok(())))
    else
      var d := c.(book := Marked(c.book));
      if id !in c.streams.send || c.streams.send[id].finished then (d, offset, Some(Err(ClosedStream)))
      else
        var half := c.streams.send[id];
        if half.stopped.Some? then (d, offset, Some(Err(PeerStopped(half.stopped.value))))
        else
          var n := Min(half.credit, |data| - offset);
          (Given(d, id, half, data[offset..offset + n]), offset + n,
           if offset + n == |data| then Some(Ok(())) else None)
  }

  // ---------------------------------------------------------------------
  // The other operations
  // ---------------------------------------------------------------------

  function OpenStream(c: CoreConn): (CoreConn, Result<StreamId, ConnError>) {
    if c.streams.closed then (c, Err(Closed))
    else if c.streams.openable == [] then (c, Err(ClosedStream))
    else (c.(streams := c.streams.(openable := c.streams.openable[1..])), Ok(c.streams.openable[0]))
  }

  function AcceptStream(c: CoreConn): (CoreConn, Option<StreamId>) {
    if c.book.readyAccepts != [] then
      (c.(book := c.book.(readyAccepts := c.book.readyAccepts[1..])), Some(c.book.readyAccepts[0]))
    else if c.streams.incoming != [] then
      (c.(streams := c.streams.(incoming := c.streams.incoming[1..])), Some(c.streams.incoming[0]))
    else (c, None)
  }

  /** What the library answers to `finish`. */
  function FinishAnswerOf(s: Streams, id: StreamId): FinishAnswer {
    if id !in s.send || s.send[id].finished then FinishClosed
    else if s.send[id].stopped.Some? then FinishStopped(s.send[id].stopped.value)
    else FinishOk
  }

  function StreamFinish(c: CoreConn, id: StreamId): (CoreConn, Result<(), ConnError>) {
    if id in c.book.sendFins then
      (c, Err(if c.book.sendFins[id].Stopped? then PeerStopped(c.book.sendFins[id].code) else ClosedStream))
    else
      var a := FinishAnswerOf(c.streams, id);
      (CoreConn(AfterFinish(c.book, id, a),
                if a.FinishOk? then c.streams.(send := c.streams.send[id := c.streams.send[id].(finished := true)]) else c.streams),
       match a
       case FinishOk => Ok(())
       case FinishStopped(code) => Err(PeerStopped(code))
       case FinishClosed => Err(ClosedStream))
  }

  function StreamReset(c: CoreConn, id: StreamId, code: nat): (CoreConn, Result<(), ConnError>) {
    if !IsVarint(code) then (c, Err(InvalidErrorCode(code)))
    else
      (CoreConn(AfterReset(c.book, id, code), c.streams.(send := c.streams.send - {id})),
       if id in c.streams.send then Ok(()) else Err(ClosedStream))
  }

  function StreamStop(c: CoreConn, id: StreamId, code: nat): (CoreConn, Result<(), ConnError>) {
    if !IsVarint(code) then (c, Err(InvalidErrorCode(code)))
    else
      (CoreConn(AfterStop(c.book, id, code), c.streams.(recv := c.streams.recv - {id})),
       if id in c.streams.recv then Ok(()) else Err(ClosedStream))
  }

  function ReleaseSend(c: CoreConn, id: StreamId): CoreConn {
    c.(book := c.book.(sendFins := c.book.sendFins - {id}))
  }

  // ---------------------------------------------------------------------
  // The bookkeeping of an operation is the work step of the endpoint
  // ---------------------------------------------------------------------

  /** Does a read of `len` bytes run into FIN? */
  predicate HitsFin(s: Streams, id: StreamId, len: nat) {
    id in s.recv && s.recv[id].reset.None? && |s.recv[id].buffered| < len && s.recv[id].fin
  }

  /** A call on a stream, as the caller makes it. */
  datatype StreamCall =
    | CallOpen
    | CallAccept
    | CallRead(id: StreamId, len: nat)
    | CallWrite(id: StreamId, data: Bytes, n: nat)
    | CallFinish(id: StreamId)
    | CallReset(id: StreamId, code: nat)
    | CallStop(id: StreamId, code: nat)
    | CallForgetRecv(id: StreamId)
    | CallForgetSend(id: StreamId)

  /** The connection after a call. */
  function Called(c: CoreConn, call: StreamCall): CoreConn
    requires call.CallWrite? && CanWrite(c.streams, call.id, call.data) ==>
               1 <= call.n <= Min(c.streams.send[call.id].credit, |call.data|)
  {
    match call
    case CallOpen => OpenStream(c).0
    case CallAccept => AcceptStream(c).0
    case CallRead(id, len) => StreamRead(c, id, len).0
    case CallWrite(id, data, n) => StreamWrite(c, id, data, n).0
    case CallFinish(id) => StreamFinish(c, id).0
    case CallReset(id, code) => StreamReset(c, id, code).0
    case CallStop(id, code) => StreamStop(c, id, code).0
    case CallForgetRecv(id) => Forgotten(c, id)
    case CallForgetSend(id) => ReleaseSend(c, id)
  }

  /** The same call as work on the bookkeeping, with the library's answer. */
  function WorkOf(c: CoreConn, call: StreamCall): ConnOp {
    match call
    case CallOpen => OpenBi
    case CallAccept => AcceptBi
    case CallRead(id, len) => Read(id, len, HitsFin(c.streams, id, len))
    case CallWrite(id, data, _) => Write(id, |data|)
    case CallFinish(id) => Finish(id, FinishAnswerOf(c.streams, id))
    case CallReset(id, code) => Reset(id, code)
    case CallStop(id, code) => Stop(id, code)
    case CallForgetRecv(id) => ForgetRecv(id)
    case CallForgetSend(id) => ForgetSend(id)
  }

  /** Every call on a stream leaves the bookkeeping as the work step does on which deadlines and send facts are
      proved: the two definitions agree. */
  lemma CallIsWork(c: CoreConn, call: StreamCall)
    requires call.CallWrite? && CanWrite(c.streams, call.id, call.data) ==>
               1 <= call.n <= Min(c.streams.send[call.id].credit, |call.data|)
    ensures Called(c, call).book == ApplyOp(c.book, WorkOf(c, call))
  {
  }
}
