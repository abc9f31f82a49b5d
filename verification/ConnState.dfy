/** The core's connection state as the program keeps it, over a model of the library's streams. */
module ConnState {
  import opened Base
  import opened ByteCodec
  import opened Admission
  import opened ConnSpec
  import opened StreamSpec

  datatype Chunk = Data(bytes: Bytes) | EndOfStream | NoData | WasReset(code: nat)

  /** The library's connection, as far as streams go. How it cuts what it has into chunks, and how much of
      a write it takes at a time, is its own choice. */
  class LibraryConn {
    var streams: Streams

    constructor (streams: Streams)
      ensures this.streams == streams
    {
      this.streams := streams;
    }

    /** The next piece of what has arrived, of at most `max` bytes. */
    method NextChunk(id: StreamId, max: nat) returns (r: Chunk)
      requires id in streams.recv && max > 0
      modifies this
      ensures var half := old(streams).recv[id];
              match r
              case WasReset(code) => half.reset == Some(code) && streams == old(streams).(recv := old(streams).recv - {id})
              case NoData => half.reset == None && half.buffered == [] && !half.fin && streams == old(streams)
              case EndOfStream => half.reset == None && half.buffered == [] && half.fin && streams == old(streams).(recv := old(streams).recv - {id})
              case Data(b) =>
                && half.reset == None && 1 <= |b| <= max && b <= half.buffered
                && streams == old(streams).(recv := old(streams).recv[id := half.(buffered := half.buffered[|b|..])])
    {
      var half := streams.recv[id];
      if half.reset.Some? {
        streams := streams.(recv := streams.recv - {id});
        return WasReset(half.reset.value);
      }
      if half.buffered == [] {
        if half.fin {
          streams := streams.(recv := streams.recv - {id});
          return EndOfStream;
        }
        return NoData;
      }
      var n :| 1 <= n <= max && n <= |half.buffered|;
      streams := streams.(recv := streams.recv[id := half.(buffered := half.buffered[n..])]);
      return Data(half.buffered[..n]);
    }

    /** Take some of `data`, at least one byte, within the credit. */
    method Accept(id: StreamId, data: Bytes) returns (n: nat)
      requires CanWrite(streams, id, data)
      modifies this
      ensures 1 <= n <= Min(old(streams).send[id].credit, |data|)
      ensures var half := old(streams).send[id];
              streams == old(streams).(send := old(streams).send[id := half.(sent := half.sent + data[..n], credit := half.credit - n)])
    {
      var half := streams.send[id];
      n :| 1 <= n <= half.credit && n <= |data|;
      streams := streams.(send := streams.send[id := half.(sent := half.sent + data[..n], credit := half.credit - n)]);
    }

    method Finish(id: StreamId) returns (a: FinishAnswer)
      modifies this
      ensures a == FinishAnswerOf(old(streams), id)
      ensures streams == if a.FinishOk? then old(streams).(send := old(streams).send[id := old(streams).send[id].(finished := true)])
                         else old(streams)
    {
      a := FinishAnswerOf(streams, id);
      if a.FinishOk? {
        streams := streams.(send := streams.send[id := streams.send[id].(finished := true)]);
      }
    }
  }

  class ConnState {
    const conn: LibraryConn
    var readyAccepts: seq<StreamId>
    var finishedReads: set<StreamId>
    var sendFins: map<StreamId, SendFin>
    var dirty: bool

    ghost function View(): CoreConn
      reads this, conn
    {
      CoreConn(Book(readyAccepts, finishedReads, sendFins, dirty), conn.streams)
    }

    constructor (conn: LibraryConn)
      ensures this.conn == conn && View() == CoreConn(EMPTY_BOOK, conn.streams)
    {
      this.conn := conn;
      readyAccepts, finishedReads, sendFins, dirty := [], {}, map[], false;
    }

    /** Copy chunks until `len` bytes are there, or the library has no more for now, or ever. */
    method Fill(id: StreamId, len: nat) returns (bytes: Bytes, finished: bool, errored: Option<ConnError>)
      requires id in conn.streams.recv && len > 0
      modifies conn
      ensures var half := old(conn.streams).recv[id];
              if half.reset.Some? then
                && bytes == [] && !finished && errored == Some(PeerReset(half.reset.value))
                && conn.streams == old(conn.streams).(recv := old(conn.streams).recv - {id})
              else
                var n := Min(len, |half.buffered|);
                && bytes == half.buffered[..n] && finished == (n < len && half.fin) && errored == None
                && conn.streams == old(conn.streams).(recv := if finished then old(conn.streams).recv - {id}
                                                      else old(conn.streams).recv[id := half.(buffered := half.buffered[n..])])
    {
      bytes, finished, errored := [], false, None;
      ghost var half := conn.streams.recv[id];
      ghost var start := conn.streams;
      while |bytes| < len
        invariant |bytes| <= len && bytes <= half.buffered && !finished && errored == None
        invariant half.reset.Some? ==> bytes == []
        invariant id in conn.streams.recv && conn.streams.recv[id] == half.(buffered := half.buffered[|bytes|..])
        invariant conn.streams == start.(recv := start.recv[id := half.(buffered := half.buffered[|bytes|..])])
      {
        var chunk := conn.NextChunk(id, len - |bytes|);
        match chunk {
          case Data(b) =>
            assert half.buffered[|bytes|..][|b|..] == half.buffered[|bytes + b|..];
            bytes := bytes + b;
          case EndOfStream =>
            finished := true;
            return;
          case NoData =>
            return;
          case WasReset(code) =>
            errored := Some(PeerReset(code));
            return;
        }
      }
    }

    /** Read whatever is buffered, up to `len` bytes. */
    method Read(id: StreamId, len: nat) returns (r: Result<ReadOutcome, ConnError>, bytes: Bytes)
      modifies this, conn
      ensures View() == StreamRead(old(View()), id, len).0
      ensures r == StreamRead(old(View()), id, len).1 && bytes == StreamRead(old(View()), id, len).2
    {
      bytes := [];
      if id in finishedReads {
        return Ok(ReadFinished), bytes;
      }
      if len == 0 {
        return Ok(ReadBlocked), bytes;
      }
      dirty := true;
      if id !in conn.streams.recv {
        return Err(ClosedStream), bytes;
      }
      var finished, errored;
      bytes, finished, errored := Fill(id, len);
      if finished {
        finishedReads := finishedReads + {id};
      }
      if |bytes| > 0 {
        return Ok(ReadSome(|bytes|)), bytes;
      }
      if errored.Some? {
        return Err(errored.value), bytes;
      }
      return Ok(if finished then ReadFinished else ReadBlocked), bytes;
    }

    /** Offer `data`; as much as the credit allows may be taken. */
    method Write(id: StreamId, data: Bytes) returns (r: Result<WriteOutcome, ConnError>, ghost n: nat)
      modifies this, conn
      ensures CanWrite(old(conn.streams), id, data) ==> 1 <= n <= Min(old(conn.streams).send[id].credit, |data|)
      ensures View() == StreamWrite(old(View()), id, data, n).0 && r == StreamWrite(old(View()), id, data, n).1
    {
      n := 0;
      if data == [] {
        return Ok(Wrote(0)), n;
      }
      dirty := true;
      if id !in conn.streams.send || conn.streams.send[id].finished {
        return Err(ClosedStream), n;
      }
      if conn.streams.send[id].stopped.Some? {
        return Err(PeerStopped(conn.streams.send[id].stopped.value)), n;
      }
      if conn.streams.send[id].credit == 0 {
        return Ok(WriteBlocked), n;
      }
      var taken := conn.Accept(id, data);
      return Ok(Wrote(taken)), taken;
    }

    /** Keep `fact` unless a terminal one is there; true if it is news to report. */
    method Record(id: StreamId, fact: SendFin) returns (news: bool)
      modifies this`sendFins
      ensures View() == old(View()).(book := RecordSendFin(old(View()).book, id, fact).0)
      ensures news == RecordSendFin(old(View()).book, id, fact).1
    {
      if id in sendFins {
        match sendFins[id] {
          case Acked => return false;
          case Stopped(_) => return false;
          case Queued =>
        }
      }
      sendFins := sendFins[id := fact];
      return fact.Acked? || fact.Stopped?;
    }

    method Finish(id: StreamId) returns (r: Result<(), ConnError>)
      modifies this, conn
      ensures View() == StreamFinish(old(View()), id).0 && r == StreamFinish(old(View()), id).1
    {
      if id in sendFins {
        match sendFins[id] {
          case Stopped(code) => return Err(PeerStopped(code));
          case Acked => return Err(ClosedStream);
          case Queued => return Err(ClosedStream);
        }
      }
      dirty := true;
      var a := conn.Finish(id);
      match a {
        case FinishOk =>
          sendFins := sendFins[id := Queued];
          return Ok(());
        case FinishStopped(code) =>
          var _ := Record(id, Stopped(code));
          return Err(PeerStopped(code));
        case FinishClosed =>
          return Err(ClosedStream);
      }
    }

    method Reset(id: StreamId, code: nat) returns (r: Result<(), ConnError>)
      modifies this, conn
      ensures View() == StreamReset(old(View()), id, code).0 && r == StreamReset(old(View()), id, code).1
    {
      if !IsVarint(code) {
        return Err(InvalidErrorCode(code));
      }
      dirty := true;
      finishedReads := finishedReads - {id};
      sendFins := sendFins - {id};
      r := if id in conn.streams.send then Ok(()) else Err(ClosedStream);
      conn.streams := conn.streams.(send := conn.streams.send - {id});
    }

    method Stop(id: StreamId, code: nat) returns (r: Result<(), ConnError>)
      modifies this, conn
      ensures View() == StreamStop(old(View()), id, code).0 && r == StreamStop(old(View()), id, code).1
    {
      if !IsVarint(code) {
        return Err(InvalidErrorCode(code));
      }
      dirty := true;
      finishedReads := finishedReads - {id};
      r := if id in conn.streams.recv then Ok(()) else Err(ClosedStream);
      conn.streams := conn.streams.(recv := conn.streams.recv - {id});
    }

    method ForgetRecv(id: StreamId)
      modifies this`finishedReads
      ensures View() == Forgotten(old(View()), id)
    {
      finishedReads := finishedReads - {id};
    }

    method ForgetSend(id: StreamId)
      modifies this`sendFins
      ensures View() == ReleaseSend(old(View()), id)
    {
      sendFins := sendFins - {id};
    }

    method OpenBi() returns (r: Result<StreamId, ConnError>)
      modifies conn
      ensures View() == OpenStream(old(View())).0 && r == OpenStream(old(View())).1
    {
      if conn.streams.closed {
        return Err(Closed);
      }
      if conn.streams.openable == [] {
        return Err(ClosedStream);
      }
      r := Ok(conn.streams.openable[0]);
      conn.streams := conn.streams.(openable := conn.streams.openable[1..]);
    }

    method AcceptBi() returns (r: Option<StreamId>)
      modifies this, conn
      ensures View() == AcceptStream(old(View())).0 && r == AcceptStream(old(View())).1
    {
      if readyAccepts != [] {
        r := Some(readyAccepts[0]);
        readyAccepts := readyAccepts[1..];
      } else if conn.streams.incoming != [] {
        r := Some(conn.streams.incoming[0]);
        conn.streams := conn.streams.(incoming := conn.streams.incoming[1..]);
      } else {
        r := None;
      }
    }

    /** Drain the event queue `evs`, queueing peer-opened streams and reporting what happened. */
    method ServiceEvents(evs: seq<ConnEvent>) returns (p: Progress)
      modifies this`readyAccepts, this`sendFins
      ensures View() == old(View()).(book := ServiceStreams(old(View()).book, evs).0)
      ensures p == ServiceStreams(old(View()).book, evs).1
    {
      p := NO_PROGRESS;
      ghost var b := View().book;
      assert evs[..0] == [];
      for k := 0 to |evs|
        invariant (View().book, p) == ServiceStreams(b, evs[..k])
      {
        assert evs[..k + 1][..k] == evs[..k];
        match evs[k] {
          case HandshakeDone => p := p.(connected := true);
          case Lost(reason) => p := p.(lost := Some(reason));
          case Opened(ids) =>
            readyAccepts := readyAccepts + ids;
            p := p.(arrived := p.arrived + ids);
          case Readable(id) => p := p.(readable := p.readable + [id]);
          case Writable(id) => p := p.(writable := p.writable + [id]);
          case Finished(id) =>
            var news := Record(id, Acked);
            if news { p := p.(finAcked := p.finAcked + [id]); }
          case StoppedByPeer(id, code) =>
            var news := Record(id, Stopped(code));
            if news { p := p.(stopped := p.stopped + [(id, code)]); }
          case Ignored =>
        }
      }
      assert evs[..|evs|] == evs;
    }
  }
}
