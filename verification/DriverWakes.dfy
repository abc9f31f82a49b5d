/** What the driver's dispatch does for a parked operation: each event wakes the operation that waits for it, and a
    command reaches its connection. */
module DriverWakes {
  import opened Base
  import opened ByteCodec
  import opened Admission
  import opened ConnSpec
  import opened StreamSpec
  import opened ParkSpec
  import opened ParkFacts
  import opened ReplyRuns
  import opened StreamRuns
  import opened EndpointSpec
  import opened DriverSpec

  lemma EventIs(d: Drive, e: Event, found: Found, clientId: Option<string>, o: DrainOrder)
    requires Meaning(e).Some? && e.conn in d.parked
    ensures var l := Happen(Line(found.core, d.parked[e.conn], TakenBy(d, e.conn)), Meaning(e).value);
            var f := DriverSpec.OnEvent(d, e, Some(found), clientId, o);
            && f.parked == d.parked[e.conn := l.park]
            && CoreAfterEvent(d, e, found) == l.core
  {
  }

  /** A dispatched `StreamReadable` ends a read to the end once FIN has arrived: with the whole stream if it keeps the
      limit, and as too long otherwise. */
  lemma ReadableEndsRead(d: Drive, h: Handle, id: StreamId, found: Found, clientId: Option<string>, o: DrainOrder, limit: nat)
    requires h in d.parked && id in d.parked[h].readers && d.parked[h].readers[id].goal == ToEnd(limit)
    requires |d.parked[h].readers[id].buf| <= limit && id !in found.core.book.finishedReads
    requires id in found.core.streams.recv && found.core.streams.recv[id].reset == None && found.core.streams.recv[id].fin
    ensures var p, q := d.parked[h], DriverSpec.OnEvent(d, StreamReadable(h, id), Some(found), clientId, o).parked[h];
            var all := p.readers[id].buf + found.core.streams.recv[id].buffered;
            && id !in q.readers
            && (p.readers[id].reply, if |all| <= limit then GotBytes(all) else Failed(ReadLimitExceeded(limit))) in q.answers
  {
    var p := d.parked[h];
    var rd, rest := p.readers[id], p.(readers := p.readers - {id});
    var s := Incoming(rd.buf + found.core.streams.recv[id].buffered, true);
    EventIs(d, StreamReadable(h, id), found, clientId, o);
    assert rd == PendingRead(rd.buf, ToEnd(limit), rd.reply);
    if |s.bytes| <= limit {
      OfferEnded(found.core, rest, TakenBy(d, h), id, limit, rd.reply, rd.buf, s);
    } else {
      OfferTooLong(found.core, rest, TakenBy(d, h), id, limit, rd.reply, rd.buf, s);
    }
  }

  /** A dispatched `StreamReadable` answers a bounded read with the first bytes that are there, at least one and no
      more than asked for. */
  lemma ReadableAnswersBounded(d: Drive, h: Handle, id: StreamId, found: Found, clientId: Option<string>, o: DrainOrder, max: nat) returns (n: nat)
    requires h in d.parked && id in d.parked[h].readers && d.parked[h].readers[id].goal == UpTo(max) && max >= 1
    requires id in found.core.streams.recv && id !in found.core.book.finishedReads
    requires found.core.streams.recv[id].reset == None && found.core.streams.recv[id].buffered != []
    ensures var p, q := d.parked[h], DriverSpec.OnEvent(d, StreamReadable(h, id), Some(found), clientId, o).parked[h];
            var buffered := found.core.streams.recv[id].buffered;
            && 1 <= n <= max && n <= |buffered| && id !in q.readers
            && (p.readers[id].reply, GotBytes(buffered[..n])) in q.answers
  {
    var p := d.parked[h];
    var rd, buffered := p.readers[id], found.core.streams.recv[id].buffered;
    n := Min(Max(1, Min(max, READ_CHUNK)), |buffered|);
    EventIs(d, StreamReadable(h, id), found, clientId, o);
    var q := DriverSpec.OnEvent(d, StreamReadable(h, id), Some(found), clientId, o).parked[h];
    assert q.answers[|p.answers|] == (rd.reply, GotBytes(buffered[..n]));
  }

  /** A dispatched `StreamWritable` ends a parked write if there is credit for the rest: the library has all of it, and
      the write is done. */
  lemma WritableEndsWrite(d: Drive, h: Handle, id: StreamId, found: Found, clientId: Option<string>, o: DrainOrder)
    requires h in d.parked && id in d.parked[h].writes && d.parked[h].writes[id].offset <= |d.parked[h].writes[id].data|
    requires id in found.core.streams.send && !found.core.streams.send[id].finished && found.core.streams.send[id].stopped == None
    requires found.core.streams.send[id].credit >= |d.parked[h].writes[id].data| - d.parked[h].writes[id].offset
    ensures var p, q := d.parked[h], DriverSpec.OnEvent(d, StreamWritable(h, id), Some(found), clientId, o).parked[h];
            var after := CoreAfterEvent(d, StreamWritable(h, id), found);
            && id !in q.writes && (p.writes[id].reply, Done) in q.answers
            && id in after.streams.send
            && after.streams.send[id].sent == found.core.streams.send[id].sent + p.writes[id].data[p.writes[id].offset..]
  {
    var p := d.parked[h];
    EventIs(d, StreamWritable(h, id), found, clientId, o);
    OfferFinishes(found.core, p.(writes := p.writes - {id}), id, p.writes[id]);
  }

  lemma OfferFinishes(c: CoreConn, p: Park, id: StreamId, w: PendingWrite)
    requires id !in p.writes && w.offset <= |w.data|
    requires id in c.streams.send && !c.streams.send[id].finished && c.streams.send[id].stopped == None
    requires c.streams.send[id].credit >= |w.data| - w.offset
    ensures var (d, q) := OfferWrite(c, p, id, w);
            && id !in q.writes && (w.reply, Done) in q.answers
            && id in d.streams.send && d.streams.send[id].sent == c.streams.send[id].sent + w.data[w.offset..]
  {
    var (d, q) := OfferWrite(c, p, id, w);
    assert q.answers[|p.answers|] == (w.reply, Done);
    if w.offset == |w.data| {
      assert c.streams.send[id].sent + w.data[w.offset..] == c.streams.send[id].sent;
    } else {
      assert w.data[w.offset..w.offset + (|w.data| - w.offset)] == w.data[w.offset..];
    }
  }

  /** A dispatched `StreamOpened` serves the accept that has waited longest. */
  lemma OpenedServesAccept(d: Drive, h: Handle, id: StreamId, found: Found, clientId: Option<string>, o: DrainOrder)
    requires h in d.parked && d.parked[h].accepts != [] && Available(found.core) != []
    ensures var p, q := d.parked[h], DriverSpec.OnEvent(d, StreamOpened(h, id), Some(found), clientId, o).parked[h];
            (p.accepts[0], GotStream(Available(found.core)[0])) in q.answers
  {
    var p := d.parked[h];
    EventIs(d, StreamOpened(h, id), found, clientId, o);
    AcceptsServedInOrder(found.core, p);
    var q := DriverSpec.OnEvent(d, StreamOpened(h, id), Some(found), clientId, o).parked[h];
    var n := Min(|p.accepts|, |Available(found.core)|);
    assert q.answers == p.answers + Paired(p.accepts, Available(found.core), n);
    assert q.answers[|p.answers|] == (p.accepts[0], GotStream(Available(found.core)[0]));
  }

  /** A dispatched acknowledgement tells every waiter, even when the connection is no longer there. */
  lemma AckedTellsWaiters(d: Drive, h: Handle, id: StreamId, found: Option<Found>, clientId: Option<string>, o: DrainOrder, r: Reply)
    requires h in d.parked && id in d.parked[h].fins && r in d.parked[h].fins[id]
    ensures (r, Done) in DriverSpec.OnEvent(d, StreamFinAcked(h, id), found, clientId, o).parked[h].answers
  {
    AckTellsDone(d.parked[h], id);
  }

  /** A dispatched stop tells every waiter, with the peer's code. */
  lemma StoppedTellsWaiters(d: Drive, h: Handle, id: StreamId, code: nat, found: Found, clientId: Option<string>, o: DrainOrder, r: Reply)
    requires h in d.parked && id in d.parked[h].fins && r in d.parked[h].fins[id]
    ensures (r, Failed(PeerStopped(code))) in DriverSpec.OnEvent(d, StreamStopped(h, id, code), Some(found), clientId, o).parked[h].answers
  {
    EventIs(d, StreamStopped(h, id, code), found, clientId, o);
    StopByPeerTells(found.core, d.parked[h], id, code);
  }

  /** Events leave the other connections alone. */
  lemma EventLeavesOthers(d: Drive, e: Event, found: Option<Found>, clientId: Option<string>, o: DrainOrder, g: Handle)
    requires g != e.conn
    ensures var f := DriverSpec.OnEvent(d, e, found, clientId, o);
            (g in f.parked <==> g in d.parked) && (g in d.parked ==> f.parked[g] == d.parked[g])
  {
  }

  /** A command for a surfaced, live connection is carried out there: a write for which there is credit is done, and the
      library has its bytes; a finish on an open half is queued. */
  lemma CommandReaches(d: Drive, h: Handle, id: StreamId, data: Bytes, found: Found, r: Reply)
    requires h in d.parked && id !in d.parked[h].writes
    requires id in found.core.streams.send && !found.core.streams.send[id].finished && found.core.streams.send[id].stopped == None
    requires found.core.streams.send[id].credit >= |data|
    ensures var f := DriverSpec.OnCommand(d, h, WriteCmd(id, data, r), Some(found));
            var after := CoreAfterCommand(d, h, WriteCmd(id, data, r), found);
            && h in f.parked && (r, Done) in f.parked[h].answers
            && id in after.streams.send && after.streams.send[id].sent == found.core.streams.send[id].sent + data
    ensures id !in found.core.book.sendFins ==>
              var f := DriverSpec.OnCommand(d, h, FinishCmd(id, r), Some(found));
              var after := CoreAfterCommand(d, h, FinishCmd(id, r), found);
              && h in f.parked && (r, Done) in f.parked[h].answers
              && id in after.streams.send && after.streams.send[id].finished && FactOf(after.book, id) == Some(Queued)
  {
    OfferFinishes(found.core, d.parked[h], id, PendingWrite(data, 0, r));
    assert data[0..] == data;
    if id !in found.core.book.sendFins {
      var f := DriverSpec.OnCommand(d, h, FinishCmd(id, r), Some(found));
      assert f.parked[h].answers[|d.parked[h].answers|] == (r, Done);
    }
  }

  /** A command for a connection that is gone or not surfaced is told that it is closed. */
  lemma CommandIsClosed(d: Drive, h: Handle, cmd: Cmd, found: Option<Found>)
    requires (h !in d.parked || found == None) && ReplyOf(cmd).Some?
    ensures (ReplyOf(cmd).value, Failed(Closed)) in DriverSpec.OnCommand(d, h, cmd, found).settled
  {
    var f := DriverSpec.OnCommand(d, h, cmd, found);
    assert f.settled[|d.settled|] == (ReplyOf(cmd).value, Failed(Closed));
  }

  /** The dispatch of a loss tells everything parked for the connection that it is closed, and keeps what was
      answered before. */
  lemma LostTellsClosed(d: Drive, h: Handle, reason: Reason, o: DrainOrder, s: Slot, r: Reply)
    requires h in d.parked && Covers(d.parked[h], o) && Holds(d.parked[h], s, r)
    ensures (r, Failed(Closed)) in DriverSpec.OnLost(d, h, reason, o).settled
    ensures forall x :: x in d.settled || x in d.parked[h].answers ==> x in DriverSpec.OnLost(d, h, reason, o).settled
  {
    LossTellsClosed(d.parked[h], o, s, r);
    var given := FailAll(d.parked[h], o).answers;
    assert DriverSpec.OnLost(d, h, reason, o).settled == d.settled + given;
    assert forall x :: x in d.parked[h].answers ==> x in given;
  }
}
