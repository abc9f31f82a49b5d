/** Byte-exact streams: what a read to FIN and a full write deliver, however arrivals, credit and other
    work on the connection are interleaved. */
module StreamRuns {
  import opened Base
  import opened ByteCodec
  import opened Admission
  import opened ConnSpec
  import opened StreamSpec
  import opened ParkSpec
  import opened ReplyRuns

  // ---------------------------------------------------------------------
  // Other work leaves a half alone
  // ---------------------------------------------------------------------

  /** The receive half `id`, its parked read and its end-of-stream fact are as they were. */
  ghost predicate SameRecv(c: CoreConn, d: CoreConn, id: StreamId) {
    && (id in d.streams.recv <==> id in c.streams.recv)
    && (id in c.streams.recv ==> d.streams.recv[id] == c.streams.recv[id])
    && (id in d.book.finishedReads <==> id in c.book.finishedReads)
  }

  ghost predicate SameReader(p: Park, q: Park, id: StreamId) {
    && (id in q.readers <==> id in p.readers)
    && (id in p.readers ==> q.readers[id] == p.readers[id])
    && p.answers <= q.answers
  }

  ghost predicate SameSend(c: CoreConn, d: CoreConn, id: StreamId) {
    && (id in d.streams.send <==> id in c.streams.send)
    && (id in c.streams.send ==> d.streams.send[id] == c.streams.send[id])
  }

  ghost predicate SameWriter(p: Park, q: Park, id: StreamId) {
    && (id in q.writes <==> id in p.writes)
    && (id in p.writes ==> q.writes[id] == p.writes[id])
    && p.answers <= q.answers
  }

  lemma {:induction false} SendAllFrame(p: Park, rs: seq<Reply>, a: Answer)
    ensures SendAll(p, rs, a) == p.(answers := SendAll(p, rs, a).answers) && p.answers <= SendAll(p, rs, a).answers
  {
    if rs == [] {
    } else {
      SendAllFrame(p, rs[..|rs| - 1], a);
    }
  }

  lemma DropFinsFrame(p: Park, id: StreamId, a: Answer)
    ensures var q := DropFins(p, id, a);
            q == p.(fins := p.fins - {id}, answers := q.answers) && p.answers <= q.answers
  {
    if id in p.fins {
      SendAllFrame(p.(fins := p.fins - {id}), p.fins[id], a);
    } else {
      assert p.fins - {id} == p.fins;
    }
  }

  lemma OfferReadFrame(c: CoreConn, p: Park, other: StreamId, r: PendingRead, id: StreamId)
    ensures var (d, q) := OfferRead(c, p, other, r);
            && SameSend(c, d, id) && SameWriter(p, q, id)
            && (other != id ==> SameRecv(c, d, id) && SameReader(p, q, id))
  {
  }

  lemma OfferWriteFrame(c: CoreConn, p: Park, other: StreamId, w: PendingWrite, id: StreamId)
    ensures var (d, q) := OfferWrite(c, p, other, w);
            && SameRecv(c, d, id) && SameReader(p, q, id)
            && (other != id ==> SameSend(c, d, id) && SameWriter(p, q, id))
  {
  }

  lemma {:induction false} OnStreamOpenedFrame(c: CoreConn, p: Park, id: StreamId)
    ensures var (d, q) := OnStreamOpened(c, p);
            SameRecv(c, d, id) && SameReader(p, q, id) && SameSend(c, d, id) && SameWriter(p, q, id)
    decreases |p.accepts|
  {
    if p.accepts == [] || AcceptStream(c).1 == None {
    } else {
      var (d, a) := AcceptStream(c);
      OnStreamOpenedFrame(d, Send(p.(accepts := p.accepts[1..]), p.accepts[0], GotStream(a.value)), id);
    }
  }

  /** Commands that work on the receive half of `id`. */
  predicate TouchesRecv(cmd: Cmd, id: StreamId) {
    (cmd.ReadToEndCmd? || cmd.ReadCmd? || cmd.StopCmd? || cmd.ResetCmd?) && cmd.id == id
  }

  /** Commands that work on the send half of `id`. */
  predicate TouchesSend(cmd: Cmd, id: StreamId) {
    (cmd.WriteCmd? || cmd.FinishCmd? || cmd.ResetCmd?) && cmd.id == id
  }

  lemma ResetFrame(c: CoreConn, p: Park, other: StreamId, code: nat, r: Reply, id: StreamId)
    requires other != id
    ensures var (d, q) := Apply(c, p, ResetCmd(other, code, r));
            SameRecv(c, d, id) && SameReader(p, q, id) && SameSend(c, d, id) && SameWriter(p, q, id)
  {
    DropFinsFrame(p, other, Failed(ClosedStream));
  }

  lemma FinishFrame(c: CoreConn, p: Park, other: StreamId, r: Reply, id: StreamId)
    ensures var (d, q) := Apply(c, p, FinishCmd(other, r));
            && SameRecv(c, d, id) && SameReader(p, q, id)
            && (other != id ==> SameSend(c, d, id) && SameWriter(p, q, id))
  {
  }

  lemma StopFrame(c: CoreConn, p: Park, other: StreamId, code: nat, r: Reply, id: StreamId)
    ensures var (d, q) := Apply(c, p, StopCmd(other, code, r));
            && (other != id ==> SameRecv(c, d, id) && SameReader(p, q, id))
            && SameSend(c, d, id) && SameWriter(p, q, id)
  {
  }

  lemma ApplyFrame(c: CoreConn, p: Park, cmd: Cmd, id: StreamId)
    ensures var (d, q) := Apply(c, p, cmd);
            && (!TouchesRecv(cmd, id) ==> SameRecv(c, d, id) && SameReader(p, q, id))
            && (!TouchesSend(cmd, id) ==> SameSend(c, d, id) && SameWriter(p, q, id))
  {
    match cmd {
      case WriteCmd(other, data, r) => OfferWriteFrame(c, p, other, PendingWrite(data, 0, r), id);
      case ReadToEndCmd(other, limit, r) => OfferReadFrame(c, p, other, PendingRead([], ToEnd(limit), r), id);
      case ReadCmd(other, max, r) => OfferReadFrame(c, p, other, PendingRead([], UpTo(Max(max, 1)), r), id);
      case ResetCmd(other, code, r) => if other != id { ResetFrame(c, p, other, code, r, id); }
      case OpenCmd(_) =>
      case AcceptCmd(_) =>
      case FinishCmd(other, r) => FinishFrame(c, p, other, r, id);
      case WaitCmd(_, _) =>
      case StopCmd(other, code, r) => StopFrame(c, p, other, code, r, id);
      case ReleaseCmd(_) =>
      case CloseCmd =>
    }
  }

  // ---------------------------------------------------------------------
  // Reading to the end
  // ---------------------------------------------------------------------

  /** What the peer has sent on a stream so far: the bytes that have arrived, and whether FIN has. */
  datatype Incoming = Incoming(bytes: Bytes, fin: bool)

  ghost predicate Waiting(l: Line, id: StreamId, limit: nat, r: Reply, s: Incoming) {
    && id in l.park.readers && id in l.core.streams.recv && id !in l.core.book.finishedReads
    && var pending, half := l.park.readers[id], l.core.streams.recv[id];
    && pending == PendingRead(pending.buf, ToEnd(limit), r)
    && |pending.buf| <= limit
    && half.reset == None && half.fin == s.fin
    && pending.buf + half.buffered == s.bytes
  }

  ghost predicate GotAll(l: Line, limit: nat, r: Reply, s: Incoming) {
    (r, GotBytes(s.bytes)) in l.park.answers && s.fin && |s.bytes| <= limit
  }

  ghost predicate TooLong(l: Line, id: StreamId, limit: nat, r: Reply, s: Incoming) {
    && (r, Failed(ReadLimitExceeded(limit))) in l.park.answers && |s.bytes| > limit
    && id in l.core.streams.recv && l.core.streams.recv[id].buffered == s.bytes[limit + 1..]
    && l.core.streams.recv[id].reset == None && l.core.streams.recv[id].fin == s.fin
    && id !in l.park.readers && id !in l.core.book.finishedReads
  }

  /** A read to the end is still waiting with every byte so far in its hands or in the buffer; or has
      answered with the whole stream; or has answered that the stream is too long, having taken exactly one
      byte more than the limit. */
  ghost predicate ReadState(l: Line, id: StreamId, limit: nat, r: Reply, s: Incoming) {
    || Waiting(l, id, limit, r, s)
    || (GotAll(l, limit, r, s) && id !in l.core.streams.recv && id !in l.park.readers)
    || TooLong(l, id, limit, r, s)
  }

  /** Between library calls the peer may add bytes and then FIN; the rest of the connection is free. */
  ghost predicate Arrives(c: CoreConn, d: CoreConn, id: StreamId, s: Incoming, t: Incoming) {
    && s.bytes <= t.bytes && (s.fin ==> t == s)
    && (id in d.book.finishedReads <==> id in c.book.finishedReads)
    && (id in d.streams.recv <==> id in c.streams.recv)
    && (id in c.streams.recv ==>
          d.streams.recv[id] == RecvHalf(c.streams.recv[id].buffered + t.bytes[|s.bytes|..], t.fin, c.streams.recv[id].reset))
  }

  /** A step that leaves the receive half to this read: no command on it, arrivals in order. */
  ghost predicate ReadStep(l: Line, h: Happening, id: StreamId, s: Incoming, t: Incoming) {
    && (h.Commanded? ==> !TouchesRecv(h.cmd, id))
    && (if h.LibraryMoved? then Arrives(l.core, h.to, id, s, t) else t == s)
  }

  /** A half that a read to the end, with `buf` gathered, may be offered. */
  ghost predicate Offerable(c: CoreConn, p: Park, id: StreamId, limit: nat, buf: Bytes, s: Incoming) {
    && id in c.streams.recv && id !in c.book.finishedReads && id !in p.readers && |buf| <= limit
    && var half := c.streams.recv[id];
    half.reset == None && half.fin == s.fin && buf + half.buffered == s.bytes
  }

  function Offered(c: CoreConn, p: Park, issued: set<Reply>, id: StreamId, limit: nat, r: Reply, buf: Bytes): Line {
    var (d, q) := OfferRead(c, p, id, PendingRead(buf, ToEnd(limit), r));
    Line(d, q, issued)
  }

  lemma OfferTooLong(c: CoreConn, p: Park, issued: set<Reply>, id: StreamId, limit: nat, r: Reply, buf: Bytes, s: Incoming)
    requires Offerable(c, p, id, limit, buf, s) && |s.bytes| > limit
    ensures TooLong(Offered(c, p, issued, id, limit, r, buf), id, limit, r, s)
  {
    var half, l := c.streams.recv[id], Offered(c, p, issued, id, limit, r, buf);
    assert half.buffered != [];
    assert l.park.answers[|p.answers|] == (r, Failed(ReadLimitExceeded(limit)));
    assert half.buffered[limit + 1 - |buf|..] == s.bytes[limit + 1..];
  }

  lemma OfferEnded(c: CoreConn, p: Park, issued: set<Reply>, id: StreamId, limit: nat, r: Reply, buf: Bytes, s: Incoming)
    requires Offerable(c, p, id, limit, buf, s) && |s.bytes| <= limit && s.fin
    ensures var l := Offered(c, p, issued, id, limit, r, buf);
            GotAll(l, limit, r, s) && id !in l.core.streams.recv && id !in l.park.readers
  {
    var l := Offered(c, p, issued, id, limit, r, buf);
    assert l.park.answers[|p.answers|] == (r, GotBytes(s.bytes));
  }

  lemma OfferWaits(c: CoreConn, p: Park, issued: set<Reply>, id: StreamId, limit: nat, r: Reply, buf: Bytes, s: Incoming)
    requires Offerable(c, p, id, limit, buf, s) && |s.bytes| <= limit && !s.fin
    ensures Waiting(Offered(c, p, issued, id, limit, r, buf), id, limit, r, s)
  {
    var half := c.streams.recv[id];
    assert half.buffered[|half.buffered|..] == [];
    assert s.bytes + [] == s.bytes;
  }

  /** Offered, the read answers "too long", answers with the whole stream, or waits for more. */
  lemma OfferToEnd(c: CoreConn, p: Park, issued: set<Reply>, id: StreamId, limit: nat, r: Reply, buf: Bytes, s: Incoming)
    requires Offerable(c, p, id, limit, buf, s)
    ensures ReadState(Offered(c, p, issued, id, limit, r, buf), id, limit, r, s)
    ensures s.fin ==> !Waiting(Offered(c, p, issued, id, limit, r, buf), id, limit, r, s)
  {
    if |s.bytes| > limit {
      OfferTooLong(c, p, issued, id, limit, r, buf, s);
    } else if s.fin {
      OfferEnded(c, p, issued, id, limit, r, buf, s);
    } else {
      OfferWaits(c, p, issued, id, limit, r, buf, s);
    }
  }

  lemma FrameReadState(l: Line, m: Line, id: StreamId, limit: nat, r: Reply, s: Incoming)
    requires ReadState(l, id, limit, r, s) && SameRecv(l.core, m.core, id) && SameReader(l.park, m.park, id)
    ensures ReadState(m, id, limit, r, s)
  {
    assert forall x :: x in l.park.answers ==> x in m.park.answers;
  }

  lemma ArriveReadState(l: Line, m: Line, id: StreamId, limit: nat, r: Reply, s: Incoming, t: Incoming)
    requires ReadState(l, id, limit, r, s) && Arrives(l.core, m.core, id, s, t) && m.park == l.park
    ensures ReadState(m, id, limit, r, t)
  {
    var more := t.bytes[|s.bytes|..];
    assert t.bytes == s.bytes + more;
    if Waiting(l, id, limit, r, s) {
      var buf, had := l.park.readers[id].buf, l.core.streams.recv[id].buffered;
      assert buf + (had + more) == buf + had + more;
    } else if TooLong(l, id, limit, r, s) {
      assert s.bytes[limit + 1..] + more == t.bytes[limit + 1..];
    }
  }

  /** Every step of the surroundings keeps a read to the end in one of its three states. */
  lemma HappenReadState(l: Line, h: Happening, id: StreamId, limit: nat, r: Reply, s: Incoming, t: Incoming)
    requires ReadState(l, id, limit, r, s) && ReadStep(l, h, id, s, t)
    ensures ReadState(Happen(l, h), id, limit, r, t)
  {
    var m := Happen(l, h);
    match h {
      case Commanded(cmd) =>
        ApplyFrame(l.core, l.park, cmd, id);
        FrameReadState(l, m, id, limit, r, s);
      case StreamArrived =>
        OnStreamOpenedFrame(l.core, l.park, id);
        FrameReadState(l, m, id, limit, r, s);
      case BecameReadable(other) =>
        if other == id {
          WakeReadState(l, id, limit, r, s);
        } else if other in l.park.readers {
          OfferReadFrame(l.core, l.park.(readers := l.park.readers - {other}), other, l.park.readers[other], id);
          FrameReadState(l, m, id, limit, r, s);
        }
      case BecameWritable(other) =>
        if other in l.park.writes {
          OfferWriteFrame(l.core, l.park.(writes := l.park.writes - {other}), other, l.park.writes[other], id);
          FrameReadState(l, m, id, limit, r, s);
        }
      case FinWasAcked(other) =>
        DropFinsFrame(l.park, other, Done);
        FrameReadState(l, m, id, limit, r, s);
      case WasStopped(other, code) =>
        DropFinsFrame(l.park, other, Failed(PeerStopped(code)));
        var q := DropFins(l.park, other, Failed(PeerStopped(code)));
        if other in q.writes {
          OfferWriteFrame(l.core, q.(writes := q.writes - {other}), other, q.writes[other], id);
        }
        FrameReadState(l, m, id, limit, r, s);
      case LibraryMoved(to) =>
        ArriveReadState(l, m, id, limit, r, s, t);
    }
  }

  /** Waking the read: it goes on waiting only if FIN has not arrived. */
  lemma WakeReadState(l: Line, id: StreamId, limit: nat, r: Reply, s: Incoming)
    requires ReadState(l, id, limit, r, s)
    ensures ReadState(Happen(l, BecameReadable(id)), id, limit, r, s)
    ensures s.fin ==> !Waiting(Happen(l, BecameReadable(id)), id, limit, r, s)
  {
    if Waiting(l, id, limit, r, s) {
      OfferToEnd(l.core, l.park.(readers := l.park.readers - {id}), l.issued, id, limit, r, l.park.readers[id].buf, s);
    }
  }

  /** The whole life of one `read_to_end(limit)`: issued on an open half, then any steps that leave the half
      to it. `ins[k]` is what the peer has sent when `k` steps have been taken. */
  ghost predicate ReadRun(l: Line, hs: seq<Happening>, id: StreamId, ins: seq<Incoming>) {
    && |ins| == |hs| + 1
    && forall k :: 0 <= k < |hs| ==> ReadStepAt(l, hs, id, ins, k)
  }

  ghost predicate ReadStepAt(l: Line, hs: seq<Happening>, id: StreamId, ins: seq<Incoming>, k: nat)
    requires k < |hs| && |ins| == |hs| + 1
  {
    ReadStep(RunLine(l, hs[..k]), hs[k], id, ins[k], ins[k + 1])
  }

  /** Whatever was answered to `r` is right: all of the stream, which has ended and is not longer than the limit;
      or "too long" for one that is. */
  ghost predicate ReadAnswered(l: Line, limit: nat, r: Reply, s: Incoming) {
    forall a :: (r, a) in l.park.answers ==>
      || (a == GotBytes(s.bytes) && s.fin && |s.bytes| <= limit)
      || (a == Failed(ReadLimitExceeded(limit)) && |s.bytes| > limit)
  }

  lemma ReadStateAnswers(l: Line, id: StreamId, limit: nat, r: Reply, s: Incoming)
    requires ReadState(l, id, limit, r, s) && Kept(l.park, l.issued, {})
    ensures ReadAnswered(l, limit, r, s)
  {
    forall a | (r, a) in l.park.answers
      ensures (a == GotBytes(s.bytes) && s.fin && |s.bytes| <= limit) || (a == Failed(ReadLimitExceeded(limit)) && |s.bytes| > limit)
    {
      if Waiting(l, id, limit, r, s) {
        ParkedIsUnanswered(l.park, l.issued, ReadSlot(id), r, a);
      } else if GotAll(l, limit, r, s) {
        OneAnswer(l.park, l.issued, r, a, GotBytes(s.bytes));
      } else {
        OneAnswer(l.park, l.issued, r, a, Failed(ReadLimitExceeded(limit)));
      }
    }
  }

  lemma {:induction false} ReadStateStays(l: Line, hs: seq<Happening>, id: StreamId, limit: nat, r: Reply, ins: seq<Incoming>, k: nat)
    requires k <= |hs| && ReadRun(l, hs, id, ins) && ReadState(l, id, limit, r, ins[0])
    ensures ReadState(RunLine(l, hs[..k]), id, limit, r, ins[k])
  {
    if k == 0 {
    } else {
      ReadStateStays(l, hs, id, limit, r, ins, k - 1);
      assert ReadStepAt(l, hs, id, ins, k - 1);
      assert hs[..k][..k - 1] == hs[..k - 1];
      HappenReadState(RunLine(l, hs[..k - 1]), hs[k - 1], id, limit, r, ins[k - 1], ins[k]);
    }
  }

  /** For every chunking of arrivals and every interleaving, with replies that are not reused: an answer `Ok` is
      the whole stream up to FIN and no longer than the limit, an answer "too long" is given only when more than
      the limit has arrived, there is no other answer, and until there is one every byte is still in hand; "too
      long" leaves everything after the byte past the limit unread. */
  lemma ReadToEndExact(l: Line, hs: seq<Happening>, id: StreamId, limit: nat, r: Reply, ins: seq<Incoming>, k: nat)
    requires k <= |hs| && ReadRun(l, hs, id, ins) && ReadState(l, id, limit, r, ins[0])
    requires Kept(l.park, l.issued, {}) && FreshReplies(l, hs)
    ensures ReadState(RunLine(l, hs[..k]), id, limit, r, ins[k])
    ensures ReadAnswered(RunLine(l, hs[..k]), limit, r, ins[k])
  {
    ReadStateStays(l, hs, id, limit, r, ins, k);
    RunStaysKept(l, hs, k);
    ReadStateAnswers(RunLine(l, hs[..k]), id, limit, r, ins[k]);
  }

  /** Issuing the command with a fresh reply starts such a life, with what is buffered as what has arrived. */
  lemma ReadToEndStarts(l: Line, id: StreamId, limit: nat, r: Reply)
    requires id in l.core.streams.recv && id !in l.core.book.finishedReads && id !in l.park.readers
    requires l.core.streams.recv[id].reset == None
    requires Kept(l.park, l.issued, {}) && r !in l.issued
    ensures var half, m := l.core.streams.recv[id], Happen(l, Commanded(ReadToEndCmd(id, limit, r)));
            && ReadState(m, id, limit, r, Incoming(half.buffered, half.fin))
            && Kept(m.park, m.issued, {})
  {
    var half := l.core.streams.recv[id];
    assert [] + half.buffered == half.buffered;
    OfferToEnd(l.core, l.park, l.issued + {r}, id, limit, r, [], Incoming(half.buffered, half.fin));
    HappenKept(l, Commanded(ReadToEndCmd(id, limit, r)));
  }

  // ---------------------------------------------------------------------
  // Writing everything
  // ---------------------------------------------------------------------

  ghost predicate OpenForWriting(l: Line, id: StreamId) {
    id in l.core.streams.send && !l.core.streams.send[id].finished && l.core.streams.send[id].stopped == None
  }

  /** A write is waiting with exactly a prefix of its data handed over, or done with all of it handed over. */
  ghost predicate WriteState(l: Line, id: StreamId, data: Bytes, r: Reply, before: Bytes) {
    && OpenForWriting(l, id)
    && var sent := l.core.streams.send[id].sent;
    || (&& id in l.park.writes
        && l.park.writes[id] == PendingWrite(data, l.park.writes[id].offset, r)
        && l.park.writes[id].offset <= |data|
        && sent == before + data[..l.park.writes[id].offset])
    || (id !in l.park.writes && (r, Done) in l.park.answers && sent == before + data)
  }

  /** Credit may change; what was handed over stays, and nobody else writes. */
  ghost predicate CreditMoves(c: CoreConn, d: CoreConn, id: StreamId) {
    && id in c.streams.send && id in d.streams.send
    && d.streams.send[id] == c.streams.send[id].(credit := d.streams.send[id].credit)
  }

  ghost predicate WriteStep(l: Line, h: Happening, id: StreamId) {
    && (h.Commanded? ==> !TouchesSend(h.cmd, id))
    && (h.LibraryMoved? ==> CreditMoves(l.core, h.to, id))
  }

  lemma TakeMore(data: Bytes, before: Bytes, offset: nat, n: nat)
    requires offset + n <= |data|
    ensures before + data[..offset] + data[offset..offset + n] == before + data[..offset + n]
    ensures offset + n == |data| ==> data[..offset + n] == data
  {
    assert data[..offset] + data[offset..offset + n] == data[..offset + n];
  }

  /** Nothing left to hand over: the write is done. */
  lemma OfferNothing(c: CoreConn, p: Park, issued: set<Reply>, id: StreamId, data: Bytes, r: Reply, before: Bytes)
    requires OpenForWriting(Line(c, p, issued), id) && id !in p.writes
    requires c.streams.send[id].sent == before + data
    ensures var (d, q) := OfferWrite(c, p, id, PendingWrite(data, |data|, r));
            WriteState(Line(d, q, issued), id, data, r, before) && id !in q.writes
  {
    var q := OfferWrite(c, p, id, PendingWrite(data, |data|, r)).1;
    assert q.answers[|p.answers|] == (r, Done);
  }

  /** Something left: as much goes as there is credit for, and credit for the rest ends the write. */
  lemma OfferSome(c: CoreConn, p: Park, issued: set<Reply>, id: StreamId, data: Bytes, offset: nat, r: Reply, before: Bytes)
    requires OpenForWriting(Line(c, p, issued), id) && id !in p.writes && offset < |data|
    requires c.streams.send[id].sent == before + data[..offset]
    ensures var (d, q) := OfferWrite(c, p, id, PendingWrite(data, offset, r));
            && WriteState(Line(d, q, issued), id, data, r, before)
            && (id !in q.writes <==> c.streams.send[id].credit >= |data| - offset)
            && (id in q.writes ==> q.writes[id].offset == offset + c.streams.send[id].credit)
  {
    var (d, q) := OfferWrite(c, p, id, PendingWrite(data, offset, r));
    var n := Min(c.streams.send[id].credit, |data| - offset);
    TakeMore(data, before, offset, n);
    assert d.streams.send[id].sent == before + data[..offset + n];
    if offset + n == |data| {
      assert q.answers[|p.answers|] == (r, Done);
    } else {
      assert q.writes[id] == PendingWrite(data, offset + n, r);
    }
  }

  lemma OfferAll(c: CoreConn, p: Park, issued: set<Reply>, id: StreamId, data: Bytes, offset: nat, r: Reply, before: Bytes)
    requires OpenForWriting(Line(c, p, issued), id) && id !in p.writes && offset <= |data|
    requires c.streams.send[id].sent == before + data[..offset]
    ensures var (d, q) := OfferWrite(c, p, id, PendingWrite(data, offset, r));
            && WriteState(Line(d, q, issued), id, data, r, before)
            && (id !in q.writes <==> c.streams.send[id].credit >= |data| - offset)
            && (id in q.writes ==> q.writes[id].offset == offset + c.streams.send[id].credit)
  {
    if offset == |data| {
      assert data[..offset] == data;
      OfferNothing(c, p, issued, id, data, r, before);
    } else {
      OfferSome(c, p, issued, id, data, offset, r, before);
    }
  }

  lemma FrameWriteState(l: Line, m: Line, id: StreamId, data: Bytes, r: Reply, before: Bytes)
    requires WriteState(l, id, data, r, before) && SameSend(l.core, m.core, id) && SameWriter(l.park, m.park, id)
    ensures WriteState(m, id, data, r, before)
  {
    assert forall x :: x in l.park.answers ==> x in m.park.answers;
  }

  /** Waking the write: all the credit is used, and the write ends exactly if there was enough for the rest. */
  lemma WakeWriteState(l: Line, id: StreamId, data: Bytes, r: Reply, before: Bytes)
    requires WriteState(l, id, data, r, before)
    ensures WriteState(Happen(l, BecameWritable(id)), id, data, r, before)
    ensures id in l.park.writes ==>
              var m, credit, offset := Happen(l, BecameWritable(id)), l.core.streams.send[id].credit, l.park.writes[id].offset;
              && (id !in m.park.writes <==> credit >= |data| - offset)
              && (id in m.park.writes ==> m.park.writes[id].offset == offset + credit)
  {
    if id in l.park.writes {
      OfferAll(l.core, l.park.(writes := l.park.writes - {id}), l.issued, id, data, l.park.writes[id].offset, r, before);
    }
  }

  /** Every step of the surroundings keeps a write in one of its two states. */
  lemma HappenWriteState(l: Line, h: Happening, id: StreamId, data: Bytes, r: Reply, before: Bytes)
    requires WriteState(l, id, data, r, before) && WriteStep(l, h, id)
    ensures WriteState(Happen(l, h), id, data, r, before)
  {
    var m := Happen(l, h);
    match h {
      case Commanded(cmd) =>
        ApplyFrame(l.core, l.park, cmd, id);
        FrameWriteState(l, m, id, data, r, before);
      case StreamArrived =>
        OnStreamOpenedFrame(l.core, l.park, id);
        FrameWriteState(l, m, id, data, r, before);
      case BecameReadable(other) =>
        if other in l.park.readers {
          OfferReadFrame(l.core, l.park.(readers := l.park.readers - {other}), other, l.park.readers[other], id);
          FrameWriteState(l, m, id, data, r, before);
        }
      case BecameWritable(other) =>
        if other == id {
          WakeWriteState(l, id, data, r, before);
        } else if other in l.park.writes {
          OfferWriteFrame(l.core, l.park.(writes := l.park.writes - {other}), other, l.park.writes[other], id);
          FrameWriteState(l, m, id, data, r, before);
        }
      case FinWasAcked(other) =>
        DropFinsFrame(l.park, other, Done);
        FrameWriteState(l, m, id, data, r, before);
      case WasStopped(other, code) =>
        StoppedWriteState(l, other, code, id, data, r, before);
      case LibraryMoved(to) =>
    }
  }

  lemma StoppedWriteState(l: Line, other: StreamId, code: nat, id: StreamId, data: Bytes, r: Reply, before: Bytes)
    requires WriteState(l, id, data, r, before)
    ensures WriteState(Happen(l, WasStopped(other, code)), id, data, r, before)
  {
    var q := DropFins(l.park, other, Failed(PeerStopped(code)));
    DropFinsFrame(l.park, other, Failed(PeerStopped(code)));
    var k := l.(park := q);
    FrameWriteState(l, k, id, data, r, before);
    if other == id {
      WakeWriteState(k, id, data, r, before);
    } else if other in q.writes {
      OfferWriteFrame(l.core, q.(writes := q.writes - {other}), other, q.writes[other], id);
      FrameWriteState(k, Happen(l, WasStopped(other, code)), id, data, r, before);
    }
  }

  /** Whatever was answered to `r` is right: done, and the core has all of the data. */
  ghost predicate WriteAnswered(l: Line, id: StreamId, data: Bytes, r: Reply, before: Bytes) {
    forall a :: (r, a) in l.park.answers ==>
      a == Done && id in l.core.streams.send && l.core.streams.send[id].sent == before + data
  }

  lemma WriteStateAnswers(l: Line, id: StreamId, data: Bytes, r: Reply, before: Bytes)
    requires WriteState(l, id, data, r, before) && Kept(l.park, l.issued, {})
    ensures WriteAnswered(l, id, data, r, before)
  {
    forall a | (r, a) in l.park.answers
      ensures a == Done && id in l.core.streams.send && l.core.streams.send[id].sent == before + data
    {
      if id in l.park.writes {
        assert Holds(l.park, WriteSlot(id), r);
        ParkedIsUnanswered(l.park, l.issued, WriteSlot(id), r, a);
      } else {
        OneAnswer(l.park, l.issued, r, a, Done);
      }
    }
  }

  lemma {:induction false} WriteStateStays(l: Line, hs: seq<Happening>, id: StreamId, data: Bytes, r: Reply, before: Bytes, k: nat)
    requires k <= |hs| && WriteState(l, id, data, r, before)
    requires forall j :: 0 <= j < |hs| ==> WriteStep(RunLine(l, hs[..j]), hs[j], id)
    ensures WriteState(RunLine(l, hs[..k]), id, data, r, before)
  {
    if k == 0 {
    } else {
      WriteStateStays(l, hs, id, data, r, before, k - 1);
      assert hs[..k][..k - 1] == hs[..k - 1];
      HappenWriteState(RunLine(l, hs[..k - 1]), hs[k - 1], id, data, r, before);
    }
  }

  /** For every way in which credit comes and other work is interleaved, with replies that are not reused: the
      core receives the data once and in order, and the one answer is `Ok`, given only when it has all of it. */
  lemma WriteAllExact(l: Line, hs: seq<Happening>, id: StreamId, data: Bytes, r: Reply, before: Bytes, k: nat)
    requires k <= |hs| && WriteState(l, id, data, r, before)
    requires forall j :: 0 <= j < |hs| ==> WriteStep(RunLine(l, hs[..j]), hs[j], id)
    requires Kept(l.park, l.issued, {}) && FreshReplies(l, hs)
    ensures WriteState(RunLine(l, hs[..k]), id, data, r, before)
    ensures WriteAnswered(RunLine(l, hs[..k]), id, data, r, before)
  {
    WriteStateStays(l, hs, id, data, r, before, k);
    RunStaysKept(l, hs, k);
    WriteStateAnswers(RunLine(l, hs[..k]), id, data, r, before);
  }

  /** Issuing the command with a fresh reply starts such a life. */
  lemma WriteAllStarts(l: Line, id: StreamId, data: Bytes, r: Reply)
    requires OpenForWriting(l, id) && id !in l.park.writes
    requires Kept(l.park, l.issued, {}) && r !in l.issued
    ensures var m := Happen(l, Commanded(WriteCmd(id, data, r)));
            WriteState(m, id, data, r, l.core.streams.send[id].sent) && Kept(m.park, m.issued, {})
  {
    HappenKept(l, Commanded(WriteCmd(id, data, r)));
    var before := l.core.streams.send[id].sent;
    assert before + data[..0] == before;
    OfferAll(l.core, l.park, l.issued + {r}, id, data, 0, r, before);
  }
}
