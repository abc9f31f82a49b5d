/** Reading a stream piece by piece: what successive bounded reads answer is the stream. */
module BoundedReads {
  import opened Base
  import opened ByteCodec
  import opened Admission
  import opened ConnSpec
  import opened StreamSpec
  import opened ParkSpec
  import opened ReplyRuns
  import opened StreamRuns

  /** A bounded read that was issued: for at most `max` bytes. */
  datatype Asked = Asked(reply: Reply, max: nat)

  function Joined(parts: seq<Bytes>): Bytes {
    if parts == [] then [] else Joined(parts[..|parts| - 1]) + parts[|parts| - 1]
  }

  /** The answer to read `i` is `parts[i]`: at most what was asked for (but at least room for one byte), and empty only
      when the whole stream, which has ended, came before it. */
  ghost predicate PartOk(l: Line, asks: seq<Asked>, parts: seq<Bytes>, s: Incoming, i: nat)
    requires i < |asks| && i < |parts|
  {
    && (asks[i].reply, GotBytes(parts[i])) in l.park.answers
    && |parts[i]| <= Max(asks[i].max, 1)
    && (parts[i] == [] ==> s.fin && Joined(parts[..i]) == s.bytes)
  }

  /** Every byte of the stream so far was answered or is buffered; once FIN was read, all of it was answered. */
  ghost predicate HalfOk(l: Line, id: StreamId, got: Bytes, s: Incoming) {
    if id in l.core.streams.recv then
      && id !in l.core.book.finishedReads
      && l.core.streams.recv[id].reset == None && l.core.streams.recv[id].fin == s.fin
      && got + l.core.streams.recv[id].buffered == s.bytes
    else
      id in l.core.book.finishedReads && s.fin && got == s.bytes
  }

  /** `asks` were issued one after the other; all but at most the last were answered, by `parts`. */
  ghost predicate ReadsState(l: Line, id: StreamId, asks: seq<Asked>, parts: seq<Bytes>, s: Incoming) {
    && HalfOk(l, id, Joined(parts), s)
    && |parts| <= |asks| <= |parts| + 1
    && (if |parts| < |asks|
        then id in l.park.readers && l.park.readers[id] == PendingRead([], UpTo(Max(asks[|parts|].max, 1)), asks[|parts|].reply)
        else id !in l.park.readers)
    && forall i :: 0 <= i < |parts| ==> PartOk(l, asks, parts, s, i)
  }

  // ---------------------------------------------------------------------
  // One offer
  // ---------------------------------------------------------------------

  lemma JoinedPush(parts: seq<Bytes>, b: Bytes)
    ensures Joined(parts + [b]) == Joined(parts) + b
  {
    assert (parts + [b])[..|parts|] == parts;
  }

  /** What one bounded read into an open half does. */
  lemma OfferBounded(c: CoreConn, p: Park, id: StreamId, max: nat, r: Reply) returns (got: Option<Bytes>)
    requires max >= 1 && id !in p.readers
    requires if id in c.streams.recv then id !in c.book.finishedReads && c.streams.recv[id].reset == None else id in c.book.finishedReads
    ensures var (d, q) := OfferRead(c, p, id, PendingRead([], UpTo(max), r));
            match got
            case None =>
              && id in c.streams.recv && d.streams.recv == c.streams.recv && d.book.finishedReads == c.book.finishedReads
              && q == p.(readers := p.readers[id := PendingRead([], UpTo(max), r)])
            case Some(b) =>
              && q == p.(answers := p.answers + [(r, GotBytes(b))]) && |b| <= max
              && (if id in c.streams.recv then
                    var half := c.streams.recv[id];
                    && b <= half.buffered
                    && (b == [] ==> half.fin && half.buffered == [])
                    && (if id in d.streams.recv
                        then d.streams.recv[id] == half.(buffered := half.buffered[|b|..]) && id !in d.book.finishedReads
                        else id in d.book.finishedReads && half.fin && half.buffered[|b|..] == [])
                  else b == [] && id !in d.streams.recv && id in d.book.finishedReads)
  {
    var len := Max(1, Min(max, READ_CHUNK));
    var (d, a, bytes) := StreamRead(c, id, len);
    if id in c.streams.recv {
      var half := c.streams.recv[id];
      if half.buffered == [] && !half.fin {
        got := None;
        assert half.buffered[..0] == [] && half.(buffered := half.buffered[0..]) == half;
        assert d.streams.recv == c.streams.recv[id := half] == c.streams.recv;
      } else {
        got := Some(bytes);
        assert bytes == half.buffered[..Min(len, |half.buffered|)];
      }
    } else {
      got := Some([]);
    }
  }

  lemma NotParked(p: Park, id: StreamId, r: PendingRead)
    requires id !in p.readers
    ensures ParkRead(p, id, r) == p.(readers := p.readers[id := r])
  {
  }

  lemma PartsStay(l: Line, m: Line, asks: seq<Asked>, more: seq<Asked>, parts: seq<Bytes>, s: Incoming)
    requires l.park.answers <= m.park.answers && asks <= more && |parts| <= |asks|
    requires forall i :: 0 <= i < |parts| ==> PartOk(l, asks, parts, s, i)
    ensures forall i :: 0 <= i < |parts| ==> PartOk(m, more, parts, s, i)
  {
    assert forall x :: x in l.park.answers ==> x in m.park.answers;
    forall i | 0 <= i < |parts| ensures PartOk(m, more, parts, s, i) {
      assert PartOk(l, asks, parts, s, i);
    }
  }

  lemma SplitAt(got: Bytes, buffered: Bytes, b: Bytes)
    requires b <= buffered
    ensures got + b + buffered[|b|..] == got + buffered
  {
    assert buffered == b + buffered[|b|..];
  }

  /** The next read is offered: it waits, or answers the next part. `c` and `p` are as they were before, with no read
      parked. */
  lemma NextPart(l: Line, p: Park, id: StreamId, asks: seq<Asked>, parts: seq<Bytes>, s: Incoming, m: Line) returns (more: seq<Bytes>)
    requires |asks| == |parts| + 1 && HalfOk(l, id, Joined(parts), s) && id !in p.readers && p.answers == l.park.answers
    requires forall i :: 0 <= i < |parts| ==> PartOk(l, asks, parts, s, i)
    requires var a := asks[|parts|];
             var (d, q) := OfferRead(l.core, p, id, PendingRead([], UpTo(Max(a.max, 1)), a.reply));
             m.core == d && m.park == q
    ensures parts <= more && ReadsState(m, id, asks, more, s)
  {
    var a := asks[|parts|];
    var got := OfferBounded(l.core, p, id, Max(a.max, 1), a.reply);
    match got {
      case None =>
        more := parts;
        PartsStay(l, m, asks, asks, parts, s);
      case Some(b) =>
        more := parts + [b];
        PartsStay(l, m, asks, asks, parts, s);
        JoinedPush(parts, b);
        NextHalf(l, m, id, parts, b, s);
        NextOk(m, asks, parts, b, s);
    }
  }

  lemma NextHalf(l: Line, m: Line, id: StreamId, parts: seq<Bytes>, b: Bytes, s: Incoming)
    requires HalfOk(l, id, Joined(parts), s)
    requires if id in l.core.streams.recv then
               var half := l.core.streams.recv[id];
               && b <= half.buffered
               && (if id in m.core.streams.recv
                   then m.core.streams.recv[id] == half.(buffered := half.buffered[|b|..]) && id !in m.core.book.finishedReads
                   else id in m.core.book.finishedReads && half.fin && half.buffered[|b|..] == [])
             else b == [] && id !in m.core.streams.recv && id in m.core.book.finishedReads
    ensures HalfOk(m, id, Joined(parts) + b, s)
  {
    if id in l.core.streams.recv {
      SplitAt(Joined(parts), l.core.streams.recv[id].buffered, b);
    }
  }

  lemma NextOk(m: Line, asks: seq<Asked>, parts: seq<Bytes>, b: Bytes, s: Incoming)
    requires |asks| == |parts| + 1
    requires forall i :: 0 <= i < |parts| ==> PartOk(m, asks, parts, s, i)
    requires (asks[|parts|].reply, GotBytes(b)) in m.park.answers && |b| <= Max(asks[|parts|].max, 1)
    requires b == [] ==> s.fin && Joined(parts) == s.bytes
    ensures forall i :: 0 <= i < |parts| + 1 ==> PartOk(m, asks, parts + [b], s, i)
  {
    var more := parts + [b];
    forall i | 0 <= i < |parts| + 1 ensures PartOk(m, asks, more, s, i) {
      assert more[..|parts|] == parts;
      if i < |parts| {
        assert PartOk(m, asks, parts, s, i);
        assert more[..i] == parts[..i];
      }
    }
  }

  // ---------------------------------------------------------------------
  // Steps
  // ---------------------------------------------------------------------

  predicate IsAsk(h: Happening, id: StreamId) {
    h.Commanded? && h.cmd.ReadCmd? && h.cmd.id == id
  }

  /** One bounded read at a time, nothing else on the receive half, arrivals in order. */
  ghost predicate AskStep(l: Line, h: Happening, id: StreamId, s: Incoming, t: Incoming) {
    && (IsAsk(h, id) ==> id !in l.park.readers)
    && (h.Commanded? && !IsAsk(h, id) ==> !TouchesRecv(h.cmd, id))
    && (if h.LibraryMoved? then Arrives(l.core, h.to, id, s, t) else t == s)
  }

  /** What neither asks, wakes the read nor moves the library leaves the half and its reader alone. */
  lemma OtherwiseSame(l: Line, h: Happening, id: StreamId)
    requires !h.LibraryMoved? && h != BecameReadable(id) && (h.Commanded? ==> !TouchesRecv(h.cmd, id))
    ensures SameRecv(l.core, Happen(l, h).core, id) && SameReader(l.park, Happen(l, h).park, id)
  {
    match h {
      case Commanded(cmd) => ApplyFrame(l.core, l.park, cmd, id);
      case StreamArrived => OnStreamOpenedFrame(l.core, l.park, id);
      case BecameReadable(other) =>
        if other in l.park.readers {
          OfferReadFrame(l.core, l.park.(readers := l.park.readers - {other}), other, l.park.readers[other], id);
        }
      case BecameWritable(other) =>
        if other in l.park.writes {
          OfferWriteFrame(l.core, l.park.(writes := l.park.writes - {other}), other, l.park.writes[other], id);
        }
      case FinWasAcked(other) => DropFinsFrame(l.park, other, Done);
      case WasStopped(other, code) =>
        DropFinsFrame(l.park, other, Failed(PeerStopped(code)));
        var q := DropFins(l.park, other, Failed(PeerStopped(code)));
        if other in q.writes {
          OfferWriteFrame(l.core, q.(writes := q.writes - {other}), other, q.writes[other], id);
        }
    }
  }

  lemma FrameAsks(l: Line, m: Line, id: StreamId, asks: seq<Asked>, parts: seq<Bytes>, s: Incoming)
    requires ReadsState(l, id, asks, parts, s) && SameRecv(l.core, m.core, id) && SameReader(l.park, m.park, id)
    ensures ReadsState(m, id, asks, parts, s)
  {
    PartsStay(l, m, asks, asks, parts, s);
  }

  lemma ArriveAsks(l: Line, m: Line, id: StreamId, asks: seq<Asked>, parts: seq<Bytes>, s: Incoming, t: Incoming)
    requires ReadsState(l, id, asks, parts, s) && Arrives(l.core, m.core, id, s, t) && m.park == l.park
    ensures ReadsState(m, id, asks, parts, t)
  {
    forall i | 0 <= i < |parts| ensures PartOk(m, asks, parts, t, i) {
      assert PartOk(l, asks, parts, s, i);
    }
    if id in l.core.streams.recv {
      var more := t.bytes[|s.bytes|..];
      assert t.bytes == s.bytes + more;
      assert Joined(parts) + (l.core.streams.recv[id].buffered + more) == Joined(parts) + l.core.streams.recv[id].buffered + more;
    }
  }

  lemma AskIssued(l: Line, id: StreamId, max: nat, r: Reply, asks: seq<Asked>, parts: seq<Bytes>, s: Incoming) returns (more: seq<Bytes>)
    requires ReadsState(l, id, asks, parts, s) && id !in l.park.readers
    ensures parts <= more && ReadsState(Happen(l, Commanded(ReadCmd(id, max, r))), id, asks + [Asked(r, max)], more, s)
  {
    var all := asks + [Asked(r, max)];
    PartsStay(l, l, asks, all, parts, s);
    more := NextPart(l, l.park, id, all, parts, s, Happen(l, Commanded(ReadCmd(id, max, r))));
  }

  lemma AskWoken(l: Line, id: StreamId, asks: seq<Asked>, parts: seq<Bytes>, s: Incoming) returns (more: seq<Bytes>)
    requires ReadsState(l, id, asks, parts, s)
    ensures parts <= more && ReadsState(Happen(l, BecameReadable(id)), id, asks, more, s)
  {
    if id in l.park.readers {
      more := NextPart(l, l.park.(readers := l.park.readers - {id}), id, asks, parts, s, Happen(l, BecameReadable(id)));
    } else {
      more := parts;
    }
  }

  function AsksAfter(asks: seq<Asked>, h: Happening, id: StreamId): seq<Asked> {
    if IsAsk(h, id) then asks + [Asked(h.cmd.reply, h.cmd.max)] else asks
  }

  lemma HappenAsks(l: Line, h: Happening, id: StreamId, asks: seq<Asked>, parts: seq<Bytes>, s: Incoming, t: Incoming) returns (more: seq<Bytes>)
    requires ReadsState(l, id, asks, parts, s) && AskStep(l, h, id, s, t)
    ensures parts <= more && ReadsState(Happen(l, h), id, AsksAfter(asks, h, id), more, t)
  {
    if IsAsk(h, id) {
      more := AskIssued(l, id, h.cmd.max, h.cmd.reply, asks, parts, s);
    } else if h == BecameReadable(id) {
      more := AskWoken(l, id, asks, parts, s);
    } else {
      more := parts;
      if h.LibraryMoved? {
        ArriveAsks(l, Happen(l, h), id, asks, parts, s, t);
      } else {
        OtherwiseSame(l, h, id);
        FrameAsks(l, Happen(l, h), id, asks, parts, s);
      }
    }
  }

  // ---------------------------------------------------------------------
  // Runs
  // ---------------------------------------------------------------------

  /** The bounded reads on `id` among `hs`. */
  function AsksOf(hs: seq<Happening>, id: StreamId): seq<Asked> {
    if hs == [] then [] else AsksAfter(AsksOf(hs[..|hs| - 1], id), hs[|hs| - 1], id)
  }

  ghost predicate AskStepAt(l: Line, hs: seq<Happening>, id: StreamId, ins: seq<Incoming>, k: nat)
    requires k < |hs| && |ins| == |hs| + 1
  {
    AskStep(RunLine(l, hs[..k]), hs[k], id, ins[k], ins[k + 1])
  }

  ghost predicate AskRun(l: Line, hs: seq<Happening>, id: StreamId, ins: seq<Incoming>) {
    && |ins| == |hs| + 1
    && forall k :: 0 <= k < |hs| ==> AskStepAt(l, hs, id, ins, k)
  }

  lemma {:induction false} AsksStay(l: Line, hs: seq<Happening>, id: StreamId, ins: seq<Incoming>, k: nat) returns (parts: seq<Bytes>)
    requires k <= |hs| && AskRun(l, hs, id, ins) && HalfOk(l, id, [], ins[0]) && id !in l.park.readers
    ensures ReadsState(RunLine(l, hs[..k]), id, AsksOf(hs[..k], id), parts, ins[k])
  {
    if k == 0 {
      assert hs[..0] == [];
      parts := [];
    } else {
      parts := AsksStay(l, hs, id, ins, k - 1);
      assert AskStepAt(l, hs, id, ins, k - 1);
      assert hs[..k][..k - 1] == hs[..k - 1];
      parts := HappenAsks(RunLine(l, hs[..k - 1]), hs[k - 1], id, AsksOf(hs[..k - 1], id), parts, ins[k - 1], ins[k]);
    }
  }

  /** The answers to the bounded reads: to read `i` nothing but `parts[i]`, and to one that still waits nothing. */
  ghost predicate AsksAnswered(l: Line, asks: seq<Asked>, parts: seq<Bytes>) {
    && (forall i, a :: 0 <= i < |parts| && i < |asks| && (asks[i].reply, a) in l.park.answers ==> a == GotBytes(parts[i]))
    && (|parts| < |asks| ==> forall a :: (asks[|parts|].reply, a) !in l.park.answers)
  }

  lemma AsksHaveOneAnswer(l: Line, id: StreamId, asks: seq<Asked>, parts: seq<Bytes>, s: Incoming)
    requires ReadsState(l, id, asks, parts, s) && Kept(l.park, l.issued, {})
    ensures AsksAnswered(l, asks, parts)
  {
    forall i, a | 0 <= i < |parts| && i < |asks| && (asks[i].reply, a) in l.park.answers ensures a == GotBytes(parts[i]) {
      assert PartOk(l, asks, parts, s, i);
      OneAnswer(l.park, l.issued, asks[i].reply, a, GotBytes(parts[i]));
    }
    if |parts| < |asks| {
      forall a ensures (asks[|parts|].reply, a) !in l.park.answers {
        ParkedIsUnanswered(l.park, l.issued, ReadSlot(id), asks[|parts|].reply, a);
      }
    }
  }

  /** For every chunking of arrivals and every interleaving, with one bounded read at a time and replies that are not
      reused: what the reads answer, one after the other, and then what is buffered, is what has arrived; each answer
      has at most as many bytes as were asked for, and none only at the end of the stream. */
  lemma BoundedReadsExact(l: Line, hs: seq<Happening>, id: StreamId, ins: seq<Incoming>, k: nat) returns (parts: seq<Bytes>)
    requires k <= |hs| && AskRun(l, hs, id, ins) && HalfOk(l, id, [], ins[0]) && id !in l.park.readers
    requires Kept(l.park, l.issued, {}) && FreshReplies(l, hs)
    ensures var m := RunLine(l, hs[..k]);
            ReadsState(m, id, AsksOf(hs[..k], id), parts, ins[k]) && AsksAnswered(m, AsksOf(hs[..k], id), parts)
  {
    parts := AsksStay(l, hs, id, ins, k);
    RunStaysKept(l, hs, k);
    AsksHaveOneAnswer(RunLine(l, hs[..k]), id, AsksOf(hs[..k], id), parts, ins[k]);
  }
}
