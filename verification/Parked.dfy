/** The parked operations of one connection as the program keeps them. */
module Parked {
  import opened Base
  import opened ByteCodec
  import opened Admission
  import opened ConnSpec
  import opened StreamSpec
  import opened ParkSpec
  import opened ConnState

  const USIZE_MAX: nat := 0xFFFF_FFFF_FFFF_FFFF

  /** How many bytes a read to FIN asks for next: one more than the limit leaves, so that an oversized
      stream shows, but no more than a chunk; the additions saturate. */
  function Request(limit: nat, filled: nat): nat {
    var cap := if limit + 1 <= USIZE_MAX then limit + 1 else USIZE_MAX;
    Max(1, Min(if cap < filled then 0 else cap - filled, READ_CHUNK))
  }

  lemma MapTwice<T>(m: map<StreamId, T>, id: StreamId, x: T, y: T)
    ensures m[id := x][id := y] == m[id := y]
    ensures m[id := x] - {id} == m - {id}
  {
  }

  /** Reading a piece first does not change where a read to FIN ends up. */
  lemma ReadThenPump(c: CoreConn, id: StreamId, buf: Bytes, limit: nat, len: nat)
    requires len > 0 && |buf| <= limit
    requires var (d, r, bytes) := StreamRead(c, id, len);
             r.Ok? && r.value.ReadSome? && |buf + bytes| <= limit
    ensures var (d, r, bytes) := StreamRead(c, id, len);
            PumpedToEnd(d, id, buf + bytes, limit) == PumpedToEnd(c, id, buf, limit)
  {
    var (d, r, bytes) := StreamRead(c, id, len);
    var half := c.streams.recv[id];
    var n := |bytes|;
    if n < len && half.fin {
      assert bytes == half.buffered;
    } else {
      var rest := half.buffered[n..];
      assert d.streams.recv[id] == half.(buffered := rest);
      var taken := if |buf| + |half.buffered| > limit then limit + 1 - |buf| else |half.buffered|;
      MapTwice(c.streams.recv, id, half.(buffered := rest), half.(buffered := half.buffered[taken..]));
      SplitSlices(buf, half.buffered, n, limit);
    }
  }

  lemma SplitSlices(buf: Bytes, all: Bytes, n: nat, limit: nat)
    requires n <= |all| && |buf| + n <= limit
    ensures var bytes, rest := all[..n], all[n..];
            && buf + bytes + rest == buf + all
            && rest[|rest|..] == all[|all|..]
            && (|buf| + |all| > limit ==>
                  var m := limit + 1 - |buf|;
                  buf + bytes + rest[..m - n] == buf + all[..m] && rest[m - n..] == all[m..])
  {
    var bytes, rest := all[..n], all[n..];
    assert all == bytes + rest;
    if |buf| + |all| > limit {
      var m := limit + 1 - |buf|;
      assert rest[..m - n] == all[n..m];
      assert all[..m] == bytes + all[n..m];
    }
  }

  /** What is left for a read to consume. */
  ghost function Left(c: CoreConn, id: StreamId): nat {
    if id in c.book.finishedReads || id !in c.streams.recv then 0 else 1 + |c.streams.recv[id].buffered|
  }

  /** Drain what the core has for `id` into `buf` until FIN, an error, the limit, or nothing more for now. */
  method PumpToEnd(core: ConnState, id: StreamId, start: Bytes, limit: nat) returns (buf: Bytes, answer: Option<Result<Bytes, ConnError>>)
    requires |start| <= limit <= USIZE_MAX
    modifies core, core.conn
    ensures core.View() == PumpedToEnd(old(core.View()), id, start, limit).0
    ensures buf == PumpedToEnd(old(core.View()), id, start, limit).1
    ensures answer == PumpedToEnd(old(core.View()), id, start, limit).2
  {
    buf := start;
    while true
      invariant |buf| <= limit
      invariant PumpedToEnd(core.View(), id, buf, limit) == PumpedToEnd(old(core.View()), id, start, limit)
      decreases Left(core.View(), id)
    {
      var request := Request(limit, |buf|);
      assert 1 <= request <= limit + 1 - |buf|;
      ghost var c := core.View();
      var r, bytes := core.Read(id, request);
      match r {
        case Ok(ReadSome(n)) =>
          if |buf + bytes| > limit {
            assert buf + bytes == PumpedToEnd(c, id, buf, limit).1;
            return buf + bytes, Some(Err(ReadLimitExceeded(limit)));
          }
          ReadThenPump(c, id, buf, limit, request);
          buf := buf + bytes;
        case Ok(ReadBlocked) =>
          assert buf + [] == buf;
          return buf, None;
        case Ok(ReadFinished) =>
          core.ForgetRecv(id);
          assert buf + [] == buf;
          return buf, Some(Ok(buf));
        case Err(e) =>
          return buf, Some(Err(e));
      }
    }
  }

  /** Answer with the first data or with the end of the stream. */
  method PumpUpTo(core: ConnState, id: StreamId, max: nat) returns (answer: Option<Result<Bytes, ConnError>>)
    modifies core, core.conn
    ensures core.View() == PumpedUpTo(old(core.View()), id, max).0
    ensures answer == PumpedUpTo(old(core.View()), id, max).1
  {
    var r, bytes := core.Read(id, Max(1, Min(max, READ_CHUNK)));
    match r {
      case Ok(ReadSome(n)) => answer := Some(Ok(bytes));
      case Ok(ReadBlocked) => answer := None;
      case Ok(ReadFinished) => answer := Some(Ok([]));
      case Err(e) => answer := Some(Err(e));
    }
  }

  /** Writing a piece first does not change where a write ends up. */
  lemma WriteThenPump(c: CoreConn, id: StreamId, data: Bytes, offset: nat, n: nat)
    requires offset < |data| && CanWrite(c.streams, id, data[offset..])
    requires 1 <= n <= Min(c.streams.send[id].credit, |data| - offset)
    ensures var d := StreamWrite(c, id, data[offset..], n).0;
            PumpedWrite(d, id, data, offset + n) == PumpedWrite(c, id, data, offset)
  {
    var half := c.streams.send[id];
    var d := StreamWrite(c, id, data[offset..], n).0;
    var sent := half.sent + data[offset..offset + Min(half.credit, |data| - offset)];
    MapTwice(c.streams.send, id, d.streams.send[id], half.(sent := sent, credit := half.credit - Min(half.credit, |data| - offset)));
    var k := Min(half.credit, |data| - offset);
    var m := Min(half.credit - n, |data| - offset - n);
    assert k == n + m;
    assert data[offset..][..n] == data[offset..offset + n];
    assert half.sent + data[offset..offset + n] + data[offset + n..offset + k] == half.sent + data[offset..offset + k];
    if offset + n == |data| {
      assert half.sent + data[offset..offset + n] + [] == half.sent + data[offset..offset + n];
    }
  }

  /** Offer the rest of a write until it is in, refused, or out of credit. */
  method PumpWrite(core: ConnState, id: StreamId, data: Bytes, start: nat) returns (offset: nat, answer: Option<Result<(), ConnError>>)
    requires start <= |data|
    modifies core, core.conn
    ensures core.View() == PumpedWrite(old(core.View()), id, data, start).0
    ensures offset == PumpedWrite(old(core.View()), id, data, start).1
    ensures answer == PumpedWrite(old(core.View()), id, data, start).2
  {
    offset := start;
    while true
      invariant offset <= |data|
      invariant PumpedWrite(core.View(), id, data, offset) == PumpedWrite(old(core.View()), id, data, start)
      decreases |data| - offset
    {
      if offset >= |data| {
        return offset, Some(Ok(()));
      }
      ghost var c := core.View();
      var r, n := core.Write(id, data[offset..]);
      match r {
        case Ok(Wrote(taken)) =>
          WriteThenPump(c, id, data, offset, n);
          offset := offset + taken;
        case Ok(WriteBlocked) =>
          assert data[offset..offset + 0] == [];
          assert c.streams.send[id].sent + [] == c.streams.send[id].sent;
          return offset, None;
        case Err(e) =>
          return offset, Some(Err(e));
      }
    }
  }

  lemma NothingLeft<T>(all: set<T>, done: set<T>)
    requires done <= all && all - done == {}
    ensures done == all
  {
    forall x | x in all ensures x in done {
      assert x !in all - done;
    }
  }

  /** A parked read has gathered no more than its limit, a parked write is not past its end. */
  ghost predicate InBounds(p: Park) {
    && (forall id :: id in p.writes ==> p.writes[id].offset <= |p.writes[id].data|)
    && (forall id :: id in p.readers ==> ReadInBounds(p.readers[id]))
  }

  ghost predicate ReadInBounds(r: PendingRead) {
    r.goal.ToEnd? ==> |r.buf| <= r.goal.limit <= USIZE_MAX
  }

  class Parked {
    var pendingAccepts: seq<Reply>
    var blockedWrites: map<StreamId, PendingWrite>
    var pendingReads: map<StreamId, PendingRead>
    var finWaiters: map<StreamId, seq<Reply>>
    /** The replies sent or dropped so far. */
    var answers: seq<(Reply, Answer)>

    ghost function View(): Park
      reads this
    {
      Park(pendingAccepts, blockedWrites, pendingReads, finWaiters, answers)
    }

    ghost predicate Valid()
      reads this
    {
      InBounds(View())
    }

    constructor ()
      ensures Valid() && View() == EMPTY_PARK
    {
      pendingAccepts, blockedWrites, pendingReads, finWaiters, answers := [], map[], map[], map[], [];
    }

    method Respond(r: Reply, a: Answer)
      modifies this`answers
      ensures View() == Send(old(View()), r, a)
    {
      answers := answers + [(r, a)];
    }

    method RespondAll(rs: seq<Reply>, a: Answer)
      modifies this`answers
      ensures View() == SendAll(old(View()), rs, a)
    {
      assert rs[..0] == [];
      for k := 0 to |rs|
        invariant View() == SendAll(old(View()), rs[..k], a)
      {
        assert rs[..k + 1][..k] == rs[..k];
        Respond(rs[k], a);
      }
      assert rs[..|rs|] == rs;
    }

    method FailBlockedWrite(id: StreamId, e: ConnError)
      requires Valid()
      modifies this`blockedWrites, this`answers
      ensures Valid() && View() == DropWrite(old(View()), id, e)
    {
      if id in blockedWrites {
        var pending := blockedWrites[id];
        blockedWrites := blockedWrites - {id};
        Respond(pending.reply, Failed(e));
      }
    }

    method FailPendingRead(id: StreamId, e: ConnError)
      requires Valid()
      modifies this`pendingReads, this`answers
      ensures Valid() && View() == DropRead(old(View()), id, e)
    {
      if id in pendingReads {
        var pending := pendingReads[id];
        pendingReads := pendingReads - {id};
        Respond(pending.reply, Failed(e));
      }
    }

    method AnswerFinWaiters(id: StreamId, a: Answer)
      requires Valid()
      modifies this`finWaiters, this`answers
      ensures Valid() && View() == DropFins(old(View()), id, a)
      ensures finWaiters == old(finWaiters) - {id}
    {
      if id in finWaiters {
        var waiters := finWaiters[id];
        finWaiters := finWaiters - {id};
        RespondAll(waiters, a);
      }
    }

    /** Offer a write; park it if it is not all in. */
    method TryWrite(core: ConnState, id: StreamId, w: PendingWrite)
      requires Valid() && w.offset <= |w.data|
      modifies this, core, core.conn
      ensures Valid()
      ensures core.View() == OfferWrite(old(core.View()), old(View()), id, w).0
      ensures View() == OfferWrite(old(core.View()), old(View()), id, w).1
    {
      var offset, answer := PumpWrite(core, id, w.data, w.offset);
      match answer {
        case Some(Ok(_)) => Respond(w.reply, Done);
        case Some(Err(e)) => Respond(w.reply, Failed(e));
        case None =>
          FailBlockedWrite(id, Closed);
          blockedWrites := blockedWrites[id := w.(offset := offset)];
      }
    }

    /** Offer a read; park it if it has no answer yet. */
    method TryRead(core: ConnState, id: StreamId, r: PendingRead)
      requires Valid() && ReadInBounds(r)
      modifies this, core, core.conn
      ensures Valid()
      ensures core.View() == OfferRead(old(core.View()), old(View()), id, r).0
      ensures View() == OfferRead(old(core.View()), old(View()), id, r).1
    {
      var buf, answer;
      match r.goal {
        case ToEnd(limit) => buf, answer := PumpToEnd(core, id, r.buf, limit);
        case UpTo(max) =>
          buf := r.buf;
          answer := PumpUpTo(core, id, max);
      }
      match answer {
        case Some(Ok(bytes)) => Respond(r.reply, GotBytes(bytes));
        case Some(Err(e)) => Respond(r.reply, Failed(e));
        case None =>
          FailPendingRead(id, Closed);
          pendingReads := pendingReads[id := r.(buf := buf)];
      }
    }

    /** Apply one command, answering at once where the core can and parking where it cannot. */
    method ApplyCmd(core: ConnState, cmd: Cmd)
      requires Valid() && (cmd.ReadToEndCmd? ==> cmd.limit <= USIZE_MAX)
      modifies this, core, core.conn
      ensures Valid()
      ensures core.View() == Apply(old(core.View()), old(View()), cmd).0
      ensures View() == Apply(old(core.View()), old(View()), cmd).1
    {
      match cmd {
        case OpenCmd(r) =>
          var a := core.OpenBi();
          Respond(r, IdAnswer(a));
        case AcceptCmd(r) =>
          var a := core.AcceptBi();
          if a.Some? {
            Respond(r, GotStream(a.value));
          } else {
            pendingAccepts := pendingAccepts + [r];
          }
        case WriteCmd(id, data, r) => TryWrite(core, id, PendingWrite(data, 0, r));
        case FinishCmd(id, r) =>
          var a := core.Finish(id);
          Respond(r, UnitAnswer(a));
        case WaitCmd(id, r) => AwaitFinish(core, id, r);
        case ResetCmd(id, code, r) =>
          var a := core.Reset(id, code);
          if a.Ok? {
            AnswerFinWaiters(id, Failed(ClosedStream));
            FailBlockedWrite(id, ClosedStream);
          }
          Respond(r, UnitAnswer(a));
        case StopCmd(id, code, r) =>
          var a := core.Stop(id, code);
          if a.Ok? {
            FailPendingRead(id, ClosedStream);
          }
          Respond(r, UnitAnswer(a));
        case ReleaseCmd(id) => core.ForgetSend(id);
        case ReadToEndCmd(id, limit, r) => TryRead(core, id, PendingRead([], ToEnd(limit), r));
        case ReadCmd(id, max, r) => TryRead(core, id, PendingRead([], UpTo(Max(max, 1)), r));
        case CloseCmd =>
      }
    }

    method AwaitFinish(core: ConnState, id: StreamId, r: Reply)
      requires Valid()
      modifies this
      ensures Valid() && View() == Apply(core.View(), old(View()), WaitCmd(id, r)).1
    {
      if id in core.sendFins {
        match core.sendFins[id] {
          case Acked => Respond(r, Done);
          case Stopped(code) => Respond(r, Failed(PeerStopped(code)));
          case Queued =>
            var waiters := if id in finWaiters then finWaiters[id] else [];
            finWaiters := finWaiters[id := waiters + [r]];
        }
      } else {
        Respond(r, Failed(ClosedStream));
      }
    }

    /** Hand queued streams to parked accepts, first come first served. */
    method StreamOpened(core: ConnState)
      requires Valid()
      modifies this, core, core.conn
      ensures Valid()
      ensures core.View() == OnStreamOpened(old(core.View()), old(View())).0
      ensures View() == OnStreamOpened(old(core.View()), old(View())).1
    {
      while pendingAccepts != []
        invariant Valid()
        invariant OnStreamOpened(core.View(), View()) == OnStreamOpened(old(core.View()), old(View()))
        decreases |pendingAccepts|
      {
        var a := core.AcceptBi();
        if a == None {
          return;
        }
        var r := pendingAccepts[0];
        pendingAccepts := pendingAccepts[1..];
        Respond(r, GotStream(a.value));
      }
    }

    method Readable(core: ConnState, id: StreamId)
      requires Valid()
      modifies this, core, core.conn
      ensures Valid()
      ensures core.View() == OnReadable(old(core.View()), old(View()), id).0
      ensures View() == OnReadable(old(core.View()), old(View()), id).1
    {
      if id in pendingReads {
        var pending := pendingReads[id];
        pendingReads := pendingReads - {id};
        TryRead(core, id, pending);
      }
    }

    method Writable(core: ConnState, id: StreamId)
      requires Valid()
      modifies this, core, core.conn
      ensures Valid()
      ensures core.View() == OnWritable(old(core.View()), old(View()), id).0
      ensures View() == OnWritable(old(core.View()), old(View()), id).1
    {
      if id in blockedWrites {
        var pending := blockedWrites[id];
        blockedWrites := blockedWrites - {id};
        TryWrite(core, id, pending);
      }
    }

    method StoppedByPeer(core: ConnState, id: StreamId, code: nat)
      requires Valid()
      modifies this, core, core.conn
      ensures Valid()
      ensures core.View() == OnStopped(old(core.View()), old(View()), id, code).0
      ensures View() == OnStopped(old(core.View()), old(View()), id, code).1
    {
      AnswerFinWaiters(id, Failed(PeerStopped(code)));
      Writable(core, id);
    }

    method DrainWrites() returns (ghost order: seq<StreamId>)
      requires Valid()
      modifies this`blockedWrites, this`answers
      ensures Valid() && Elems(order) == old(blockedWrites).Keys && View() == FailWrites(old(View()), order)
    {
      order := [];
      while blockedWrites.Keys != {}
        invariant Valid() && View() == FailWrites(old(View()), order)
        invariant blockedWrites.Keys == old(blockedWrites).Keys - Elems(order) && Elems(order) <= old(blockedWrites).Keys
        decreases blockedWrites.Keys
      {
        var id :| id in blockedWrites;
        FailBlockedWrite(id, Closed);
        assert (order + [id])[..|order|] == order;
        order := order + [id];
      }
      NothingLeft(old(blockedWrites).Keys, Elems(order));
    }

    method DrainReads() returns (ghost order: seq<StreamId>)
      requires Valid()
      modifies this`pendingReads, this`answers
      ensures Valid() && Elems(order) == old(pendingReads).Keys && View() == FailReads(old(View()), order)
    {
      order := [];
      while pendingReads.Keys != {}
        invariant Valid() && View() == FailReads(old(View()), order)
        invariant pendingReads.Keys == old(pendingReads).Keys - Elems(order) && Elems(order) <= old(pendingReads).Keys
        decreases pendingReads.Keys
      {
        var id :| id in pendingReads;
        FailPendingRead(id, Closed);
        assert (order + [id])[..|order|] == order;
        order := order + [id];
      }
      NothingLeft(old(pendingReads).Keys, Elems(order));
    }

    method DrainFins() returns (ghost order: seq<StreamId>)
      requires Valid()
      modifies this`finWaiters, this`answers
      ensures Valid() && Elems(order) == old(finWaiters).Keys && View() == FailFins(old(View()), order)
    {
      order := [];
      while finWaiters.Keys != {}
        invariant Valid() && View() == FailFins(old(View()), order)
        invariant finWaiters.Keys == old(finWaiters).Keys - Elems(order) && Elems(order) <= old(finWaiters).Keys
        decreases finWaiters.Keys
      {
        var id :| id in finWaiters;
        AnswerFinWaiters(id, Failed(Closed));
        assert (order + [id])[..|order|] == order;
        order := order + [id];
      }
      NothingLeft(old(finWaiters).Keys, Elems(order));
    }

    /** The connection is lost: every parked operation fails, in whatever order the maps yield them. */
    method FailEverything() returns (ghost o: DrainOrder)
      requires Valid()
      modifies this
      ensures Valid() && Covers(old(View()), o) && View() == FailAll(old(View()), o)
    {
      var accepts := pendingAccepts;
      pendingAccepts := [];
      RespondAll(accepts, Failed(Closed));
      ghost var w := DrainWrites();
      ghost var r := DrainReads();
      ghost var f := DrainFins();
      o := DrainOrder(w, r, f);
    }
  }
}
