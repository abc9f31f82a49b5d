/** What parked operations are told: when streams open, when a stream is reset, stopped or acknowledged, and when
    the connection is lost. */
module ParkFacts {
  import opened Base
  import opened ByteCodec
  import opened Admission
  import opened ConnSpec
  import opened StreamSpec
  import opened ParkSpec
  import opened ReplyRuns
  import opened FinRuns

  // ---------------------------------------------------------------------
  // Loss
  // ---------------------------------------------------------------------

  lemma {:induction false} SendAllKeeps(p: Park, rs: seq<Reply>, a: Answer)
    ensures p.answers <= SendAll(p, rs, a).answers
    ensures SendAll(p, rs, a) == p.(answers := SendAll(p, rs, a).answers)
  {
    if rs == [] {
    } else {
      SendAllKeeps(p, rs[..|rs| - 1], a);
    }
  }

  lemma {:induction false} FailWritesIs(p: Park, order: seq<StreamId>)
    ensures p.answers <= FailWrites(p, order).answers
    ensures FailWrites(p, order) == p.(writes := FailWrites(p, order).writes, answers := FailWrites(p, order).answers)
    ensures forall id :: id in p.writes && id !in order ==>
              id in FailWrites(p, order).writes && FailWrites(p, order).writes[id] == p.writes[id]
    ensures forall id :: id in p.writes && id in order ==> (p.writes[id].reply, Failed(Closed)) in FailWrites(p, order).answers
  {
    if order == [] {
    } else {
      var n := |order| - 1;
      var q, last := FailWrites(p, order[..n]), order[n];
      FailWritesIs(p, order[..n]);
      assert order == order[..n] + [last];
      forall id | id in p.writes && id in order ensures (p.writes[id].reply, Failed(Closed)) in FailWrites(p, order).answers {
        if id !in order[..n] {
          assert FailWrites(p, order).answers[|q.answers|] == (p.writes[id].reply, Failed(Closed));
        }
      }
    }
  }

  lemma {:induction false} FailReadsIs(p: Park, order: seq<StreamId>)
    ensures p.answers <= FailReads(p, order).answers
    ensures FailReads(p, order) == p.(readers := FailReads(p, order).readers, answers := FailReads(p, order).answers)
    ensures forall id :: id in p.readers && id !in order ==>
              id in FailReads(p, order).readers && FailReads(p, order).readers[id] == p.readers[id]
    ensures forall id :: id in p.readers && id in order ==> (p.readers[id].reply, Failed(Closed)) in FailReads(p, order).answers
  {
    if order == [] {
    } else {
      var n := |order| - 1;
      var q, last := FailReads(p, order[..n]), order[n];
      FailReadsIs(p, order[..n]);
      assert order == order[..n] + [last];
      forall id | id in p.readers && id in order ensures (p.readers[id].reply, Failed(Closed)) in FailReads(p, order).answers {
        if id !in order[..n] {
          assert FailReads(p, order).answers[|q.answers|] == (p.readers[id].reply, Failed(Closed));
        }
      }
    }
  }

  lemma DropFinsTells(p: Park, id: StreamId, a: Answer)
    ensures p.answers <= DropFins(p, id, a).answers && id !in DropFins(p, id, a).fins
    ensures DropFins(p, id, a) == p.(fins := p.fins - {id}, answers := DropFins(p, id, a).answers)
    ensures id in p.fins ==> forall r :: r in p.fins[id] ==> (r, a) in DropFins(p, id, a).answers
  {
    if id in p.fins {
      SendAllKeeps(p.(fins := p.fins - {id}), p.fins[id], a);
      forall r | r in p.fins[id] ensures (r, a) in DropFins(p, id, a).answers {
        SendAllReaches(p.(fins := p.fins - {id}), p.fins[id], a, r);
      }
    } else {
      assert p.fins - {id} == p.fins;
    }
  }

  lemma {:induction false} FailFinsTells(p: Park, order: seq<StreamId>, id: StreamId, r: Reply)
    requires id in p.fins && r in p.fins[id]
    ensures p.answers <= FailFins(p, order).answers
    ensures if id in order then (r, Failed(Closed)) in FailFins(p, order).answers
            else id in FailFins(p, order).fins && FailFins(p, order).fins[id] == p.fins[id]
  {
    if order == [] {
    } else {
      var n := |order| - 1;
      FailFinsTells(p, order[..n], id, r);
      assert order == order[..n] + [order[n]];
      DropFinsTells(FailFins(p, order[..n]), order[n], Failed(Closed));
    }
  }

  lemma {:induction false} FailFinsKeeps(p: Park, order: seq<StreamId>)
    ensures p.answers <= FailFins(p, order).answers
  {
    if order == [] {
    } else {
      FailFinsKeeps(p, order[..|order| - 1]);
      DropFinsTells(FailFins(p, order[..|order| - 1]), order[|order| - 1], Failed(Closed));
    }
  }

  /** The stages of failing everything. */
  lemma FailStages(p: Park, o: DrainOrder)
    requires Covers(p, o)
    ensures var a := FailAccepts(p);
            var b := FailWrites(a, o.writes);
            var c := FailReads(b, o.readers);
            && p.answers <= a.answers <= b.answers <= c.answers <= FailAll(p, o).answers
            && a.writes == p.writes && b.readers == p.readers && c.fins == p.fins
            && FailAll(p, o) == FailFins(c, o.fins)
  {
    var a := FailAccepts(p);
    SendAllKeeps(p.(accepts := []), p.accepts, Failed(Closed));
    var b := FailWrites(a, o.writes);
    FailWritesIs(a, o.writes);
    FailReadsIs(b, o.readers);
    FailFinsKeeps(FailReads(b, o.readers), o.fins);
  }

  /** When a connection is lost every parked operation is told that it is closed, and no earlier answer changes. */
  lemma LossTellsClosed(p: Park, o: DrainOrder, s: Slot, r: Reply)
    requires Covers(p, o) && Holds(p, s, r)
    ensures (r, Failed(Closed)) in FailAll(p, o).answers && p.answers <= FailAll(p, o).answers
  {
    FailStages(p, o);
    var a := FailAccepts(p);
    var b := FailWrites(a, o.writes);
    var c := FailReads(b, o.readers);
    match s {
      case AcceptSlot =>
        SendAllReaches(p.(accepts := []), p.accepts, Failed(Closed), r);
      case WriteSlot(id) =>
        assert id in Elems(o.writes);
        FailWritesIs(a, o.writes);
      case ReadSlot(id) =>
        assert id in Elems(o.readers);
        FailReadsIs(b, o.readers);
      case FinSlot(id) =>
        assert id in Elems(o.fins);
        FailFinsTells(c, o.fins, id, r);
    }
  }

  // ---------------------------------------------------------------------
  // Accepting
  // ---------------------------------------------------------------------

  /** The streams that an accept can take, in order. */
  function Available(c: CoreConn): seq<StreamId> {
    c.book.readyAccepts + c.streams.incoming
  }

  function Paired(rs: seq<Reply>, ids: seq<StreamId>, n: nat): seq<(Reply, Answer)>
    requires n <= |rs| && n <= |ids|
  {
    seq(n, i requires 0 <= i < n => (rs[i], GotStream(ids[i])))
  }

  lemma AcceptTakesFirst(c: CoreConn)
    ensures var (d, a) := AcceptStream(c);
            if Available(c) == [] then a == None && d == c
            else a == Some(Available(c)[0]) && Available(d) == Available(c)[1..]
  {
  }

  /** Parked accepts are served first come, first served: the i-th gets the i-th stream, as long as both last. */
  lemma {:induction false} AcceptsServedInOrder(c: CoreConn, p: Park)
    ensures var (d, q) := OnStreamOpened(c, p);
            var n := Min(|p.accepts|, |Available(c)|);
            && q.answers == p.answers + Paired(p.accepts, Available(c), n)
            && q.accepts == p.accepts[n..] && Available(d) == Available(c)[n..]
    decreases |p.accepts|
  {
    AcceptTakesFirst(c);
    var n := Min(|p.accepts|, |Available(c)|);
    if n == 0 {
      assert p.answers + Paired(p.accepts, Available(c), 0) == p.answers;
    } else {
      var (d, a) := AcceptStream(c);
      var next := Send(p.(accepts := p.accepts[1..]), p.accepts[0], GotStream(a.value));
      AcceptsServedInOrder(d, next);
      PairedStep(p.answers, p.accepts, Available(c), n);
    }
  }

  lemma PairedStep(answers: seq<(Reply, Answer)>, rs: seq<Reply>, ids: seq<StreamId>, n: nat)
    requires 0 < n <= |rs| && n <= |ids|
    ensures answers + [(rs[0], GotStream(ids[0]))] + Paired(rs[1..], ids[1..], n - 1) == answers + Paired(rs, ids, n)
    ensures rs[1..][n - 1..] == rs[n..] && ids[1..][n - 1..] == ids[n..]
  {
    assert [(rs[0], GotStream(ids[0]))] + Paired(rs[1..], ids[1..], n - 1) == Paired(rs, ids, n);
  }

  // ---------------------------------------------------------------------
  // Reset, stop, acknowledgement
  // ---------------------------------------------------------------------

  /** A reset that succeeds leaves nothing of the send half waiting: whoever waited for its finish, and a blocked
      write, is told that the stream is closed. One that fails touches nothing. */
  lemma ResetReleases(c: CoreConn, p: Park, id: StreamId, code: nat, r: Reply)
    ensures var q := Apply(c, p, ResetCmd(id, code, r)).1;
            if code < 0x4000_0000_0000_0000 && id in c.streams.send then
              && id !in q.fins && id !in q.writes && (r, Done) in q.answers && p.answers <= q.answers
              && (id in p.fins ==> forall w :: w in p.fins[id] ==> (w, Failed(ClosedStream)) in q.answers)
              && (id in p.writes ==> (p.writes[id].reply, Failed(ClosedStream)) in q.answers)
            else exists e :: q == p.(answers := p.answers + [(r, Failed(e))])
  {
    var a := StreamReset(c, id, code).1;
    if a.Ok? {
      var f := DropFins(p, id, Failed(ClosedStream));
      DropFinsTells(p, id, Failed(ClosedStream));
      var g := DropWrite(f, id, ClosedStream);
      var q := Apply(c, p, ResetCmd(id, code, r)).1;
      assert q == Send(g, r, Done);
      assert q.answers[|g.answers|] == (r, Done);
      if id in p.writes {
        assert g.answers[|f.answers|] == (p.writes[id].reply, Failed(ClosedStream));
        assert q.answers[|f.answers|] == (p.writes[id].reply, Failed(ClosedStream));
      }
      assert f.answers <= q.answers;
      assert forall x :: x in f.answers ==> x in q.answers;
    } else {
      assert Apply(c, p, ResetCmd(id, code, r)).1 == p.(answers := p.answers + [(r, Failed(a.error))]);
    }
  }

  /** A stop that succeeds ends a parked read with "closed". One that fails touches nothing. */
  lemma StopReleases(c: CoreConn, p: Park, id: StreamId, code: nat, r: Reply)
    ensures var q := Apply(c, p, StopCmd(id, code, r)).1;
            if code < 0x4000_0000_0000_0000 && id in c.streams.recv then
              && id !in q.readers && (r, Done) in q.answers && p.answers <= q.answers
              && (id in p.readers ==> (p.readers[id].reply, Failed(ClosedStream)) in q.answers)
            else exists e :: q == p.(answers := p.answers + [(r, Failed(e))])
  {
    var a := StreamStop(c, id, code).1;
    if a.Ok? {
      var g := DropRead(p, id, ClosedStream);
      var q := Apply(c, p, StopCmd(id, code, r)).1;
      assert q.answers[|g.answers|] == (r, Done);
      if id in p.readers {
        assert q.answers[|p.answers|] == (p.readers[id].reply, Failed(ClosedStream));
      }
    } else {
      assert Apply(c, p, StopCmd(id, code, r)).1 == p.(answers := p.answers + [(r, Failed(a.error))]);
    }
  }

  /** An acknowledged finish tells every waiter that it is done, and keeps none. */
  lemma AckTellsDone(p: Park, id: StreamId)
    ensures var q := OnFinAcked(p, id);
            id !in q.fins && (id in p.fins ==> forall w :: w in p.fins[id] ==> (w, Done) in q.answers)
  {
    DropFinsTells(p, id, Done);
  }

  /** A stop by the peer tells every waiter so, with its code; and ends a parked write on a half that the library has
      seen stopped. */
  lemma StopByPeerTells(c: CoreConn, p: Park, id: StreamId, code: nat)
    ensures var q := OnStopped(c, p, id, code).1;
            && id !in q.fins
            && (id in p.fins ==> forall w :: w in p.fins[id] ==> (w, Failed(PeerStopped(code))) in q.answers)
            && (id in p.writes && p.writes[id].offset < |p.writes[id].data|
                && id in c.streams.send && !c.streams.send[id].finished && c.streams.send[id].stopped.Some? ==>
                  id !in q.writes && (p.writes[id].reply, Failed(PeerStopped(c.streams.send[id].stopped.value))) in q.answers)
  {
    var f := DropFins(p, id, Failed(PeerStopped(code)));
    DropFinsTells(p, id, Failed(PeerStopped(code)));
    WakeTells(c, f, id);
    var q := OnStopped(c, p, id, code).1;
    assert forall x :: x in f.answers ==> x in q.answers;
  }

  lemma WakeTells(c: CoreConn, p: Park, id: StreamId)
    ensures var q := OnWritable(c, p, id).1;
            && p.answers <= q.answers && q.fins == p.fins
            && (id in p.writes && p.writes[id].offset < |p.writes[id].data|
                && id in c.streams.send && !c.streams.send[id].finished && c.streams.send[id].stopped.Some? ==>
                  id !in q.writes && (p.writes[id].reply, Failed(PeerStopped(c.streams.send[id].stopped.value))) in q.answers)
  {
    if id in p.writes {
      var w := p.writes[id];
      OfferWriteFin(c, p.(writes := p.writes - {id}), id, w);
      if w.offset < |w.data| && id in c.streams.send && !c.streams.send[id].finished && c.streams.send[id].stopped.Some? {
        var q := OnWritable(c, p, id).1;
        assert q.answers[|p.answers|] == (w.reply, Failed(PeerStopped(c.streams.send[id].stopped.value)));
      }
    }
  }

  // ---------------------------------------------------------------------
  // Commands that are answered at once
  // ---------------------------------------------------------------------

  /** Opening gives the next stream the library has, or tells that the connection is closed or has none. */
  lemma OpenTells(c: CoreConn, p: Park, r: Reply)
    ensures Apply(c, p, OpenCmd(r)).1 == p.(answers := p.answers +
              [(r, if c.streams.closed then Failed(Closed)
                   else if c.streams.openable == [] then Failed(ClosedStream) else GotStream(c.streams.openable[0]))])
  {
  }

  /** Accepting gives the stream that has waited longest, or waits behind the other accepts. */
  lemma AcceptTells(c: CoreConn, p: Park, r: Reply)
    ensures Apply(c, p, AcceptCmd(r)).1 ==
            if Available(c) != [] then p.(answers := p.answers + [(r, GotStream(Available(c)[0]))])
            else p.(accepts := p.accepts + [r])
  {
  }

  /** Finishing is done if the half is open and no fact is recorded; it tells of a stop, and is refused otherwise. */
  lemma FinishTells(c: CoreConn, p: Park, id: StreamId, r: Reply)
    ensures var told := if id in c.book.sendFins
                        then if c.book.sendFins[id].Stopped? then Failed(PeerStopped(c.book.sendFins[id].code)) else Failed(ClosedStream)
                        else if id !in c.streams.send || c.streams.send[id].finished then Failed(ClosedStream)
                        else if c.streams.send[id].stopped.Some? then Failed(PeerStopped(c.streams.send[id].stopped.value))
                        else Done;
            Apply(c, p, FinishCmd(id, r)).1 == p.(answers := p.answers + [(r, told)])
  {
  }

  /** Releasing forgets the send fact of the stream and nothing else. */
  lemma ReleaseForgets(c: CoreConn, p: Park, id: StreamId)
    ensures var (d, q) := Apply(c, p, ReleaseCmd(id));
            && q == p && FactOf(d.book, id) == None && d.streams == c.streams
            && (forall x :: x != id ==> FactOf(d.book, x) == FactOf(c.book, x))
  {
  }
}
