/** What single stream calls record and answer, and the order in which streams opened by the peer come out. */
module ConnFacts {
  import opened Base
  import opened ConnSpec
  import opened StreamSpec
  import opened ParkSpec
  import opened Admission
  import opened FinRuns

  /** A finish: on a half that is gone or finished it is refused; on a stopped one the stop is recorded and answered;
      otherwise it is queued. Once a fact is recorded, a finish changes nothing and is refused. */
  lemma FinishRecords(c: CoreConn, id: StreamId)
    ensures var (d, a) := StreamFinish(c, id);
            if id in c.book.sendFins then
              d == c && a.Err?
            else if id !in c.streams.send || c.streams.send[id].finished then
              a == Err(ClosedStream) && id !in d.book.sendFins
            else if c.streams.send[id].stopped.Some? then
              && a == Err(PeerStopped(c.streams.send[id].stopped.value))
              && FactOf(d.book, id) == Some(Stopped(c.streams.send[id].stopped.value))
            else
              a == Ok(()) && FactOf(d.book, id) == Some(Queued) && d.streams.send[id].finished
    ensures forall x :: x != id ==> FactOf(StreamFinish(c, id).0.book, x) == FactOf(c.book, x)
  {
  }

  /** A code is valid exactly if it has at most 62 bits; any other is refused and changes nothing. */
  lemma InvalidCodesAreRefused(c: CoreConn, id: StreamId, code: nat)
    ensures StreamReset(c, id, code) == (c, Err(InvalidErrorCode(code))) <==> code >= 0x4000_0000_0000_0000
    ensures StreamStop(c, id, code) == (c, Err(InvalidErrorCode(code))) <==> code >= 0x4000_0000_0000_0000
  {
  }

  /** A reset with a valid code releases what was remembered of the stream, and of no other; it succeeds exactly if the
      library still has the send half. */
  lemma ResetForgets(c: CoreConn, id: StreamId, code: nat)
    requires code < 0x4000_0000_0000_0000
    ensures var (d, a) := StreamReset(c, id, code);
            && a == (if id in c.streams.send then Ok(()) else Err(ClosedStream))
            && id !in d.streams.send && id !in d.book.sendFins && id !in d.book.finishedReads
            && (forall x :: x != id ==> FactOf(d.book, x) == FactOf(c.book, x) && (x in d.book.finishedReads <==> x in c.book.finishedReads))
  {
  }

  /** A stop with a valid code gives up the receive half and what was remembered of it, and touches no send fact. */
  lemma StopForgets(c: CoreConn, id: StreamId, code: nat)
    requires code < 0x4000_0000_0000_0000
    ensures var (d, a) := StreamStop(c, id, code);
            && a == (if id in c.streams.recv then Ok(()) else Err(ClosedStream))
            && id !in d.streams.recv && id !in d.book.finishedReads && d.book.sendFins == c.book.sendFins
            && (forall x :: x != id ==> (x in d.book.finishedReads <==> x in c.book.finishedReads))
  {
  }

  // ---------------------------------------------------------------------
  // Streams opened by the peer
  // ---------------------------------------------------------------------

  /** The streams that a step reports opened. */
  function OpenedBy(evs: seq<ConnEvent>): seq<StreamId> {
    if evs == [] then [] else OpenedBy(evs[..|evs| - 1]) + if evs[|evs| - 1].Opened? then evs[|evs| - 1].ids else []
  }

  function OpenedIn(steps: seq<BookStep>): seq<StreamId> {
    if steps == [] then []
    else
      OpenedIn(steps[..|steps| - 1]) +
      match steps[|steps| - 1] case Operated(_) => [] case Polled(evs) => OpenedBy(evs)
  }

  /** The streams that accepts took from the bookkeeping. */
  function TakenIn(b: Book, steps: seq<BookStep>): seq<StreamId> {
    if steps == [] then []
    else
      var before := RunBook(b, steps[..|steps| - 1]);
      TakenIn(b, steps[..|steps| - 1]) +
      if steps[|steps| - 1] == Operated(AcceptBi) && before.readyAccepts != [] then [before.readyAccepts[0]] else []
  }

  lemma {:induction false} PollQueuesOpened(b: Book, evs: seq<ConnEvent>)
    ensures ServiceStreams(b, evs).0.readyAccepts == b.readyAccepts + OpenedBy(evs)
  {
    if evs == [] {
      assert b.readyAccepts + [] == b.readyAccepts;
    } else {
      var n := |evs| - 1;
      var (c, p) := ServiceStreams(b, evs[..n]);
      PollQueuesOpened(b, evs[..n]);
      ServeQueuesOpened(c, p, evs[n]);
      assert b.readyAccepts + OpenedBy(evs[..n]) + OpenedBy(evs)[|OpenedBy(evs[..n])|..] == b.readyAccepts + OpenedBy(evs);
    }
  }

  lemma ServeQueuesOpened(b: Book, p: Progress, ev: ConnEvent)
    ensures ServeEvent(b, p, ev).0.readyAccepts == b.readyAccepts + if ev.Opened? then ev.ids else []
  {
  }

  lemma AcceptTakes(b: Book, op: ConnOp)
    ensures ApplyOp(b, op).readyAccepts == if op == AcceptBi && b.readyAccepts != [] then b.readyAccepts[1..] else b.readyAccepts
  {
  }

  lemma TakeFront(a: seq<StreamId>, ready: seq<StreamId>)
    requires ready != []
    ensures a + [ready[0]] + ready[1..] == a + ready
  {
  }

  /** In every run, what accepts took and then what waits is what waited at first and then everything reported opened:
      each stream comes out once, in the order in which the peer opened them. */
  lemma {:induction false} AcceptsInOrder(b: Book, steps: seq<BookStep>)
    ensures TakenIn(b, steps) + RunBook(b, steps).readyAccepts == b.readyAccepts + OpenedIn(steps)
  {
    if steps == [] {
      assert [] + b.readyAccepts == b.readyAccepts + [];
    } else {
      var n := |steps| - 1;
      var before := RunBook(b, steps[..n]);
      AcceptsInOrder(b, steps[..n]);
      var taken, came := TakenIn(b, steps[..n]), OpenedIn(steps[..n]);
      match steps[n] {
        case Operated(op) =>
          AcceptTakes(before, op);
          assert OpenedIn(steps) == came + [] == came;
          if op == AcceptBi && before.readyAccepts != [] {
            TakeFront(taken, before.readyAccepts);
          } else {
            assert TakenIn(b, steps) == taken + [] == taken;
          }
        case Polled(evs) =>
          PollQueuesOpened(before, evs);
          assert TakenIn(b, steps) == taken + [] == taken;
          BothGrow(taken, before.readyAccepts, b.readyAccepts, came, OpenedBy(evs));
      }
    }
  }

  lemma BothGrow(a: seq<StreamId>, b: seq<StreamId>, c: seq<StreamId>, d: seq<StreamId>, more: seq<StreamId>)
    requires a + b == c + d
    ensures a + (b + more) == c + (d + more)
  {
    assert a + (b + more) == a + b + more;
    assert c + (d + more) == c + d + more;
  }
}
