/** Conservation of replies: every reply a command brought is parked in one place or was answered once. */
module ReplyRuns {
  import opened Base
  import opened ByteCodec
  import opened ConnSpec
  import opened StreamSpec
  import opened ParkSpec

  /** The places where a reply can be parked. */
  datatype Slot = AcceptSlot | WriteSlot(id: StreamId) | ReadSlot(id: StreamId) | FinSlot(id: StreamId)

  ghost predicate Holds(p: Park, s: Slot, r: Reply) {
    match s
    case AcceptSlot => r in p.accepts
    case WriteSlot(id) => id in p.writes && p.writes[id].reply == r
    case ReadSlot(id) => id in p.readers && p.readers[id].reply == r
    case FinSlot(id) => id in p.fins && r in p.fins[id]
  }

  ghost predicate Held(p: Park, r: Reply) {
    exists s :: Holds(p, s, r)
  }

  ghost predicate IsAnswered(answers: seq<(Reply, Answer)>, r: Reply) {
    exists i :: 0 <= i < |answers| && answers[i].0 == r
  }

  /** Every issued reply is in hand, parked in exactly one place, or answered exactly once. Between calls
      nothing is in hand. */
  ghost predicate Kept(p: Park, issued: set<Reply>, hand: set<Reply>) {
    && NoDup(p.accepts) && (forall id :: id in p.fins ==> NoDup(p.fins[id]))
    && (forall s, t, r :: Holds(p, s, r) && Holds(p, t, r) ==> s == t)
    && (forall s, r :: Holds(p, s, r) ==> r in issued && r !in hand && !IsAnswered(p.answers, r))
    && (forall i, j :: 0 <= i < j < |p.answers| ==> p.answers[i].0 != p.answers[j].0)
    && (forall r :: IsAnswered(p.answers, r) ==> r in issued && r !in hand)
    && hand <= issued
    && (forall r :: r in issued ==> r in hand || IsAnswered(p.answers, r) || Held(p, r))
  }

  // ---------------------------------------------------------------------
  // Elementary moves
  // ---------------------------------------------------------------------

  lemma AnsweredPush(answers: seq<(Reply, Answer)>, r: Reply, a: Answer, x: Reply)
    ensures IsAnswered(answers + [(r, a)], x) <==> IsAnswered(answers, x) || x == r
  {
    var more := answers + [(r, a)];
    if IsAnswered(answers, x) {
      var i :| 0 <= i < |answers| && answers[i].0 == x;
      assert more[i].0 == x;
    }
    if x == r {
      assert more[|answers|].0 == x;
    }
  }

  lemma SendKept(p: Park, issued: set<Reply>, hand: set<Reply>, r: Reply, a: Answer)
    requires Kept(p, issued, hand) && r in hand
    ensures Kept(Send(p, r, a), issued, hand - {r})
  {
    var q := Send(p, r, a);
    forall x ensures IsAnswered(q.answers, x) <==> IsAnswered(p.answers, x) || x == r {
      AnsweredPush(p.answers, r, a, x);
    }
    forall s, x ensures Holds(q, s, x) <==> Holds(p, s, x) {
    }
    forall x | x in issued ensures x in hand - {r} || IsAnswered(q.answers, x) || Held(q, x) {
      if Held(p, x) {
        var s :| Holds(p, s, x);
        assert Holds(q, s, x);
      }
    }
    forall i, j | 0 <= i < j < |q.answers| ensures q.answers[i].0 != q.answers[j].0 {
      if j == |p.answers| {
        assert IsAnswered(p.answers, p.answers[i].0);
      }
    }
  }

  /** Moving replies between the park and the hand: `q` holds what `p` holds, except that the replies in
      `moved` have left slot `s`. */
  lemma TakeKept(p: Park, q: Park, issued: set<Reply>, hand: set<Reply>, s: Slot, moved: set<Reply>)
    requires Kept(p, issued, hand) && q.answers == p.answers
    requires NoDup(q.accepts) && forall id :: id in q.fins ==> NoDup(q.fins[id])
    requires forall r :: r in moved ==> Holds(p, s, r)
    requires forall t, r :: Holds(q, t, r) <==> Holds(p, t, r) && !(t == s && r in moved)
    ensures Kept(q, issued, hand + moved)
  {
    forall r | r in issued ensures r in hand + moved || IsAnswered(q.answers, r) || Held(q, r) {
      if Held(p, r) && r !in moved {
        var t :| Holds(p, t, r);
        assert Holds(q, t, r);
      }
    }
  }

  /** ... or the reply `r`, in hand before, has entered slot `s`. */
  lemma PutKept(p: Park, q: Park, issued: set<Reply>, hand: set<Reply>, s: Slot, r: Reply)
    requires Kept(p, issued, hand) && q.answers == p.answers && r in hand
    requires NoDup(q.accepts) && forall id :: id in q.fins ==> NoDup(q.fins[id])
    requires forall t, x :: Holds(q, t, x) <==> Holds(p, t, x) || (t == s && x == r)
    ensures Kept(q, issued, hand - {r})
  {
    assert Holds(q, s, r);
    forall x | x in issued ensures x in hand - {r} || IsAnswered(q.answers, x) || Held(q, x) {
      if Held(p, x) {
        var t :| Holds(p, t, x);
        assert Holds(q, t, x);
      }
    }
  }

  lemma {:induction false} SendAllKept(p: Park, issued: set<Reply>, hand: set<Reply>, rs: seq<Reply>, a: Answer)
    requires Kept(p, issued, hand) && NoDup(rs) && Elems(rs) <= hand
    ensures Kept(SendAll(p, rs, a), issued, hand - Elems(rs))
    ensures SendAll(p, rs, a) == p.(answers := SendAll(p, rs, a).answers)
  {
    if rs == [] {
      assert hand - Elems(rs) == hand;
    } else {
      var n := |rs| - 1;
      assert rs == rs[..n] + [rs[n]];
      assert Elems(rs) == Elems(rs[..n]) + {rs[n]};
      assert rs[n] !in Elems(rs[..n]);
      SendAllKept(p, issued, hand, rs[..n], a);
      SendKept(SendAll(p, rs[..n], a), issued, hand - Elems(rs[..n]), rs[n], a);
      assert hand - Elems(rs[..n]) - {rs[n]} == hand - Elems(rs);
    }
  }

  // ---------------------------------------------------------------------
  // Failing one operation
  // ---------------------------------------------------------------------

  lemma DropWriteKept(p: Park, issued: set<Reply>, hand: set<Reply>, id: StreamId, e: ConnError)
    requires Kept(p, issued, hand)
    ensures Kept(DropWrite(p, id, e), issued, hand) && id !in DropWrite(p, id, e).writes
  {
    if id in p.writes {
      var r := p.writes[id].reply;
      assert Holds(p, WriteSlot(id), r);
      TakeKept(p, p.(writes := p.writes - {id}), issued, hand, WriteSlot(id), {r});
      SendKept(p.(writes := p.writes - {id}), issued, hand + {r}, r, Failed(e));
      assert hand + {r} - {r} == hand;
    }
  }

  lemma DropReadKept(p: Park, issued: set<Reply>, hand: set<Reply>, id: StreamId, e: ConnError)
    requires Kept(p, issued, hand)
    ensures Kept(DropRead(p, id, e), issued, hand) && id !in DropRead(p, id, e).readers
  {
    if id in p.readers {
      var r := p.readers[id].reply;
      assert Holds(p, ReadSlot(id), r);
      TakeKept(p, p.(readers := p.readers - {id}), issued, hand, ReadSlot(id), {r});
      SendKept(p.(readers := p.readers - {id}), issued, hand + {r}, r, Failed(e));
      assert hand + {r} - {r} == hand;
    }
  }

  lemma DropFinsKept(p: Park, issued: set<Reply>, hand: set<Reply>, id: StreamId, a: Answer)
    requires Kept(p, issued, hand)
    ensures Kept(DropFins(p, id, a), issued, hand)
    ensures DropFins(p, id, a).fins == p.fins - {id}
    ensures DropFins(p, id, a) == p.(fins := p.fins - {id}, answers := DropFins(p, id, a).answers)
  {
    if id in p.fins {
      var rs := p.fins[id];
      forall r | r in Elems(rs) ensures r !in hand {
        assert Holds(p, FinSlot(id), r);
      }
      TakeKept(p, p.(fins := p.fins - {id}), issued, hand, FinSlot(id), Elems(rs));
      SendAllKept(p.(fins := p.fins - {id}), issued, hand + Elems(rs), rs, a);
      assert hand + Elems(rs) - Elems(rs) == hand;
    }
  }

  // ---------------------------------------------------------------------
  // Offering
  // ---------------------------------------------------------------------

  lemma ParkWriteKept(p: Park, issued: set<Reply>, hand: set<Reply>, id: StreamId, w: PendingWrite)
    requires Kept(p, issued, hand) && w.reply in hand
    ensures Kept(ParkWrite(p, id, w), issued, hand - {w.reply})
  {
    DropWriteKept(p, issued, hand, id, Closed);
    PutKept(DropWrite(p, id, Closed), ParkWrite(p, id, w), issued, hand, WriteSlot(id), w.reply);
  }

  lemma ParkReadKept(p: Park, issued: set<Reply>, hand: set<Reply>, id: StreamId, r: PendingRead)
    requires Kept(p, issued, hand) && r.reply in hand
    ensures Kept(ParkRead(p, id, r), issued, hand - {r.reply})
  {
    DropReadKept(p, issued, hand, id, Closed);
    PutKept(DropRead(p, id, Closed), ParkRead(p, id, r), issued, hand, ReadSlot(id), r.reply);
  }

  lemma OfferWriteKept(c: CoreConn, p: Park, issued: set<Reply>, hand: set<Reply>, id: StreamId, w: PendingWrite)
    requires Kept(p, issued, hand) && w.reply in hand
    ensures Kept(OfferWrite(c, p, id, w).1, issued, hand - {w.reply})
  {
    if w.offset > |w.data| {
      SendKept(p, issued, hand, w.reply, Done);
    } else {
      var (d, offset, answer) := PumpedWrite(c, id, w.data, w.offset);
      if answer.Some? {
        SendKept(p, issued, hand, w.reply, UnitAnswer(answer.value));
      } else {
        ParkWriteKept(p, issued, hand, id, w.(offset := offset));
      }
    }
  }

  lemma OfferReadKept(c: CoreConn, p: Park, issued: set<Reply>, hand: set<Reply>, id: StreamId, r: PendingRead)
    requires Kept(p, issued, hand) && r.reply in hand
    ensures Kept(OfferRead(c, p, id, r).1, issued, hand - {r.reply})
  {
    var (d, buf, answer) := PumpedRead(c, id, r);
    if answer.Some? {
      SendKept(p, issued, hand, r.reply, BytesAnswer(answer.value));
    } else {
      ParkReadKept(p, issued, hand, id, r.(buf := buf));
    }
  }

  // ---------------------------------------------------------------------
  // Commands
  // ---------------------------------------------------------------------

  lemma IssueKept(p: Park, issued: set<Reply>, r: Reply)
    requires Kept(p, issued, {}) && r !in issued
    ensures Kept(p, issued + {r}, {r})
  {
  }

  lemma ParkFinKept(p: Park, issued: set<Reply>, hand: set<Reply>, id: StreamId, r: Reply)
    requires Kept(p, issued, hand) && r in hand
    ensures Kept(ParkFin(p, id, r), issued, hand - {r})
  {
    var q := ParkFin(p, id, r);
    if id in p.fins {
      assert Holds(p, FinSlot(id), r) <==> r in p.fins[id];
      PushFacts(p.fins[id], r);
    }
    PutKept(p, q, issued, hand, FinSlot(id), r);
  }

  lemma ParkAcceptKept(p: Park, issued: set<Reply>, hand: set<Reply>, r: Reply)
    requires Kept(p, issued, hand) && r in hand
    ensures Kept(p.(accepts := p.accepts + [r]), issued, hand - {r})
  {
    assert Holds(p, AcceptSlot, r) <==> r in p.accepts;
    PushFacts(p.accepts, r);
    PutKept(p, p.(accepts := p.accepts + [r]), issued, hand, AcceptSlot, r);
  }

  /** A command with a fresh reply leaves it parked once or answered once. */
  lemma ApplyKept(c: CoreConn, p: Park, issued: set<Reply>, cmd: Cmd)
    requires Kept(p, issued, {}) && (ReplyOf(cmd).Some? ==> ReplyOf(cmd).value !in issued)
    ensures Kept(Apply(c, p, cmd).1, if ReplyOf(cmd).Some? then issued + {ReplyOf(cmd).value} else issued, {})
  {
    if ReplyOf(cmd).Some? {
      var r := cmd.reply;
      var more := issued + {r};
      IssueKept(p, issued, r);
      assert {r} - {r} == {};
      match cmd {
        case OpenCmd(_) => SendKept(p, more, {r}, r, IdAnswer(OpenStream(c).1));
        case AcceptCmd(_) =>
          var a := AcceptStream(c).1;
          if a.Some? { SendKept(p, more, {r}, r, GotStream(a.value)); } else { ParkAcceptKept(p, more, {r}, r); }
        case WriteCmd(id, data, _) => OfferWriteKept(c, p, more, {r}, id, PendingWrite(data, 0, r));
        case FinishCmd(id, _) => SendKept(p, more, {r}, r, UnitAnswer(StreamFinish(c, id).1));
        case WaitCmd(id, _) =>
          var a := WaitAnswer(FactOf(c.book, id));
          if a.Some? { SendKept(p, more, {r}, r, a.value); } else { ParkFinKept(p, more, {r}, id, r); }
        case ResetCmd(id, code, _) => ResetKept(c, p, more, id, code, r);
        case StopCmd(id, code, _) =>
          var a := StreamStop(c, id, code).1;
          DropReadKept(p, more, {r}, id, ClosedStream);
          SendKept(if a.Ok? then DropRead(p, id, ClosedStream) else p, more, {r}, r, UnitAnswer(a));
        case ReadToEndCmd(id, limit, _) => OfferReadKept(c, p, more, {r}, id, PendingRead([], ToEnd(limit), r));
        case ReadCmd(id, max, _) => OfferReadKept(c, p, more, {r}, id, PendingRead([], UpTo(Max(max, 1)), r));
      }
    }
  }

  lemma ResetKept(c: CoreConn, p: Park, issued: set<Reply>, id: StreamId, code: nat, r: Reply)
    requires Kept(p, issued, {r})
    ensures Kept(Apply(c, p, ResetCmd(id, code, r)).1, issued, {})
  {
    var a := StreamReset(c, id, code).1;
    var f := DropFins(p, id, Failed(ClosedStream));
    DropFinsKept(p, issued, {r}, id, Failed(ClosedStream));
    DropWriteKept(f, issued, {r}, id, ClosedStream);
    SendKept(if a.Ok? then DropWrite(f, id, ClosedStream) else p, issued, {r}, r, UnitAnswer(a));
    assert {r} - {r} == {};
  }

  // ---------------------------------------------------------------------
  // Events
  // ---------------------------------------------------------------------

  lemma {:induction false} OnStreamOpenedKept(c: CoreConn, p: Park, issued: set<Reply>)
    requires Kept(p, issued, {})
    ensures Kept(OnStreamOpened(c, p).1, issued, {})
    decreases |p.accepts|
  {
    if p.accepts == [] || AcceptStream(c).1 == None {
    } else {
      var (d, a) := AcceptStream(c);
      var r, q := p.accepts[0], p.(accepts := p.accepts[1..]);
      TailFacts(p.accepts);
      forall x ensures x in p.accepts[1..] <==> x in p.accepts && x != r {
        assert x in Elems(p.accepts[1..]) <==> x in Elems(p.accepts) - {r};
      }
      TakeKept(p, q, issued, {}, AcceptSlot, {r});
      SendKept(q, issued, {} + {r}, r, GotStream(a.value));
      assert {} + {r} - {r} == {};
      OnStreamOpenedKept(d, Send(q, r, GotStream(a.value)), issued);
    }
  }

  lemma OnReadableKept(c: CoreConn, p: Park, issued: set<Reply>, id: StreamId)
    requires Kept(p, issued, {})
    ensures Kept(OnReadable(c, p, id).1, issued, {})
  {
    if id in p.readers {
      var r := p.readers[id].reply;
      assert Holds(p, ReadSlot(id), r);
      TakeKept(p, p.(readers := p.readers - {id}), issued, {}, ReadSlot(id), {r});
      OfferReadKept(c, p.(readers := p.readers - {id}), issued, {} + {r}, id, p.readers[id]);
      assert {} + {r} - {r} == {};
    }
  }

  lemma OnWritableKept(c: CoreConn, p: Park, issued: set<Reply>, id: StreamId)
    requires Kept(p, issued, {})
    ensures Kept(OnWritable(c, p, id).1, issued, {})
  {
    if id in p.writes {
      var r := p.writes[id].reply;
      assert Holds(p, WriteSlot(id), r);
      TakeKept(p, p.(writes := p.writes - {id}), issued, {}, WriteSlot(id), {r});
      OfferWriteKept(c, p.(writes := p.writes - {id}), issued, {} + {r}, id, p.writes[id]);
      assert {} + {r} - {r} == {};
    }
  }

  // ---------------------------------------------------------------------
  // Loss
  // ---------------------------------------------------------------------

  lemma FailAcceptsKept(p: Park, issued: set<Reply>)
    requires Kept(p, issued, {})
    ensures Kept(FailAccepts(p), issued, {}) && FailAccepts(p) == p.(accepts := [], answers := FailAccepts(p).answers)
  {
    var all := Elems(p.accepts);
    TakeKept(p, p.(accepts := []), issued, {}, AcceptSlot, all);
    assert {} + all == all;
    SendAllKept(p.(accepts := []), issued, all, p.accepts, Failed(Closed));
    assert all - all == {};
  }

  lemma {:induction false} FailWritesKept(p: Park, issued: set<Reply>, order: seq<StreamId>)
    requires Kept(p, issued, {})
    ensures Kept(FailWrites(p, order), issued, {})
    ensures FailWrites(p, order) == p.(writes := p.writes - Elems(order), answers := FailWrites(p, order).answers)
  {
    if order == [] {
      assert p.writes - Elems(order) == p.writes;
    } else {
      var n := |order| - 1;
      assert order == order[..n] + [order[n]];
      assert Elems(order) == Elems(order[..n]) + {order[n]};
      FailWritesKept(p, issued, order[..n]);
      DropWriteKept(FailWrites(p, order[..n]), issued, {}, order[n], Closed);
      assert p.writes - Elems(order[..n]) - {order[n]} == p.writes - Elems(order);
    }
  }

  lemma {:induction false} FailReadsKept(p: Park, issued: set<Reply>, order: seq<StreamId>)
    requires Kept(p, issued, {})
    ensures Kept(FailReads(p, order), issued, {})
    ensures FailReads(p, order) == p.(readers := p.readers - Elems(order), answers := FailReads(p, order).answers)
  {
    if order == [] {
      assert p.readers - Elems(order) == p.readers;
    } else {
      var n := |order| - 1;
      assert order == order[..n] + [order[n]];
      assert Elems(order) == Elems(order[..n]) + {order[n]};
      FailReadsKept(p, issued, order[..n]);
      DropReadKept(FailReads(p, order[..n]), issued, {}, order[n], Closed);
      assert p.readers - Elems(order[..n]) - {order[n]} == p.readers - Elems(order);
    }
  }

  lemma {:induction false} FailFinsKept(p: Park, issued: set<Reply>, order: seq<StreamId>)
    requires Kept(p, issued, {})
    ensures Kept(FailFins(p, order), issued, {})
    ensures FailFins(p, order) == p.(fins := p.fins - Elems(order), answers := FailFins(p, order).answers)
  {
    if order == [] {
      assert p.fins - Elems(order) == p.fins;
    } else {
      var n := |order| - 1;
      assert order == order[..n] + [order[n]];
      assert Elems(order) == Elems(order[..n]) + {order[n]};
      FailFinsKept(p, issued, order[..n]);
      DropFinsKept(FailFins(p, order[..n]), issued, {}, order[n], Failed(Closed));
      assert p.fins - Elems(order[..n]) - {order[n]} == p.fins - Elems(order);
    }
  }

  /** Once everything has failed nothing is parked, so every reply ever issued has its one answer. */
  lemma FailAllAnswers(p: Park, issued: set<Reply>, o: DrainOrder)
    requires Kept(p, issued, {}) && Covers(p, o)
    ensures var q := FailAll(p, o);
            && Kept(q, issued, {})
            && (forall s, r :: !Holds(q, s, r))
            && (forall r :: r in issued ==> IsAnswered(q.answers, r))
  {
    var a := FailAccepts(p);
    FailAcceptsKept(p, issued);
    FailWritesKept(a, issued, o.writes);
    var b := FailWrites(a, o.writes);
    FailReadsKept(b, issued, o.readers);
    var c := FailReads(b, o.readers);
    FailFinsKept(c, issued, o.fins);
    var q := FailAll(p, o);
    assert q.writes.Keys == {} && q.readers.Keys == {} && q.fins.Keys == {} && q.accepts == [];
    assert forall s, r :: !Holds(q, s, r);
    forall r | r in issued ensures IsAnswered(q.answers, r) {
      assert !Held(q, r);
    }
  }

  // ---------------------------------------------------------------------
  // Runs
  // ---------------------------------------------------------------------

  /** What can happen to a surfaced connection before it is lost. The library may change its streams in
      any way at any time. */
  datatype Happening =
    | Commanded(cmd: Cmd)
    | StreamArrived
    | BecameReadable(id: StreamId)
    | BecameWritable(id: StreamId)
    | FinWasAcked(id: StreamId)
    | WasStopped(id: StreamId, code: nat)
    | LibraryMoved(to: CoreConn)

  datatype Line = Line(core: CoreConn, park: Park, issued: set<Reply>)

  function Happen(l: Line, h: Happening): Line {
    match h
    case Commanded(cmd) =>
      var (d, q) := Apply(l.core, l.park, cmd);
      Line(d, q, if ReplyOf(cmd).Some? then l.issued + {ReplyOf(cmd).value} else l.issued)
    case StreamArrived => var (d, q) := OnStreamOpened(l.core, l.park); Line(d, q, l.issued)
    case BecameReadable(id) => var (d, q) := OnReadable(l.core, l.park, id); Line(d, q, l.issued)
    case BecameWritable(id) => var (d, q) := OnWritable(l.core, l.park, id); Line(d, q, l.issued)
    case FinWasAcked(id) => l.(park := OnFinAcked(l.park, id))
    case WasStopped(id, code) => var (d, q) := OnStopped(l.core, l.park, id, code); Line(d, q, l.issued)
    case LibraryMoved(to) => l.(core := to)
  }

  /** Each command brings a reply sender of its own. */
  ghost predicate FreshReply(l: Line, h: Happening) {
    h.Commanded? && ReplyOf(h.cmd).Some? ==> ReplyOf(h.cmd).value !in l.issued
  }

  lemma HappenKept(l: Line, h: Happening)
    requires Kept(l.park, l.issued, {}) && FreshReply(l, h)
    ensures Kept(Happen(l, h).park, Happen(l, h).issued, {})
  {
    match h {
      case Commanded(cmd) => ApplyKept(l.core, l.park, l.issued, cmd);
      case StreamArrived => OnStreamOpenedKept(l.core, l.park, l.issued);
      case BecameReadable(id) => OnReadableKept(l.core, l.park, l.issued, id);
      case BecameWritable(id) => OnWritableKept(l.core, l.park, l.issued, id);
      case FinWasAcked(id) => DropFinsKept(l.park, l.issued, {}, id, Done);
      case WasStopped(id, code) =>
        var q := DropFins(l.park, id, Failed(PeerStopped(code)));
        DropFinsKept(l.park, l.issued, {}, id, Failed(PeerStopped(code)));
        OnWritableKept(l.core, q, l.issued, id);
      case LibraryMoved(to) =>
    }
  }

  function RunLine(l: Line, hs: seq<Happening>): Line {
    if hs == [] then l else Happen(RunLine(l, hs[..|hs| - 1]), hs[|hs| - 1])
  }

  ghost predicate FreshReplies(l: Line, hs: seq<Happening>) {
    forall k :: 0 <= k < |hs| ==> FreshReply(RunLine(l, hs[..k]), hs[k])
  }

  /** An answered reply has one answer, a parked one none. */
  lemma OneAnswer(p: Park, issued: set<Reply>, r: Reply, a: Answer, b: Answer)
    requires Kept(p, issued, {}) && (r, a) in p.answers && (r, b) in p.answers
    ensures a == b
  {
    var i :| 0 <= i < |p.answers| && p.answers[i] == (r, a);
    var j :| 0 <= j < |p.answers| && p.answers[j] == (r, b);
    assert i == j;
  }

  lemma ParkedIsUnanswered(p: Park, issued: set<Reply>, s: Slot, r: Reply, a: Answer)
    requires Kept(p, issued, {}) && Holds(p, s, r)
    ensures (r, a) !in p.answers
  {
    assert !IsAnswered(p.answers, r);
    assert forall i :: 0 <= i < |p.answers| ==> p.answers[i].0 != r;
  }

  /** From any kept state, a run with fresh replies keeps them. */
  lemma {:induction false} RunStaysKept(l: Line, hs: seq<Happening>, k: nat)
    requires k <= |hs| && Kept(l.park, l.issued, {}) && FreshReplies(l, hs)
    ensures Kept(RunLine(l, hs[..k]).park, RunLine(l, hs[..k]).issued, {})
  {
    if k == 0 {
      assert hs[..0] == [];
    } else {
      RunStaysKept(l, hs, k - 1);
      assert FreshReply(RunLine(l, hs[..k - 1]), hs[k - 1]);
      assert hs[..k][..k - 1] == hs[..k - 1];
      HappenKept(RunLine(l, hs[..k - 1]), hs[k - 1]);
    }
  }

  function NewLine(core: CoreConn): Line {
    Line(core, EMPTY_PARK, {})
  }

  /** In every run each reply is parked in exactly one place or has exactly one answer, and if the
      connection is then lost every reply has its answer. */
  lemma RunKeepsReplies(core: CoreConn, hs: seq<Happening>)
    requires FreshReplies(NewLine(core), hs)
    ensures var l := RunLine(NewLine(core), hs);
            && Kept(l.park, l.issued, {})
            && forall o :: Covers(l.park, o) ==> forall r :: r in l.issued ==> IsAnswered(FailAll(l.park, o).answers, r)
  {
    var l := RunLine(NewLine(core), hs);
    RunStaysKept(NewLine(core), hs, |hs|);
    assert hs[..|hs|] == hs;
    forall o | Covers(l.park, o) ensures forall r :: r in l.issued ==> IsAnswered(FailAll(l.park, o).answers, r) {
      FailAllAnswers(l.park, l.issued, o);
    }
  }
}
