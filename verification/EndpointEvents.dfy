/** Which events a servicing pass raises, from what the connections' event queues yield. */
module EndpointEvents {
  import opened Base
  import opened ConnSpec
  import opened ParkSpec
  import opened EndpointSpec
  import opened EndpointLedger
  import opened EndpointHandles
  import opened EndpointTime
  import opened FinRuns

  // ---------------------------------------------------------------------
  // What is due
  // ---------------------------------------------------------------------

  datatype Kind = OfConnect | OfOpen | OfRead | OfWrite | OfFin(id: StreamId)

  predicate IsOf(e: Event, h: Handle, kind: Kind) {
    && e.conn == h
    && match kind
       case OfConnect => e.Connected?
       case OfOpen => e.StreamOpened?
       case OfRead => e.StreamReadable?
       case OfWrite => e.StreamWritable?
       case OfFin(id) => (e.StreamFinAcked? && e.id == id) || (e.StreamStopped? && e.id == id)
  }

  /** The events of one kind, in their order. */
  function Only(es: seq<Event>, h: Handle, kind: Kind): seq<Event> {
    if es == [] then []
    else Only(es[..|es| - 1], h, kind) + if IsOf(es[|es| - 1], h, kind) then [es[|es| - 1]] else []
  }

  /** What one event of the connection's queue calls for. */
  function Calls(ev: ConnEvent, h: Handle, kind: Kind): seq<Event> {
    match kind
    case OfConnect => if ev.HandshakeDone? then [Connected(h)] else []
    case OfOpen => if ev.Opened? then seq(|ev.ids|, i requires 0 <= i < |ev.ids| => StreamOpened(h, ev.ids[i])) else []
    case OfRead => if ev.Readable? then [StreamReadable(h, ev.id)] else []
    case OfWrite => if ev.Writable? then [StreamWritable(h, ev.id)] else []
    case OfFin(id) =>
      if ev == Finished(id) then [StreamFinAcked(h, id)]
      else if ev.StoppedByPeer? && ev.id == id then [StreamStopped(h, id, ev.code)] else []
  }

  function AllCalls(evs: seq<ConnEvent>, h: Handle, kind: Kind): seq<Event> {
    if evs == [] then [] else AllCalls(evs[..|evs| - 1], h, kind) + Calls(evs[|evs| - 1], h, kind)
  }

  /** What a batch raises: `Connected` once however often it is reported, everything about arrival and readiness as
      often as it is reported, and about a finish the first fact only, unless an earlier batch settled it. */
  function Due(settled: bool, evs: seq<ConnEvent>, h: Handle, kind: Kind): seq<Event> {
    var all := AllCalls(evs, h, kind);
    match kind
    case OfConnect => all[..Min(|all|, 1)]
    case OfFin(id) => if settled then [] else all[..Min(|all|, 1)]
    case _ => all
  }

  // ---------------------------------------------------------------------
  // Filtering
  // ---------------------------------------------------------------------

  lemma {:induction false} OnlyConcat(a: seq<Event>, b: seq<Event>, h: Handle, kind: Kind)
    ensures Only(a + b, h, kind) == Only(a, h, kind) + Only(b, h, kind)
  {
    if b == [] {
      assert a + b == a;
    } else {
      var n := |b| - 1;
      assert (a + b)[..|a + b| - 1] == a + b[..n];
      OnlyConcat(a, b[..n], h, kind);
    }
  }

  lemma {:induction false} OnlyAll(es: seq<Event>, h: Handle, kind: Kind)
    requires forall i :: 0 <= i < |es| ==> IsOf(es[i], h, kind)
    ensures Only(es, h, kind) == es
  {
    if es == [] {
    } else {
      OnlyAll(es[..|es| - 1], h, kind);
    }
  }

  lemma {:induction false} OnlyNone(es: seq<Event>, h: Handle, kind: Kind)
    requires forall i :: 0 <= i < |es| ==> !IsOf(es[i], h, kind)
    ensures Only(es, h, kind) == []
  {
    if es == [] {
    } else {
      OnlyNone(es[..|es| - 1], h, kind);
    }
  }

  // ---------------------------------------------------------------------
  // One connection's progress
  // ---------------------------------------------------------------------

  function Opens(h: Handle, ids: seq<StreamId>): seq<Event> {
    seq(|ids|, i requires 0 <= i < |ids| => StreamOpened(h, ids[i]))
  }

  function Reads(h: Handle, ids: seq<StreamId>): seq<Event> {
    seq(|ids|, i requires 0 <= i < |ids| => StreamReadable(h, ids[i]))
  }

  function Writes(h: Handle, ids: seq<StreamId>): seq<Event> {
    seq(|ids|, i requires 0 <= i < |ids| => StreamWritable(h, ids[i]))
  }

  function Acks(h: Handle, ids: seq<StreamId>): seq<Event> {
    seq(|ids|, i requires 0 <= i < |ids| => StreamFinAcked(h, ids[i]))
  }

  function Stops(h: Handle, stops: seq<(StreamId, nat)>): seq<Event> {
    seq(|stops|, i requires 0 <= i < |stops| => StreamStopped(h, stops[i].0, stops[i].1))
  }

  lemma ProgressParts(h: Handle, p: Progress)
    ensures ProgressEvents(h, p) ==
            (if p.connected then [Connected(h)] else []) + Opens(h, p.arrived) + Reads(h, p.readable) + Writes(h, p.writable)
            + Acks(h, p.finAcked) + Stops(h, p.stopped)
  {
    assert StreamEvents(h, p.arrived, (c: Handle, id: StreamId) => StreamOpened(c, id)) == Opens(h, p.arrived);
    assert StreamEvents(h, p.readable, (c: Handle, id: StreamId) => StreamReadable(c, id)) == Reads(h, p.readable);
    assert StreamEvents(h, p.writable, (c: Handle, id: StreamId) => StreamWritable(c, id)) == Writes(h, p.writable);
    assert StreamEvents(h, p.finAcked, (c: Handle, id: StreamId) => StreamFinAcked(c, id)) == Acks(h, p.finAcked);
  }

  lemma OnlyFive(a: seq<Event>, b: seq<Event>, c: seq<Event>, d: seq<Event>, e: seq<Event>, f: seq<Event>, h: Handle, kind: Kind)
    ensures Only(a + b + c + d + e + f, h, kind) ==
            Only(a, h, kind) + Only(b, h, kind) + Only(c, h, kind) + Only(d, h, kind) + Only(e, h, kind) + Only(f, h, kind)
  {
    OnlyConcat(a, b, h, kind);
    OnlyConcat(a + b, c, h, kind);
    OnlyConcat(a + b + c, d, h, kind);
    OnlyConcat(a + b + c + d, e, h, kind);
    OnlyConcat(a + b + c + d + e, f, h, kind);
  }

  lemma {:induction false} OnlyAcks(h: Handle, ids: seq<StreamId>, id: StreamId)
    ensures Only(Acks(h, ids), h, OfFin(id)) == seq(|AckReports(ids, id)|, i => StreamFinAcked(h, id))
  {
    if ids == [] {
    } else {
      var n := |ids| - 1;
      assert Acks(h, ids)[..n] == Acks(h, ids[..n]);
      OnlyAcks(h, ids[..n], id);
    }
  }

  lemma {:induction false} OnlyStops(h: Handle, stops: seq<(StreamId, nat)>, id: StreamId)
    ensures |Only(Stops(h, stops), h, OfFin(id))| == |StopReports(stops, id)|
    ensures forall i :: 0 <= i < |StopReports(stops, id)| ==>
              StopReports(stops, id)[i].Stopped? && Only(Stops(h, stops), h, OfFin(id))[i] == StreamStopped(h, id, StopReports(stops, id)[i].code)
  {
    if stops == [] {
    } else {
      var n := |stops| - 1;
      assert Stops(h, stops)[..n] == Stops(h, stops[..n]);
      OnlyStops(h, stops[..n], id);
    }
  }

  /** The part of one connection's events that is of one kind. */
  function PartOf(h: Handle, p: Progress, kind: Kind): seq<Event> {
    match kind
    case OfConnect => if p.connected then [Connected(h)] else []
    case OfOpen => Opens(h, p.arrived)
    case OfRead => Reads(h, p.readable)
    case OfWrite => Writes(h, p.writable)
    case OfFin(id) => Only(Acks(h, p.finAcked), h, kind) + Only(Stops(h, p.stopped), h, kind)
  }

  lemma OnlyKeeps(es: seq<Event>, h: Handle, kind: Kind, all: bool)
    requires forall i :: 0 <= i < |es| ==> (IsOf(es[i], h, kind) <==> all)
    ensures Only(es, h, kind) == if all then es else []
  {
    if all { OnlyAll(es, h, kind); } else { OnlyNone(es, h, kind); }
  }

  lemma Alone(x: seq<Event>, y: seq<Event>)
    ensures x + [] + [] + [] + [] + [] == x
    ensures [] + x + [] + [] + [] + [] == x
    ensures [] + [] + x + [] + [] + [] == x
    ensures [] + [] + [] + x + [] + [] == x
    ensures [] + [] + [] + [] + x + y == x + y
  {
  }

  lemma FinParts(h: Handle, p: Progress, kind: Kind)
    requires !kind.OfFin?
    ensures Only(Acks(h, p.finAcked), h, kind) == [] && Only(Stops(h, p.stopped), h, kind) == []
  {
    OnlyNone(Acks(h, p.finAcked), h, kind);
    OnlyNone(Stops(h, p.stopped), h, kind);
  }

  lemma ConnectPart(h: Handle, p: Progress, kind: Kind)
    ensures var c := if p.connected then [Connected(h)] else [];
            Only(c, h, kind) == if kind == OfConnect then c else []
  {
    OnlyKeeps(if p.connected then [Connected(h)] else [], h, kind, kind == OfConnect);
  }

  lemma OpenPart(h: Handle, p: Progress, kind: Kind)
    ensures Only(Opens(h, p.arrived), h, kind) == if kind == OfOpen then Opens(h, p.arrived) else []
  {
    OnlyKeeps(Opens(h, p.arrived), h, kind, kind == OfOpen);
  }

  lemma ReadPart(h: Handle, p: Progress, kind: Kind)
    ensures Only(Reads(h, p.readable), h, kind) == if kind == OfRead then Reads(h, p.readable) else []
  {
    OnlyKeeps(Reads(h, p.readable), h, kind, kind == OfRead);
  }

  lemma WritePart(h: Handle, p: Progress, kind: Kind)
    ensures Only(Writes(h, p.writable), h, kind) == if kind == OfWrite then Writes(h, p.writable) else []
  {
    OnlyKeeps(Writes(h, p.writable), h, kind, kind == OfWrite);
  }

  lemma ProgressHas(h: Handle, p: Progress, kind: Kind)
    ensures Only(ProgressEvents(h, p), h, kind) == PartOf(h, p, kind)
  {
    var c := if p.connected then [Connected(h)] else [];
    ProgressParts(h, p);
    OnlyFive(c, Opens(h, p.arrived), Reads(h, p.readable), Writes(h, p.writable), Acks(h, p.finAcked), Stops(h, p.stopped), h, kind);
    ConnectPart(h, p, kind);
    OpenPart(h, p, kind);
    ReadPart(h, p, kind);
    WritePart(h, p, kind);
    if kind.OfFin? {
      Alone(Only(Acks(h, p.finAcked), h, kind), Only(Stops(h, p.stopped), h, kind));
    } else {
      FinParts(h, p, kind);
      Alone(PartOf(h, p, kind), []);
    }
  }

  lemma ProgressOfOther(h: Handle, p: Progress, g: Handle, kind: Kind)
    requires g != h
    ensures Only(ProgressEvents(h, p), g, kind) == []
  {
    ProgressEventsName(h, p);
    OnlyNone(ProgressEvents(h, p), g, kind);
  }

  // ---------------------------------------------------------------------
  // One connection's batch
  // ---------------------------------------------------------------------

  lemma ServeFields(b: Book, p: Progress, ev: ConnEvent)
    ensures var q := ServeEvent(b, p, ev).1;
            && (q.connected <==> p.connected || ev.HandshakeDone?)
            && q.arrived == p.arrived + (if ev.Opened? then ev.ids else [])
            && q.readable == p.readable + (if ev.Readable? then [ev.id] else [])
            && q.writable == p.writable + (if ev.Writable? then [ev.id] else [])
  {
  }

  lemma MoreOf(h: Handle, p: Progress, q: Progress, ev: ConnEvent)
    requires q.arrived == p.arrived + (if ev.Opened? then ev.ids else [])
    requires q.readable == p.readable + (if ev.Readable? then [ev.id] else [])
    requires q.writable == p.writable + (if ev.Writable? then [ev.id] else [])
    ensures Opens(h, q.arrived) == Opens(h, p.arrived) + Calls(ev, h, OfOpen)
    ensures Reads(h, q.readable) == Reads(h, p.readable) + Calls(ev, h, OfRead)
    ensures Writes(h, q.writable) == Writes(h, p.writable) + Calls(ev, h, OfWrite)
  {
  }

  lemma {:induction false} BatchCalls(b: Book, evs: seq<ConnEvent>, h: Handle)
    ensures var p := ServiceStreams(b, evs).1;
            && (p.connected <==> AllCalls(evs, h, OfConnect) != [])
            && Opens(h, p.arrived) == AllCalls(evs, h, OfOpen)
            && Reads(h, p.readable) == AllCalls(evs, h, OfRead)
            && Writes(h, p.writable) == AllCalls(evs, h, OfWrite)
  {
    if evs == [] {
    } else {
      var n := |evs| - 1;
      var (c, p) := ServiceStreams(b, evs[..n]);
      BatchCalls(b, evs[..n], h);
      ServeFields(c, p, evs[n]);
      MoreOf(h, p, ServeEvent(c, p, evs[n]).1, evs[n]);
    }
  }

  lemma {:induction false} ConnectCalls(evs: seq<ConnEvent>, h: Handle)
    ensures forall i :: 0 <= i < |AllCalls(evs, h, OfConnect)| ==> AllCalls(evs, h, OfConnect)[i] == Connected(h)
  {
    if evs == [] {
    } else {
      ConnectCalls(evs[..|evs| - 1], h);
    }
  }

  /** The fact that an event tells. */
  function Told(e: Event): SendFin {
    if e.StreamStopped? then Stopped(e.code) else Acked
  }

  lemma {:induction false} FinCalls(evs: seq<ConnEvent>, h: Handle, id: StreamId)
    ensures forall i :: 0 <= i < |AllCalls(evs, h, OfFin(id))| ==>
              var e := AllCalls(evs, h, OfFin(id))[i];
              e == if Told(e) == Acked then StreamFinAcked(h, id) else StreamStopped(h, id, Told(e).code)
  {
    if evs == [] {
    } else {
      FinCalls(evs[..|evs| - 1], h, id);
    }
  }

  lemma FactStep(b: Book, p: Progress, ev: ConnEvent, h: Handle, id: StreamId)
    ensures var f := FactOf(b, id);
            FactOf(ServeEvent(b, p, ev).0, id) ==
              if IsTerminal(f) || Calls(ev, h, OfFin(id)) == [] then f else Some(Told(Calls(ev, h, OfFin(id))[0]))
  {
    match ev {
      case Finished(x) => RecordFact(b, x, Acked, id);
      case StoppedByPeer(x, code) => RecordFact(b, x, Stopped(code), id);
      case _ =>
    }
  }

  /** The first fact that the queue yields is the one recorded, unless there was a terminal one. */
  lemma {:induction false} FirstFact(b: Book, evs: seq<ConnEvent>, h: Handle, id: StreamId)
    ensures var f, all := FactOf(b, id), AllCalls(evs, h, OfFin(id));
            FactOf(ServiceStreams(b, evs).0, id) == if IsTerminal(f) || all == [] then f else Some(Told(all[0]))
  {
    if evs == [] {
    } else {
      var n := |evs| - 1;
      FirstFact(b, evs[..n], h, id);
      FactStep(ServiceStreams(b, evs[..n]).0, ServiceStreams(b, evs[..n]).1, evs[n], h, id);
    }
  }

  lemma OneInFront<T>(a: seq<T>, b: seq<T>, x: T)
    requires a + b == [x] && x !in b
    ensures a == [x] && b == []
  {
    assert x in a + b;
    assert x in a;
    assert |a| + |b| == 1;
    assert (a + b)[0] == a[0];
  }

  lemma OneBehind<T>(a: seq<T>, b: seq<T>, x: T)
    requires a + b == [x] && x !in a
    ensures a == [] && b == [x]
  {
    assert x in a + b;
    assert x in b;
    assert |a| + |b| == 1;
    assert (a + b)[0] == b[0];
  }

  lemma NoneOf<T>(a: seq<T>, b: seq<T>)
    requires a + b == []
    ensures a == [] && b == []
  {
    assert |a| + |b| == 0;
  }

  lemma FinLengths(h: Handle, p: Progress, id: StreamId)
    ensures |Only(Acks(h, p.finAcked), h, OfFin(id))| == |AckReports(p.finAcked, id)|
    ensures |Only(Stops(h, p.stopped), h, OfFin(id))| == |StopReports(p.stopped, id)|
  {
    OnlyAcks(h, p.finAcked, id);
    OnlyStops(h, p.stopped, id);
  }

  lemma FinNone(h: Handle, p: Progress, id: StreamId)
    requires Reports(p, id) == []
    ensures PartOf(h, p, OfFin(id)) == []
  {
    NoneOf(AckReports(p.finAcked, id), StopReports(p.stopped, id));
    FinLengths(h, p, id);
  }

  lemma FinAck(h: Handle, p: Progress, id: StreamId)
    requires Reports(p, id) == [Acked]
    ensures PartOf(h, p, OfFin(id)) == [StreamFinAcked(h, id)]
  {
    OnlyStops(h, p.stopped, id);
    OneInFront(AckReports(p.finAcked, id), StopReports(p.stopped, id), Acked);
    OnlyAcks(h, p.finAcked, id);
    assert Only(Acks(h, p.finAcked), h, OfFin(id)) == [StreamFinAcked(h, id)];
  }

  lemma FinStop(h: Handle, p: Progress, id: StreamId, code: nat)
    requires Reports(p, id) == [Stopped(code)]
    ensures PartOf(h, p, OfFin(id)) == [StreamStopped(h, id, code)]
  {
    AllAcked(p.finAcked, id);
    OneBehind(AckReports(p.finAcked, id), StopReports(p.stopped, id), Stopped(code));
    OnlyAcks(h, p.finAcked, id);
    OnlyStops(h, p.stopped, id);
    assert Only(Stops(h, p.stopped), h, OfFin(id)) == [StreamStopped(h, id, code)];
  }

  /** What the progress record tells about a finish. */
  lemma FinPart(h: Handle, p: Progress, id: StreamId, g: Option<SendFin>, news: bool)
    requires news ==> g.Some? && Terminal(g.value)
    requires Reports(p, id) == if news then [g.value] else []
    ensures PartOf(h, p, OfFin(id)) ==
            if !news then [] else if g == Some(Acked) then [StreamFinAcked(h, id)] else [StreamStopped(h, id, g.value.code)]
  {
    if !news {
      FinNone(h, p, id);
    } else if g == Some(Acked) {
      FinAck(h, p, id);
    } else {
      FinStop(h, p, id, g.value.code);
    }
  }

  lemma {:induction false} AllAcked(ids: seq<StreamId>, id: StreamId)
    ensures forall i :: 0 <= i < |AckReports(ids, id)| ==> AckReports(ids, id)[i] == Acked
  {
    if ids == [] {
    } else {
      AllAcked(ids[..|ids| - 1], id);
    }
  }

  lemma BatchFin(b: Book, evs: seq<ConnEvent>, h: Handle, id: StreamId)
    ensures PartOf(h, ServiceStreams(b, evs).1, OfFin(id)) == Due(IsTerminal(FactOf(b, id)), evs, h, OfFin(id))
  {
    var (c, p) := ServiceStreams(b, evs);
    var f, g, all := FactOf(b, id), FactOf(c, id), AllCalls(evs, h, OfFin(id));
    BatchReports(b, evs, id);
    FirstFact(b, evs, h, id);
    FinCalls(evs, h, id);
    FinPart(h, p, id, g, !IsTerminal(f) && IsTerminal(g));
  }

  /** One connection's batch raises what is due. */
  lemma BatchRaises(b: Book, evs: seq<ConnEvent>, h: Handle, kind: Kind, settled: bool)
    requires kind.OfFin? ==> settled == IsTerminal(FactOf(b, kind.id))
    ensures Only(ProgressEvents(h, ServiceStreams(b, evs).1), h, kind) == Due(settled, evs, h, kind)
  {
    ProgressHas(h, ServiceStreams(b, evs).1, kind);
    BatchCalls(b, evs, h);
    ConnectCalls(evs, h);
    if kind.OfFin? { BatchFin(b, evs, h, kind.id); }
  }

  // ---------------------------------------------------------------------
  // A whole pass
  // ---------------------------------------------------------------------

  lemma {:induction false} NotYetPolled(connections: map<Handle, Book>, svc: Service, k: nat, h: Handle)
    requires k <= |svc.order| && h in connections && h !in svc.order[..k]
    ensures h in Poll(connections, svc, k).connections && Poll(connections, svc, k).connections[h] == connections[h]
    ensures forall kind :: Only(Poll(connections, svc, k).events, h, kind) == []
  {
    if k == 0 {
    } else {
      assert svc.order[..k] == svc.order[..k - 1] + [svc.order[k - 1]];
      NotYetPolled(connections, svc, k - 1, h);
      PollAdds(connections, svc, k);
      var s, g := Poll(connections, svc, k - 1), svc.order[k - 1];
      forall kind ensures Only(Poll(connections, svc, k).events, h, kind) == [] {
        if g in s.connections {
          var p := ServiceStreams(s.connections[g], svc.answer(g).polled).1;
          OnlyConcat(s.events, ProgressEvents(g, p), h, kind);
          ProgressOfOther(g, p, h, kind);
        }
      }
    }
  }

  lemma PollAdds(connections: map<Handle, Book>, svc: Service, k: nat)
    requires 0 < k <= |svc.order|
    ensures var s, t, g := Poll(connections, svc, k - 1), Poll(connections, svc, k), svc.order[k - 1];
            t.events == s.events + if g in s.connections then ProgressEvents(g, ServiceStreams(s.connections[g], svc.answer(g).polled).1) else []
  {
  }

  /** After polling, each connection that was polled has raised what was due. */
  lemma {:induction false} PollRaises(connections: map<Handle, Book>, svc: Service, k: nat, h: Handle, kind: Kind, settled: bool)
    requires k <= |svc.order| && NoDup(svc.order) && h in connections && h in svc.order[..k]
    requires kind.OfFin? ==> settled == IsTerminal(FactOf(connections[h], kind.id))
    ensures Only(Poll(connections, svc, k).events, h, kind) == Due(settled, svc.answer(h).polled, h, kind)
  {
    var g := svc.order[k - 1];
    var s := Poll(connections, svc, k - 1);
    assert svc.order[..k] == svc.order[..k - 1] + [g];
    PollAdds(connections, svc, k);
    PollKeepsKeys(connections, svc, k - 1);
    if g == h {
      NotYetPolled(connections, svc, k - 1, h);
      OnlyConcat(s.events, ProgressEvents(h, ServiceStreams(connections[h], svc.answer(h).polled).1), h, kind);
      BatchRaises(connections[h], svc.answer(h).polled, h, kind, settled);
    } else {
      PollRaises(connections, svc, k - 1, h, kind, settled);
      if g in s.connections {
        var p := ServiceStreams(s.connections[g], svc.answer(g).polled).1;
        OnlyConcat(s.events, ProgressEvents(g, p), h, kind);
        ProgressOfOther(g, p, h, kind);
      }
    }
  }

  lemma {:induction false} ReapAddsLosses(c: Core, lost: seq<Loss>, k: nat)
    requires k <= |lost|
    ensures var d := ReapAll(c, lost, k);
            && c.events <= d.events
            && forall i :: |c.events| <= i < |d.events| ==> d.events[i].ConnectionLost?
  {
    if k == 0 {
    } else {
      ReapAddsLosses(c, lost, k - 1);
    }
  }

  /** What a pass appends: what polling raised, then losses. */
  lemma PassAppends(c: Core, now: Instant, svc: Service) returns (raised: seq<Event>, losses: seq<Event>)
    ensures raised == Poll(c.connections, svc, |svc.order|).events
    ensures ServiceAll(c, now, svc).events == c.events + raised + losses
    ensures forall i :: 0 <= i < |losses| ==> losses[i].ConnectionLost?
  {
    RouteSame(Started(c, now), svc, |svc.order|);
    var r := Route(Started(c, now), svc, |svc.order|);
    var s := Poll(r.connections, svc, |svc.order|);
    var t := Staged(r, s);
    ReapAddsLosses(t, s.lost, |s.lost|);
    raised := s.events;
    losses := ReapAll(t, s.lost, |s.lost|).events[|t.events|..];
  }

  lemma TailIs(a: seq<Event>, b: seq<Event>, c: seq<Event>)
    ensures (a + b + c)[|a|..] == b + c
  {
  }

  /** In every pass, each live connection raises exactly what its event queue calls for, in order: `Connected` once if
      the handshake was reported done; opened, readable and writable as often as they were reported; and about a
      finish the first fact reported, unless an earlier one was recorded. */
  lemma PassRaisesWhatIsDue(c: Core, now: Instant, svc: Service, h: Handle, kind: Kind)
    requires NoDup(svc.order) && Elems(svc.order) == c.connections.Keys && h in c.connections
    ensures var d := ServiceAll(c, now, svc);
            var settled := kind.OfFin? && kind.id in c.connections[h].sendFins && c.connections[h].sendFins[kind.id] != Queued;
            && c.events <= d.events
            && Only(d.events[|c.events|..], h, kind) == Due(settled, svc.answer(h).polled, h, kind)
  {
    var n := |svc.order|;
    var settled := kind.OfFin? && kind.id in c.connections[h].sendFins && c.connections[h].sendFins[kind.id] != Queued;
    var raised, losses := PassAppends(c, now, svc);
    TailIs(c.events, raised, losses);
    assert svc.order[..n] == svc.order && h in Elems(svc.order);
    PollRaises(c.connections, svc, n, h, kind, settled);
    LossesAside(raised, losses, h, kind);
  }

  lemma LossesAside(raised: seq<Event>, losses: seq<Event>, h: Handle, kind: Kind)
    requires forall i :: 0 <= i < |losses| ==> losses[i].ConnectionLost?
    ensures Only(raised + losses, h, kind) == Only(raised, h, kind)
  {
    OnlyConcat(raised, losses, h, kind);
    OnlyNone(losses, h, kind);
  }

  lemma {:induction false} PollBook(connections: map<Handle, Book>, svc: Service, k: nat, h: Handle)
    requires k <= |svc.order| && NoDup(svc.order) && h in connections && h in svc.order[..k]
    ensures h in Poll(connections, svc, k).connections
    ensures Poll(connections, svc, k).connections[h] == ServiceStreams(connections[h], svc.answer(h).polled).0.(dirty := false)
  {
    var g := svc.order[k - 1];
    assert svc.order[..k] == svc.order[..k - 1] + [g];
    if g == h {
      NotYetPolled(connections, svc, k - 1, h);
    } else {
      PollBook(connections, svc, k - 1, h);
    }
  }

  /** A pass that leaves the connection live records about a finish the first fact its queue yields, unless there was
      a terminal one. */
  lemma PassRecordsFirstFact(c: Core, now: Instant, svc: Service, h: Handle, id: StreamId)
    requires NoDup(svc.order) && Elems(svc.order) == c.connections.Keys
    requires h in c.connections && h in ServiceAll(c, now, svc).connections
    ensures var f, told := FactOf(c.connections[h], id), AllCalls(svc.answer(h).polled, h, OfFin(id));
            FactOf(ServiceAll(c, now, svc).connections[h], id) ==
              if (f.Some? && f != Some(Queued)) || told == [] then f
              else Some(if told[0].StreamStopped? then Stopped(told[0].code) else Acked)
  {
    var n := |svc.order|;
    RouteSame(Started(c, now), svc, n);
    var r := Route(Started(c, now), svc, n);
    var s := Poll(r.connections, svc, n);
    ReapAllSubset(Staged(r, s), s.lost, |s.lost|);
    assert svc.order[..n] == svc.order && h in Elems(svc.order);
    PollBook(c.connections, svc, n, h);
    FirstFact(c.connections[h], svc.answer(h).polled, h, id);
  }
}
