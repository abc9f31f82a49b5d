/** The outbound queue: what was once queued is sent, in order, once. */
module EndpointQueues {
  import opened Base
  import opened ByteCodec
  import opened Admission
  import opened ConnSpec
  import opened EndpointSpec
  import opened EndpointLedger
  import opened EndpointWorld
  import opened EndpointHandles
  import opened EndpointTime

  /** Everything that was sent, then everything that waits. */
  function Line(w: World): seq<Transmit> {
    w.emitted + w.ep.core.outbound
  }

  lemma AdmitQueues(c: Core, now: Instant, a: AcceptAnswer, clientId: string)
    ensures c.outbound <= Admit(c, now, a, clientId).0.outbound
  {
  }

  lemma FeedQueues(cfg: Config, c: Core, now: Instant, from: Addr, data: Bytes, admitted: Option<nat>, ans: FeedAnswer)
    ensures c.outbound <= Feed(cfg, c, now, from, data, admitted, ans).0.outbound
  {
    var m := Handled(c, now, from, data, ans);
    assert c.outbound <= m.outbound;
    FeedCases(cfg, c, now, from, data, admitted, ans);
    if !ReturnsEarly(c.role, admitted, ans) && ans.event.NewConnection? && c.role == Server {
      AdmitQueues(m, now, ans.event.accept, ClientIdOf(cfg, admitted.value));
    }
  }

  lemma ServiceQueues(c: Core, now: Instant, svc: Service)
    ensures c.outbound <= ServiceAll(c, now, svc).outbound
  {
    RouteSame(Started(c, now), svc, |svc.order|);
    var r := Route(Started(c, now), svc, |svc.order|);
    var s := Poll(r.connections, svc, |svc.order|);
    ReapAllSubset(Staged(r, s), s.lost, |s.lost|);
  }

  lemma LineGrows(v: World, w: World)
    requires w.emitted == v.emitted && v.ep.core.outbound <= w.ep.core.outbound
    ensures Line(v) <= Line(w)
  {
    assert w.ep.core.outbound == v.ep.core.outbound + w.ep.core.outbound[|v.ep.core.outbound|..];
  }

  lemma PoppedLine(w: World)
    ensures Line(Popped(w)) == Line(w)
  {
    if w.ep.core.outbound != [] {
      assert w.ep.core.outbound == [w.ep.core.outbound[0]] + w.ep.core.outbound[1..];
    }
  }

  lemma DatagramLine(cfg: Config, w: World, i: Input)
    requires |w.ep.guards| == |cfg.clients| && i.Datagram? && !Rejected(cfg, w.ep, i)
    ensures Line(w) <= Line(Step(cfg, w, i))
  {
    DatagramStep(cfg, w, i);
    PastGateLine(cfg, w, i);
    FedLine(cfg, PastGate(cfg, w, i), i, AdmittedClient(cfg, w, i));
  }

  lemma PastGateLine(cfg: Config, w: World, i: Input)
    requires |w.ep.guards| == |cfg.clients| && i.Datagram?
    ensures Line(PastGate(cfg, w, i)) == Line(w)
  {
  }

  lemma FedLine(cfg: Config, w: World, i: Input, admitted: Option<nat>)
    requires i.Datagram?
    ensures Line(w) <= Line(Serviced(Fed(cfg, w, i, admitted), i.now, i.svc))
  {
    var f := Fed(cfg, w, i, admitted);
    FeedQueues(cfg, w.ep.core, i.now, i.from, i.data, admitted, i.feed);
    LineGrows(w, f);
    ServiceQueues(f.ep.core, i.now, i.svc);
    LineGrows(f, Serviced(f, i.now, i.svc));
  }

  lemma StepLine(cfg: Config, w: World, i: Input)
    requires |w.ep.guards| == |cfg.clients|
    ensures Line(w) <= Line(Step(cfg, w, i))
  {
    match i {
      case Datagram(_, _, _, _, _, _, _) =>
        if !Rejected(cfg, w.ep, i) { DatagramLine(cfg, w, i); }
      case Timeout(now, svc) =>
        var t := WithCore(w, w.ep.core.(calls := w.ep.core.calls + [TimeoutCall(now)]));
        ServiceQueues(t.ep.core, now, svc);
        LineGrows(t, Serviced(t, now, svc));
      case PollTransmit(now, svc) =>
        var t := if w.ep.core.outbound != [] then w else Serviced(w, now, svc);
        ServiceQueues(w.ep.core, now, svc);
        LineGrows(w, Serviced(w, now, svc));
        PoppedLine(t);
      case PollEvent =>
      case Work(h, op) =>
    }
  }

  /** Over every run a datagram that was queued keeps its place: none is lost, repeated or overtaken on its
      way out. */
  lemma {:induction false} RunKeepsOrder(cfg: Config, ws: seq<World>, ins: seq<Input>, j: nat, k: nat)
    requires IsRun(cfg, ws, ins) && j <= k < |ws|
    ensures Line(ws[j]) <= Line(ws[k])
    decreases k
  {
    if j == k {
    } else {
      RunKeepsOrder(cfg, ws, ins, j, k - 1);
      assert StepAt(cfg, ws, ins, k - 1);
      StepLine(cfg, ws[k - 1], ins[k - 1]);
    }
  }

  // ---------------------------------------------------------------------
  // Losses are reported with their reason
  // ---------------------------------------------------------------------

  lemma {:induction false} ReapAllReports(c: Core, lost: seq<Loss>, k: nat, j: nat)
    requires j < k <= |lost| && lost[j].conn in c.connections
    requires forall i :: 0 <= i < |lost| && i != j ==> lost[i].conn != lost[j].conn
    ensures ConnectionLost(lost[j].conn, lost[j].reason) in ReapAll(c, lost, k).events
  {
    if j == k - 1 {
      StillThere(c, lost, j, lost[j].conn);
    } else {
      ReapAllReports(c, lost, k - 1, j);
    }
  }

  lemma {:induction false} StillThere(c: Core, lost: seq<Loss>, k: nat, h: Handle)
    requires k <= |lost| && h in c.connections && forall i :: 0 <= i < k ==> lost[i].conn != h
    ensures h in ReapAll(c, lost, k).connections
  {
    if k == 0 {
    } else {
      StillThere(c, lost, k - 1, h);
    }
  }

  /** A pass reports the loss of every connection it reaps, with the last reason its event queue gave, or as
      closed by us if it is drained without one. */
  lemma LossIsReported(c: Core, now: Instant, svc: Service, h: Handle)
    requires NoDup(svc.order) && Elems(svc.order) == c.connections.Keys
    requires h in c.connections && LossIn(svc, h).Some?
    ensures ConnectionLost(h, LossIn(svc, h).value) in ServiceAll(c, now, svc).events
  {
    var n := |svc.order|;
    RouteSame(Started(c, now), svc, n);
    var r := Route(Started(c, now), svc, n);
    var s := Poll(r.connections, svc, n);
    PollKeepsKeys(r.connections, svc, n);
    PollLosses(r.connections, svc, n);
    LossesAre(svc, n);
    assert svc.order[..n] == svc.order && h in Elems(svc.order);
    var j :| 0 <= j < |s.lost| && s.lost[j] == Loss(h, LossIn(svc, h).value);
    ReapAllReports(Staged(r, s), s.lost, |s.lost|, j);
  }
}
