/** Replies and identities over whole driver runs: every command's reply is held once or given once, none
    outlives its connection, and each delivered connection bears the name of the client that was admitted. */
module DriverReplies {
  import opened Base
  import opened ConnSpec
  import opened StreamSpec
  import opened ParkSpec
  import opened ReplyRuns
  import opened Admission
  import opened EndpointSpec
  import opened EndpointWorld
  import opened EndpointHandles
  import opened EndpointRuns
  import opened EndpointSilence
  import opened DriverSpec
  import opened DriverRuns

  // ---------------------------------------------------------------------
  // Conservation of replies across connections
  // ---------------------------------------------------------------------

  ghost predicate KeptBy(d: Drive, h: Handle) {
    h in d.parked ==> Kept(d.parked[h], TakenBy(d, h), {})
  }

  ghost predicate Distinct(answers: seq<(Reply, Answer)>) {
    forall i, j :: 0 <= i < j < |answers| ==> answers[i].0 != answers[j].0
  }

  /** Where the reply `r`, asked of `h`, is: with the connection, or given. */
  ghost predicate Placed(d: Drive, r: Reply, h: Handle) {
    if r in TakenBy(d, h) then !IsAnswered(d.settled, r) else IsAnswered(d.settled, r)
  }

  /** Each reply is with the one connection it was asked of, which holds it once or gave it once, or it was
      given once by the driver. */
  ghost predicate Conserved(d: Drive, asked: map<Reply, Handle>) {
    && (forall h :: KeptBy(d, h))
    && Distinct(d.settled)
    && (forall h, r :: r in TakenBy(d, h) ==> r in asked && asked[r] == h)
    && (forall r :: IsAnswered(d.settled, r) ==> r in asked)
    && (forall r :: r in asked ==> Placed(d, r, asked[r]))
  }

  lemma {:induction false} AnsweredConcat(a: seq<(Reply, Answer)>, b: seq<(Reply, Answer)>, r: Reply)
    ensures IsAnswered(a + b, r) <==> IsAnswered(a, r) || IsAnswered(b, r)
  {
    var c := a + b;
    if IsAnswered(a, r) {
      var i :| 0 <= i < |a| && a[i].0 == r;
      assert c[i].0 == r;
    }
    if IsAnswered(b, r) {
      var i :| 0 <= i < |b| && b[i].0 == r;
      assert c[|a| + i].0 == r;
    }
  }

  lemma DistinctConcat(a: seq<(Reply, Answer)>, b: seq<(Reply, Answer)>)
    requires Distinct(a) && Distinct(b) && forall r :: IsAnswered(a, r) ==> !IsAnswered(b, r)
    ensures Distinct(a + b)
  {
    forall i, j | 0 <= i < j < |a + b| ensures (a + b)[i].0 != (a + b)[j].0 {
      if i < |a| <= j {
        assert IsAnswered(a, a[i].0);
        assert IsAnswered(b, b[j - |a|].0);
      }
    }
  }

  lemma SurfaceConserved(d: Drive, asked: map<Reply, Handle>, h: Handle, found: Option<Found>, clientId: Option<string>)
    requires Conserved(d, asked) && SameKeys(d)
    ensures Conserved(DriverSpec.Surface(d, h, found, clientId), asked)
  {
    var e := DriverSpec.Surface(d, h, found, clientId);
    forall g ensures KeptBy(e, g) && TakenBy(e, g) == TakenBy(d, g) {
      assert KeptBy(d, g);
    }
    forall r | r in asked ensures Placed(e, r, asked[r]) {
      assert Placed(d, r, asked[r]);
    }
  }

  lemma LostConserved(d: Drive, asked: map<Reply, Handle>, h: Handle, reason: Reason, o: DrainOrder)
    requires Conserved(d, asked) && SameKeys(d) && (h in d.parked ==> Covers(d.parked[h], o))
    ensures Conserved(DriverSpec.OnLost(d, h, reason, o), asked)
  {
    var e := DriverSpec.OnLost(d, h, reason, o);
    if h in d.parked {
      var given := FailAll(d.parked[h], o).answers;
      assert KeptBy(d, h);
      FailAllAnswers(d.parked[h], d.taken[h], o);
      forall r ensures IsAnswered(given, r) <==> r in TakenBy(d, h) {
      }
      forall r ensures IsAnswered(e.settled, r) <==> IsAnswered(d.settled, r) || r in TakenBy(d, h) {
        AnsweredConcat(d.settled, given, r);
      }
      forall r | IsAnswered(d.settled, r) ensures !IsAnswered(given, r) {
        assert Placed(d, r, asked[r]);
      }
      DistinctConcat(d.settled, given);
    }
    SettledConserved(d, e, asked, h);
  }

  lemma SettledConserved(d: Drive, e: Drive, asked: map<Reply, Handle>, h: Handle)
    requires Conserved(d, asked) && e.parked == d.parked - {h} && Distinct(e.settled)
    requires forall g :: TakenBy(e, g) == if g == h then {} else TakenBy(d, g)
    requires forall r :: IsAnswered(e.settled, r) <==> IsAnswered(d.settled, r) || r in TakenBy(d, h)
    ensures Conserved(e, asked)
  {
    forall g ensures KeptBy(e, g) {
      assert KeptBy(d, g);
    }
    forall r | r in asked ensures Placed(e, r, asked[r]) {
      assert Placed(d, r, asked[r]);
    }
  }

  /** The replies that something happening to a connection brings. */
  function Brought(x: Happening): set<Reply> {
    if x.Commanded? && ReplyOf(x.cmd).Some? then {ReplyOf(x.cmd).value} else {}
  }

  lemma AdvanceKept(d: Drive, h: Handle, core: CoreConn, x: Happening)
    requires h in d.parked && KeptBy(d, h) && Brought(x) !! TakenBy(d, h)
    ensures var e := Advance(d, h, core, x).0;
            && KeptBy(e, h) && TakenBy(e, h) == TakenBy(d, h) + Brought(x)
  {
    var l := Line(core, d.parked[h], TakenBy(d, h));
    HappenKept(l, x);
    HappenIssues(l, x);
  }

  lemma AdvanceFrame(d: Drive, h: Handle, core: CoreConn, x: Happening, g: Handle)
    requires h in d.parked && g != h
    ensures var e := Advance(d, h, core, x).0;
            && TakenBy(e, g) == TakenBy(d, g) && (g in e.parked <==> g in d.parked) && (g in d.parked ==> e.parked[g] == d.parked[g])
  {
  }

  /** A connection that takes new replies. */
  lemma AdvanceConserved(d: Drive, asked: map<Reply, Handle>, h: Handle, core: CoreConn, x: Happening)
    requires Conserved(d, asked) && h in d.parked && Brought(x) !! asked.Keys
    ensures Conserved(Advance(d, h, core, x).0, asked + map r | r in Brought(x) :: h)
  {
    var e := Advance(d, h, core, x).0;
    assert KeptBy(d, h);
    AdvanceKept(d, h, core, x);
    forall g | g != h
      ensures TakenBy(e, g) == TakenBy(d, g) && (g in e.parked <==> g in d.parked) && (g in d.parked ==> e.parked[g] == d.parked[g])
    {
      AdvanceFrame(d, h, core, x, g);
    }
    TookConserved(d, e, asked, h, Brought(x));
  }

  lemma HappenIssues(l: Line, x: Happening)
    ensures Happen(l, x).issued == l.issued + Brought(x)
  {
  }

  lemma TookConserved(d: Drive, e: Drive, asked: map<Reply, Handle>, h: Handle, more: set<Reply>)
    requires Conserved(d, asked) && more !! asked.Keys && e.settled == d.settled
    requires KeptBy(e, h) && (forall g :: g != h ==> (g in e.parked <==> g in d.parked) && (g in d.parked ==> e.parked[g] == d.parked[g]))
    requires forall g :: TakenBy(e, g) == TakenBy(d, g) + if g == h then more else {}
    ensures Conserved(e, asked + map r | r in more :: h)
  {
    forall g ensures KeptBy(e, g) {
      assert KeptBy(d, g);
    }
    forall r | r in asked.Keys + more ensures Placed(e, r, if r in more then h else asked[r]) {
      if r in asked { assert Placed(d, r, asked[r]); }
    }
  }

  lemma DropConserved(d: Drive, asked: map<Reply, Handle>, h: Handle, r: Reply)
    requires Conserved(d, asked) && r !in asked
    ensures Conserved(d.(settled := d.settled + [(r, Failed(Closed))]), asked[r := h])
  {
    var e := d.(settled := d.settled + [(r, Failed(Closed))]);
    forall x ensures IsAnswered(e.settled, x) <==> IsAnswered(d.settled, x) || x == r {
      AnsweredPush(d.settled, r, Failed(Closed), x);
    }
    assert !IsAnswered(d.settled, r);
    forall i | 0 <= i < |d.settled| ensures d.settled[i].0 != r {
    }
    forall g ensures KeptBy(e, g) && TakenBy(e, g) == TakenBy(d, g) {
      assert KeptBy(d, g);
    }
    var more := asked[r := h];
    forall x | x in more ensures Placed(e, x, more[x]) {
      if x != r { assert Placed(d, x, asked[x]); }
    }
  }

  lemma OnEventConserved(d: Drive, asked: map<Reply, Handle>, e: Event, found: Option<Found>, clientId: Option<string>, o: DrainOrder)
    requires Conserved(d, asked) && SameKeys(d) && (e.ConnectionLost? && e.conn in d.parked ==> Covers(d.parked[e.conn], o))
    ensures Conserved(DriverSpec.OnEvent(d, e, found, clientId, o), asked)
  {
    if e.Connected? {
      SurfaceConserved(d, asked, e.conn, found, clientId);
    } else if e.ConnectionLost? {
      LostConserved(d, asked, e.conn, e.reason, o);
    } else if Acts(d, e, found) {
      AdvanceConserved(d, asked, e.conn, CoreIn(found), Meaning(e).value);
      assert asked + (map r | r in Brought(Meaning(e).value) :: e.conn) == asked;
    }
  }

  lemma OnCommandConserved(p: Post, h: Handle, cmd: Cmd, found: Option<Found>)
    requires Conserved(p.d, p.asked) && (ReplyOf(cmd).Some? ==> ReplyOf(cmd).value !in p.asked)
    ensures Conserved(DriverSpec.OnCommand(p.d, h, cmd, found), Asked(p, h, cmd))
  {
    if h in p.d.parked && found.Some? {
      AdvanceConserved(p.d, p.asked, h, found.value.core, Commanded(cmd));
      assert p.asked + (map r | r in Brought(Commanded(cmd)) :: h) == Asked(p, h, cmd);
    } else if ReplyOf(cmd).Some? {
      DropConserved(p.d, p.asked, h, ReplyOf(cmd).value);
    } else {
      assert p.d.settled + [] == p.d.settled;
    }
  }

  lemma DoConserves(cfg: Config, p: Post, a: Act)
    requires |p.w.ep.guards| == |cfg.clients| && ActOk(cfg, p, a) && SameKeys(p.d) && Conserved(p.d, p.asked)
    ensures Conserved(Do(cfg, p, a).d, Do(cfg, p, a).asked)
  {
    match a {
      case CoreStep(i) =>
      case Dispatch(core, remote, o) =>
        if p.w.ep.core.events != [] {
          var e := p.w.ep.core.events[0];
          OnEventConserved(p.d, p.asked, e, Look(p.w, e.conn, core, remote), NameOf(p.w, e.conn), o);
        }
      case Command(h, cmd, core, remote) =>
        OnCommandConserved(p, h, cmd, Look(p.w, h, core, remote));
      case Deliver =>
        SameTables(p.d, Do(cfg, p, a).d, p.asked);
    }
  }

  lemma SameTables(d: Drive, e: Drive, asked: map<Reply, Handle>)
    requires Conserved(d, asked) && e.parked == d.parked && e.taken == d.taken && e.settled == d.settled
    ensures Conserved(e, asked)
  {
    forall h ensures KeptBy(e, h) && TakenBy(e, h) == TakenBy(d, h) {
      assert KeptBy(d, h);
    }
    forall r | r in asked ensures Placed(e, r, asked[r]) {
      assert Placed(d, r, asked[r]);
    }
  }

  lemma {:induction false} RunConserves(cfg: Config, ps: seq<Post>, acts: seq<Act>, k: nat)
    requires IsDriven(cfg, ps, acts) && k < |ps|
    ensures Conserved(ps[k].d, ps[k].asked)
  {
    if k == 0 {
    } else {
      RunConserves(cfg, ps, acts, k - 1);
      RunKeeps(cfg, ps, acts, k - 1);
      assert ActAt(cfg, ps, acts, k - 1);
      DoConserves(cfg, ps[k - 1], acts[k - 1]);
    }
  }

  /** Once the loss of a connection is dispatched nothing of it stays parked, and every reply ever asked of
      it, before or after, has been given exactly once. */
  lemma LossResolves(cfg: Config, ps: seq<Post>, acts: seq<Act>, k: nat, h: Handle)
    requires IsDriven(cfg, ps, acts) && k < |ps| && Gone(ps[k].dispatched, h)
    ensures h !in ps[k].d.parked && Distinct(ps[k].d.settled)
    ensures forall r :: r in ps[k].asked && ps[k].asked[r] == h ==> IsAnswered(ps[k].d.settled, r)
  {
    RunKeeps(cfg, ps, acts, k);
    RunConserves(cfg, ps, acts, k);
    var p := ps[k];
    assert LifeOf(p, h);
    forall r | r in p.asked && p.asked[r] == h ensures IsAnswered(p.d.settled, r) {
      assert Placed(p.d, r, h);
    }
  }

  // ---------------------------------------------------------------------
  // Names
  // ---------------------------------------------------------------------

  /** The offer bears the client ID of the entry as which its connection was admitted. */
  ghost predicate NamedRight(cfg: Config, w: World, o: Offer) {
    && o.conn in w.handed && o.conn in w.clientOf && w.clientOf[o.conn] < |cfg.clients|
    && o.clientId == Some(cfg.clients[w.clientOf[o.conn]].clientId)
  }

  ghost predicate Named(cfg: Config, p: Post) {
    Identified(cfg, p.w) && forall o :: o in p.offered ==> NamedRight(cfg, p.w, o)
  }

  lemma StepClientOf(cfg: Config, w: World, i: Input, h: Handle)
    requires |w.ep.guards| == |cfg.clients| && Inv(w) && h in w.handed && h in w.clientOf
    ensures var v := Step(cfg, w, i);
            h in v.handed && h in v.clientOf && v.clientOf[h] == w.clientOf[h]
  {
    if i.Datagram? && !Rejected(cfg, w.ep, i) {
      PastGateInv(cfg, w, i);
      DatagramStep(cfg, w, i);
      FedClientOf(cfg, PastGate(cfg, w, i), i, AdmittedClient(cfg, w, i), h);
    } else {
      OtherStepsKeepNames(cfg, w, i);
    }
  }

  lemma OtherStepsKeepNames(cfg: Config, w: World, i: Input)
    requires |w.ep.guards| == |cfg.clients| && (i.Datagram? ==> Rejected(cfg, w.ep, i))
    ensures Step(cfg, w, i).handed == w.handed && Step(cfg, w, i).clientOf == w.clientOf
  {
  }

  lemma FedClientOf(cfg: Config, w: World, i: Input, admitted: Option<nat>, h: Handle)
    requires i.Datagram? && Inv(w) && h in w.handed && h in w.clientOf
    ensures var v := Fed(cfg, w, i, admitted);
            h in v.handed && h in v.clientOf && v.clientOf[h] == w.clientOf[h]
  {
    var m :| 0 <= m < |w.handed| && w.handed[m] == h;
    assert h.generation < w.ep.core.nextGeneration;
  }

  lemma DoNames(cfg: Config, p: Post, a: Act)
    requires |p.w.ep.guards| == |cfg.clients| && ActOk(cfg, p, a) && Seen(p) && Named(cfg, p)
    ensures Named(cfg, Do(cfg, p, a))
  {
    match a {
      case CoreStep(i) =>
        StepNames(cfg, p, i);
      case Dispatch(core, remote, o) =>
        if p.w.ep.core.events != [] {
          DispatchNames(cfg, p, core, remote, o);
        }
      case Command(_, _, _, _) =>
      case Deliver =>
    }
  }

  lemma StepNames(cfg: Config, p: Post, i: Input)
    requires |p.w.ep.guards| == |cfg.clients| && Seen(p) && Named(cfg, p)
    ensures Identified(cfg, Step(cfg, p.w, i))
    ensures forall o :: o in p.offered ==> NamedRight(cfg, Step(cfg, p.w, i), o)
  {
    StepIdentified(cfg, p.w, i);
    forall o | o in p.offered ensures NamedRight(cfg, Step(cfg, p.w, i), o) {
      assert NamedRight(cfg, p.w, o);
      StepClientOf(cfg, p.w, i, o.conn);
    }
  }

  lemma DispatchNames(cfg: Config, p: Post, core: CoreConn, remote: Addr, order: DrainOrder)
    requires |p.w.ep.guards| == |cfg.clients| && p.w.ep.core.events != [] && Seen(p) && Named(cfg, p)
    ensures Named(cfg, DispatchOne(cfg, p, core, remote, order))
  {
    var e := p.w.ep.core.events[0];
    StepNames(cfg, p, PollEvent);
    SeenFacts(p, e.conn);
    if e.Connected? && Surfaces(p.d, e.conn, Look(p.w, e.conn, core, remote)) {
      assert IdentifiedAs(cfg, p.w, e.conn);
      var o := Offer(e.conn, remote, NameOf(p.w, e.conn));
      assert NamedRight(cfg, p.w, o);
      StepClientOf(cfg, p.w, PollEvent, o.conn);
    }
  }

  lemma DeliveredNamed(cfg: Config, p: Post, o: Offer)
    requires Offers(p) && Named(cfg, p) && o in p.delivered
    ensures NamedRight(cfg, p.w, o)
  {
    assert o in OfferLine(p);
  }

  lemma {:induction false} OffersNamed(cfg: Config, ps: seq<Post>, acts: seq<Act>, k: nat)
    requires IsDriven(cfg, ps, acts) && k < |ps|
    ensures Named(cfg, ps[k])
  {
    if k == 0 {
    } else {
      OffersNamed(cfg, ps, acts, k - 1);
      RunKeeps(cfg, ps, acts, k - 1);
      assert ActAt(cfg, ps, acts, k - 1);
      DoNames(cfg, ps[k - 1], acts[k - 1]);
    }
  }

  /** Every connection the application is ever handed bears the client ID of the one configured client whose
      key admitted its first datagram. */
  lemma RunNames(cfg: Config, ps: seq<Post>, acts: seq<Act>, k: nat, o: Offer)
    requires IsDriven(cfg, ps, acts) && k < |ps| && o in ps[k].delivered
    ensures NamedRight(cfg, ps[k].w, o)
  {
    OffersNamed(cfg, ps, acts, k);
    RunKeeps(cfg, ps, acts, k);
    DeliveredNamed(cfg, ps[k], o);
  }

  // ---------------------------------------------------------------------
  // Notices
  // ---------------------------------------------------------------------

  ghost predicate Said(es: seq<Event>, h: Handle, reason: Reason) {
    exists k :: 0 <= k < |es| && es[k] == ConnectionLost(h, reason)
  }

  /** An offered connection is surfaced, or its handles see the reason with which its loss was dispatched. */
  ghost predicate Noticed(d: Drive, offered: seq<Offer>, dispatched: seq<Event>) {
    && (forall h :: h in d.notices ==> Said(dispatched, h, d.notices[h]))
    && (forall o :: o in offered ==> o.conn in d.surfaced || o.conn in d.notices)
  }

  lemma SaidLater(es: seq<Event>, e: Event, h: Handle, reason: Reason)
    requires Said(es, h, reason) || e == ConnectionLost(h, reason)
    ensures Said(es + [e], h, reason)
  {
    var more := es + [e];
    if Said(es, h, reason) {
      var k :| 0 <= k < |es| && es[k] == ConnectionLost(h, reason);
      assert more[k] == ConnectionLost(h, reason);
    } else {
      assert more[|es|] == ConnectionLost(h, reason);
    }
  }

  lemma OnEventNotices(d: Drive, e: Event, found: Option<Found>, clientId: Option<string>, o: DrainOrder)
    requires SameKeys(d)
    ensures var f := DriverSpec.OnEvent(d, e, found, clientId, o);
            f.notices == if e.Connected? && Surfaces(d, e.conn, found) then d.notices - {e.conn}
                         else if e.ConnectionLost? && e.conn in d.surfaced then d.notices[e.conn := e.reason] else d.notices
  {
  }

  lemma DispatchNotices(cfg: Config, p: Post, core: CoreConn, remote: Addr, o: DrainOrder)
    requires |p.w.ep.guards| == |cfg.clients| && p.w.ep.core.events != [] && SameKeys(p.d)
    requires Noticed(p.d, p.offered, p.dispatched)
    ensures var q := DispatchOne(cfg, p, core, remote, o); Noticed(q.d, q.offered, q.dispatched)
  {
    var q := DispatchOne(cfg, p, core, remote, o);
    var e := p.w.ep.core.events[0];
    var found := Look(p.w, e.conn, core, remote);
    OnEventNotices(p.d, e, found, NameOf(p.w, e.conn), o);
    OnEventKeys(p.d, e, found, NameOf(p.w, e.conn), o);
    forall h | h in q.d.notices ensures Said(q.dispatched, h, q.d.notices[h]) {
      SaidLater(p.dispatched, e, h, q.d.notices[h]);
    }
  }

  lemma OnCommandNotices(d: Drive, h: Handle, cmd: Cmd, found: Option<Found>)
    ensures DriverSpec.OnCommand(d, h, cmd, found).notices == d.notices
  {
  }

  lemma DoNotices(cfg: Config, p: Post, a: Act)
    requires |p.w.ep.guards| == |cfg.clients| && SameKeys(p.d) && Noticed(p.d, p.offered, p.dispatched)
    ensures var q := Do(cfg, p, a); Noticed(q.d, q.offered, q.dispatched)
  {
    match a {
      case CoreStep(i) =>
      case Dispatch(core, remote, o) =>
        if p.w.ep.core.events != [] { DispatchNotices(cfg, p, core, remote, o); }
      case Command(h, cmd, core, remote) =>
        OnCommandNotices(p.d, h, cmd, Look(p.w, h, core, remote));
        OnCommandKeys(p.d, h, cmd, Look(p.w, h, core, remote));
      case Deliver =>
    }
  }

  lemma {:induction false} RunNotices(cfg: Config, ps: seq<Post>, acts: seq<Act>, k: nat)
    requires IsDriven(cfg, ps, acts) && k < |ps|
    ensures Noticed(ps[k].d, ps[k].offered, ps[k].dispatched)
  {
    if k == 0 {
    } else {
      RunNotices(cfg, ps, acts, k - 1);
      RunKeeps(cfg, ps, acts, k - 1);
      assert ActAt(cfg, ps, acts, k - 1);
      DoNotices(cfg, ps[k - 1], acts[k - 1]);
    }
  }

  /** In every run, once the loss of a connection the application was offered is dispatched, its handles see a
      reason, and it is one with which that loss was reported. */
  lemma LossIsNoticed(cfg: Config, ps: seq<Post>, acts: seq<Act>, k: nat, o: Offer)
    requires IsDriven(cfg, ps, acts) && k < |ps| && o in ps[k].offered && Gone(ps[k].dispatched, o.conn)
    ensures o.conn in ps[k].d.notices && Said(ps[k].dispatched, o.conn, ps[k].d.notices[o.conn])
  {
    RunKeeps(cfg, ps, acts, k);
    RunNotices(cfg, ps, acts, k);
    assert LifeOf(ps[k], o.conn);
  }
}
