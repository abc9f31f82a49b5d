/** Non-interference: deleting the datagrams that were rejected changes nothing that anyone can see. */
module EndpointIsolation {
  import opened Base
  import opened ByteCodec
  import opened Admission
  import opened Replay
  import opened ConnSpec
  import opened EndpointSpec
  import opened EndpointSilence

  /** The guards answer alike from `minute` on. */
  ghost predicate Agree(g: seq<Seen>, f: seq<Seen>, minute: U32) {
    && |g| == |f|
    && forall k, e: Entry :: 0 <= k < |g| && e.1 >= SatSub(minute, WINDOW_MINUTES) ==> (e in g[k] <==> e in f[k])
  }

  lemma PrefilterAgrees(cfg: Config, g: seq<Seen>, f: seq<Seen>, data: Bytes, minute: U32, before: U32)
    requires |g| == |cfg.clients| && Agree(g, f, before) && before <= minute
    ensures var (g', c) := Prefilter(cfg.hash, cfg.clients, g, data, minute);
            var (f', d) := Prefilter(cfg.hash, cfg.clients, f, data, minute);
            c == d && Agree(g', f', minute) && (c == None ==> Agree(g', f, minute))
  {
    var dcid := PeekDcid(data);
    if dcid.Some? && ParseDcid(dcid.value).Some? {
      var p := ParseDcid(dcid.value).value;
      var i := SelectPsk(cfg.hash, cfg.clients, p);
      if IsFresh(p.freshness, minute, WINDOW_MINUTES) && i.Some? {
        assert forall e :: e in Retained(g[i.value], WINDOW_MINUTES, minute) <==> e in Retained(f[i.value], WINDOW_MINUTES, minute);
      }
    }
  }

  /** The endpoint after `ins`. */
  function After(cfg: Config, e: Ep, ins: seq<Input>): (r: Ep)
    requires |e.guards| == |cfg.clients|
    ensures |r.guards| == |cfg.clients|
  {
    if ins == [] then e
    else
      var n := |ins| - 1;
      StepKeepsGuards(cfg, After(cfg, e, ins[..n]), ins[n]);
      StepOf(cfg, After(cfg, e, ins[..n]), ins[n]).0
  }

  lemma StepKeepsGuards(cfg: Config, e: Ep, i: Input)
    requires |e.guards| == |cfg.clients|
    ensures |StepOf(cfg, e, i).0.guards| == |cfg.clients|
  {
  }

  /** Was the last of `ins` a datagram rejected when it came? */
  predicate LastRejected(cfg: Config, e: Ep, ins: seq<Input>)
    requires |e.guards| == |cfg.clients| && ins != []
  {
    Rejected(cfg, After(cfg, e, ins[..|ins| - 1]), ins[|ins| - 1])
  }

  /** `ins` without the rejected datagrams. */
  function Kept(cfg: Config, e: Ep, ins: seq<Input>): seq<Input>
    requires |e.guards| == |cfg.clients|
  {
    if ins == [] then []
    else Kept(cfg, e, ins[..|ins| - 1]) + if LastRejected(cfg, e, ins) then [] else [ins[|ins| - 1]]
  }

  function LastOutput(cfg: Config, e: Ep, ins: seq<Input>): Output
    requires |e.guards| == |cfg.clients| && ins != []
  {
    StepOf(cfg, After(cfg, e, ins[..|ins| - 1]), ins[|ins| - 1]).1
  }

  function Outputs(cfg: Config, e: Ep, ins: seq<Input>): seq<Output>
    requires |e.guards| == |cfg.clients|
  {
    if ins == [] then [] else Outputs(cfg, e, ins[..|ins| - 1]) + [LastOutput(cfg, e, ins)]
  }

  /** The outputs of the calls that are not rejected datagrams. */
  function KeptOutputs(cfg: Config, e: Ep, ins: seq<Input>): seq<Output>
    requires |e.guards| == |cfg.clients|
  {
    if ins == [] then []
    else KeptOutputs(cfg, e, ins[..|ins| - 1]) + if LastRejected(cfg, e, ins) then [] else [LastOutput(cfg, e, ins)]
  }

  /** A rejected datagram answers `Dropped` and leaves everything but the guards as it was. */
  lemma RejectionTouchesOnlyGuards(cfg: Config, e: Ep, i: Input)
    requires |e.guards| == |cfg.clients| && Rejected(cfg, e, i)
    ensures StepOf(cfg, e, i) == (Ep(e.core, Gate(cfg, e, i).0), Outcome(Dropped))
  {
  }

  /** Two endpoints that differ in their guards' expired entries only. */
  ghost predicate Alike(a: Ep, b: Ep, minute: U32) {
    a.core == b.core && Agree(a.guards, b.guards, minute)
  }

  lemma RejectedStepAlike(cfg: Config, a: Ep, b: Ep, i: Input, minute: U32)
    requires |a.guards| == |cfg.clients| && Alike(a, b, minute) && minute <= MinuteOf(i, minute)
    requires Rejected(cfg, a, i)
    ensures Alike(StepOf(cfg, a, i).0, b, MinuteOf(i, minute))
  {
    RejectionTouchesOnlyGuards(cfg, a, i);
    PrefilterAgrees(cfg, a.guards, b.guards, i.data, i.minute, minute);
  }

  lemma KeptStepAlike(cfg: Config, a: Ep, b: Ep, i: Input, minute: U32)
    requires |a.guards| == |cfg.clients| && Alike(a, b, minute) && minute <= MinuteOf(i, minute)
    requires !Rejected(cfg, a, i)
    ensures |b.guards| == |cfg.clients|
    ensures Alike(StepOf(cfg, a, i).0, StepOf(cfg, b, i).0, MinuteOf(i, minute))
    ensures StepOf(cfg, a, i).1 == StepOf(cfg, b, i).1
  {
    if i.Datagram? {
      PrefilterAgrees(cfg, a.guards, b.guards, i.data, i.minute, minute);
      HandleAlike(cfg, a, b, i, minute);
    }
  }

  lemma HandleAlike(cfg: Config, a: Ep, b: Ep, i: Input, minute: U32)
    requires i.Datagram? && |a.guards| == |cfg.clients| && |b.guards| == |cfg.clients| && a.core == b.core
    requires minute <= i.minute && Agree(a.guards, b.guards, minute)
    requires !Rejected(cfg, a, i)
    requires Gate(cfg, a, i).1 == Gate(cfg, b, i).1 && Agree(Gate(cfg, a, i).0, Gate(cfg, b, i).0, i.minute)
    ensures Alike(HandleDatagram(cfg, a, i).0, HandleDatagram(cfg, b, i).0, i.minute)
    ensures HandleDatagram(cfg, a, i).1 == HandleDatagram(cfg, b, i).1
  {
  }

  /** For every server and every run of calls whose wall clock never goes back: the run without the
      rejected datagrams ends in the same state, up to expired guard entries, makes the same calls to the
      QUIC library, and gives every remaining call the same answer. */
  lemma {:induction false} NonInterference(cfg: Config, e: Ep, ins: seq<Input>)
    requires |e.guards| == |cfg.clients| && MinutesMonotone(ins)
    ensures Alike(After(cfg, e, ins), After(cfg, e, Kept(cfg, e, ins)), LatestMinute(ins, |ins|))
    ensures KeptOutputs(cfg, e, ins) == Outputs(cfg, e, Kept(cfg, e, ins))
  {
    if ins == [] {
    } else {
      var n := |ins| - 1;
      var before, i := ins[..n], ins[n];
      NonInterference(cfg, e, before);
      SameLatest(ins, n, n);
      var a, kept := After(cfg, e, before), Kept(cfg, e, before);
      var b, minute := After(cfg, e, kept), LatestMinute(ins, n);
      if i.Datagram? {
        LatestIsLatest(ins, n, n);
      }
      if Rejected(cfg, a, i) {
        RejectedStepAlike(cfg, a, b, i, minute);
        assert kept + [] == kept;
      } else {
        KeptStepAlike(cfg, a, b, i, minute);
        assert (kept + [i])[..|kept|] == kept;
      }
    }
  }

  lemma {:induction false} SameLatest(ins: seq<Input>, n: nat, k: nat)
    requires k <= n <= |ins|
    ensures LatestMinute(ins[..n], k) == LatestMinute(ins, k)
  {
    if k == 0 {
    } else {
      SameLatest(ins, n, k - 1);
    }
  }
}
