/** What holds of the rate limiter over whole runs of `check`. */
module RateLimitRuns {
  import opened Base
  import opened RateLimitSpec

  datatype Call = Call(src: Ip, now: Instant)

  /** The limiter after all of `calls`. */
  function Run(l: Limiter, calls: seq<Call>): Limiter {
    if calls == [] then l
    else
      var n := |calls| - 1;
      CheckStep(Run(l, calls[..n]), calls[n].src, calls[n].now).0
  }

  predicate PassesGlobal(l: Limiter, c: Call) {
    Take(l.global, c.now).1
  }

  predicate Admits(l: Limiter, c: Call) {
    CheckStep(l, c.src, c.now).1
  }

  /** The sources that passed the global bucket, in call order. */
  function Passed(l: Limiter, calls: seq<Call>): seq<Ip> {
    if calls == [] then []
    else
      var n := |calls| - 1;
      Passed(l, calls[..n]) + if PassesGlobal(Run(l, calls[..n]), calls[n]) then [calls[n].src] else []
  }

  function One(b: bool): real {
    if b then 1.0 else 0.0
  }

  /** How many of `calls` were admitted; a count, kept as a real because it is compared with tokens. */
  function Admitted(l: Limiter, calls: seq<Call>): real {
    if calls == [] then 0.0
    else
      var n := |calls| - 1;
      Admitted(l, calls[..n]) + One(Admits(Run(l, calls[..n]), calls[n]))
  }

  /** How many of the calls from `s` were admitted. */
  function AdmittedFrom(l: Limiter, calls: seq<Call>, s: Ip): real {
    if calls == [] then 0.0
    else
      var n := |calls| - 1;
      AdmittedFrom(l, calls[..n], s) + One(calls[n].src == s && Admits(Run(l, calls[..n]), calls[n]))
  }

  // ---------------------------------------------------------------------
  // The recency order
  // ---------------------------------------------------------------------

  /** The position of the last occurrence of `x` in `h`, or -1. */
  function LastAt(h: seq<Ip>, x: Ip): (i: int)
    ensures -1 <= i < |h|
  {
    if h == [] then -1 else if h[|h| - 1] == x then |h| - 1 else LastAt(h[..|h| - 1], x)
  }

  /** `LastAt` is -1 exactly for the absent, and otherwise names an occurrence with none after it. */
  lemma {:induction false} LastAtIsLast(h: seq<Ip>, x: Ip)
    ensures LastAt(h, x) >= 0 <==> x in h
    ensures LastAt(h, x) >= 0 ==> h[LastAt(h, x)] == x
    ensures forall k :: LastAt(h, x) < k < |h| ==> h[k] != x
  {
    if h == [] {
    } else {
      assert h == h[..|h| - 1] + [h[|h| - 1]];
      LastAtIsLast(h[..|h| - 1], x);
    }
  }

  /** `o` is the `n` most recent distinct members of `h` (all of them if there are fewer), oldest first. */
  ghost predicate MostRecent(o: seq<Ip>, h: seq<Ip>, n: nat) {
    && |o| <= n
    && (forall i :: 0 <= i < |o| ==> LastAt(h, o[i]) >= 0)
    && (forall i, j :: 0 <= i < j < |o| ==> LastAt(h, o[i]) < LastAt(h, o[j]))
    && (forall x, j :: LastAt(h, x) >= 0 && x !in o && 0 <= j < |o| ==> LastAt(h, x) < LastAt(h, o[j]))
    && (|o| < n ==> forall x :: LastAt(h, x) >= 0 ==> x in o)
  }

  lemma LastAtPush(h: seq<Ip>, s: Ip, x: Ip)
    ensures LastAt(h + [s], x) == if x == s then |h| else LastAt(h, x)
  {
    assert (h + [s])[..|h|] == h;
  }

  /** `p` and `g` are `q` and `h` with the newcomer `s` behind them. */
  ghost predicate Pushed(p: seq<Ip>, g: seq<Ip>, q: seq<Ip>, h: seq<Ip>, s: Ip) {
    && |p| == |q| + 1 && p[|q|] == s
    && (forall j :: 0 <= j < |q| ==> p[j] == q[j])
    && (forall x :: LastAt(g, x) == if x == s then |h| else LastAt(h, x))
  }

  lemma PushIsPushed(q: seq<Ip>, h: seq<Ip>, s: Ip)
    ensures Pushed(q + [s], h + [s], q, h, s)
  {
    forall x ensures LastAt(h + [s], x) == if x == s then |h| else LastAt(h, x) {
      LastAtPush(h, s, x);
    }
  }

  /** Every member of `h` other than `s` that `q` leaves out is older than all of `q`. */
  ghost predicate LeavesOlder(q: seq<Ip>, h: seq<Ip>, s: Ip) {
    forall x, j :: LastAt(h, x) >= 0 && x !in q && x != s && 0 <= j < |q| ==> LastAt(h, x) < LastAt(h, q[j])
  }

  lemma PushedRanks(p: seq<Ip>, g: seq<Ip>, q: seq<Ip>, h: seq<Ip>, s: Ip)
    requires Pushed(p, g, q, h, s) && s !in q
    requires forall i :: 0 <= i < |q| ==> LastAt(h, q[i]) >= 0
    requires forall i, j :: 0 <= i < j < |q| ==> LastAt(h, q[i]) < LastAt(h, q[j])
    ensures forall i :: 0 <= i < |p| ==> LastAt(g, p[i]) >= 0
    ensures forall i, j :: 0 <= i < j < |p| ==> LastAt(g, p[i]) < LastAt(g, p[j])
  {
    forall i | 0 <= i < |q| ensures LastAt(g, p[i]) == LastAt(h, q[i]) < |h| {
      assert q[i] in q;
    }
  }

  lemma PushedLeavesOlder(p: seq<Ip>, g: seq<Ip>, q: seq<Ip>, h: seq<Ip>, s: Ip, x: Ip, j: nat)
    requires Pushed(p, g, q, h, s) && s !in q && LeavesOlder(q, h, s)
    requires LastAt(g, x) >= 0 && x !in p && j < |p|
    ensures LastAt(g, x) < LastAt(g, p[j])
  {
    assert s in p;
    assert x !in q by {
      assert forall k :: 0 <= k < |q| ==> q[k] == p[k] && p[k] in p;
    }
    if j < |q| {
      assert q[j] in q;
    }
  }

  lemma PushedHasAll(p: seq<Ip>, g: seq<Ip>, q: seq<Ip>, h: seq<Ip>, s: Ip, x: Ip)
    requires Pushed(p, g, q, h, s) && LastAt(g, x) >= 0 && (LastAt(h, x) >= 0 && x != s ==> x in q)
    ensures x in p
  {
    if x == s {
      assert p[|q|] == x;
    } else {
      var k :| 0 <= k < |q| && q[k] == x;
      assert p[k] == x;
    }
  }

  /** Replacing `o` by a subsequence followed by the newcomer, when everything left out is older. */
  lemma PushMostRecent(q: seq<Ip>, h: seq<Ip>, s: Ip, n: nat)
    requires |q| < n && s !in q
    requires forall i :: 0 <= i < |q| ==> LastAt(h, q[i]) >= 0
    requires forall i, j :: 0 <= i < j < |q| ==> LastAt(h, q[i]) < LastAt(h, q[j])
    requires LeavesOlder(q, h, s)
    requires |q| + 1 < n ==> forall x :: LastAt(h, x) >= 0 && x != s ==> x in q
    ensures MostRecent(q + [s], h + [s], n)
  {
    PushIsPushed(q, h, s);
    PushedMostRecent(q + [s], h + [s], q, h, s, n);
  }

  lemma PushedMostRecent(p: seq<Ip>, g: seq<Ip>, q: seq<Ip>, h: seq<Ip>, s: Ip, n: nat)
    requires Pushed(p, g, q, h, s) && |q| < n && s !in q
    requires forall i :: 0 <= i < |q| ==> LastAt(h, q[i]) >= 0
    requires forall i, j :: 0 <= i < j < |q| ==> LastAt(h, q[i]) < LastAt(h, q[j])
    requires LeavesOlder(q, h, s)
    requires |q| + 1 < n ==> forall x :: LastAt(h, x) >= 0 && x != s ==> x in q
    ensures MostRecent(p, g, n)
  {
    PushedRanks(p, g, q, h, s);
    forall x, j | LastAt(g, x) >= 0 && x !in p && 0 <= j < |p| ensures LastAt(g, x) < LastAt(g, p[j]) {
      PushedLeavesOlder(p, g, q, h, s, x, j);
    }
    if |p| < n {
      forall x | LastAt(g, x) >= 0 ensures x in p {
        PushedHasAll(p, g, q, h, s, x);
      }
    }
  }

  lemma HitMostRecent(o: seq<Ip>, h: seq<Ip>, i: nat, q: seq<Ip>, n: nat)
    requires MostRecent(o, h, n) && NoDup(o) && i < |o|
    requires |q| == |o| - 1 && forall j :: 0 <= j < |q| ==> q[j] == o[Skip(i, j)]
    ensures MostRecent(q + [o[i]], h + [o[i]], n)
  {
    forall x | x in o && x != o[i] ensures x in q {
      var j :| 0 <= j < |o| && o[j] == x;
      assert x == q[if j < i then j else j - 1];
    }
    TakenOutRanks(o, h, i, q);
    TakenOutLeavesOlder(o, h, i, q, n);
    assert o[i] in o;
    PushMostRecent(q, h, o[i], n);
  }

  lemma TakenOutRanks(o: seq<Ip>, h: seq<Ip>, i: nat, q: seq<Ip>)
    requires i < |o| && |q| == |o| - 1 && forall j :: 0 <= j < |q| ==> q[j] == o[Skip(i, j)]
    requires forall a :: 0 <= a < |o| ==> LastAt(h, o[a]) >= 0
    requires forall a, b :: 0 <= a < b < |o| ==> LastAt(h, o[a]) < LastAt(h, o[b])
    ensures forall a :: 0 <= a < |q| ==> LastAt(h, q[a]) >= 0
    ensures forall a, b :: 0 <= a < b < |q| ==> LastAt(h, q[a]) < LastAt(h, q[b])
    ensures o[i] !in q
  {
    forall a, b | 0 <= a < b < |q| ensures LastAt(h, q[a]) < LastAt(h, q[b]) {
      assert Skip(i, a) < Skip(i, b);
    }
    forall a | 0 <= a < |q| ensures q[a] != o[i] {
      assert Skip(i, a) < i || i < Skip(i, a);
    }
  }

  lemma TakenOutLeavesOlder(o: seq<Ip>, h: seq<Ip>, i: nat, q: seq<Ip>, n: nat)
    requires i < |o| && |q| == |o| - 1 && forall j :: 0 <= j < |q| ==> q[j] == o[Skip(i, j)]
    requires MostRecent(o, h, n) && forall x :: x in o && x != o[i] ==> x in q
    ensures LeavesOlder(q, h, o[i])
  {
    forall x, j | LastAt(h, x) >= 0 && x !in q && x != o[i] && 0 <= j < |q| ensures LastAt(h, x) < LastAt(h, q[j]) {
      assert x !in o && q[j] == o[Skip(i, j)];
    }
  }

  lemma FullMostRecent(o: seq<Ip>, h: seq<Ip>, s: Ip, n: nat)
    requires MostRecent(o, h, n) && s !in o && |o| == n > 0
    ensures MostRecent(o[1..] + [s], h + [s], n)
  {
    var q := o[1..];
    forall x | x in o && x != o[0] ensures x in q {
      var j :| 0 <= j < |o| && o[j] == x;
      assert x == q[j - 1];
    }
    PushMostRecent(q, h, s, n);
  }

  lemma MoveMostRecent(o: seq<Ip>, h: seq<Ip>, s: Ip, n: nat)
    requires MostRecent(o, h, n) && NoDup(o) && s in o
    ensures MostRecent(Without(o, s) + [s], h + [s], n)
  {
    var i :| 0 <= i < |o| && o[i] == s;
    WithoutIndex(o, i);
    HitMostRecent(o, h, i, Without(o, s), n);
  }

  lemma TouchMostRecent(l: Limiter, h: seq<Ip>, s: Ip)
    requires Tracked(l) && MostRecent(l.order, h, Limit(l))
    ensures MostRecent(Touch(l, s).order, h + [s], Limit(l))
  {
    TouchKeepsTracked(l, s);
    assert s in l.buckets <==> s in Elems(l.order);
    if s in l.order {
      MoveMostRecent(l.order, h, s, Limit(l));
    } else if |l.order| >= Limit(l) {
      FullMostRecent(l.order, h, s, Limit(l));
    } else {
      PushMostRecent(l.order, h, s, Limit(l));
    }
  }

  lemma CheckOrder(l: Limiter, c: Call)
    ensures CheckStep(l, c.src, c.now).0.order == if PassesGlobal(l, c) then Touch(l, c.src).order else l.order
    ensures CheckStep(l, c.src, c.now).0.maxTracked == l.maxTracked
  {
  }

  /** After any run the tracked sources are the max(1, maxTracked) most recent distinct sources that
      passed the global bucket, in recency order. */
  lemma {:induction false} LruIsMostRecent(l0: Limiter, calls: seq<Call>)
    requires l0.order == [] && l0.buckets == map[]
    ensures Tracked(Run(l0, calls)) && Limit(Run(l0, calls)) == Limit(l0)
    ensures MostRecent(Run(l0, calls).order, Passed(l0, calls), Limit(l0))
  {
    if calls == [] {
    } else {
      var n := |calls| - 1;
      LruIsMostRecent(l0, calls[..n]);
      LruStep(Run(l0, calls[..n]), calls[n], Passed(l0, calls[..n]));
    }
  }

  lemma LruStep(l: Limiter, c: Call, h: seq<Ip>)
    requires Tracked(l) && MostRecent(l.order, h, Limit(l))
    ensures var r := CheckStep(l, c.src, c.now).0;
            && Tracked(r) && Limit(r) == Limit(l)
            && MostRecent(r.order, h + if PassesGlobal(l, c) then [c.src] else [], Limit(l))
  {
    CheckKeepsTracked(l, c.src, c.now);
    CheckOrder(l, c);
    if PassesGlobal(l, c) {
      TouchMostRecent(l, h, c.src);
    } else {
      assert h + [] == h;
    }
  }

  // ---------------------------------------------------------------------
  // The global bound
  // ---------------------------------------------------------------------

  ghost predicate BucketOk(b: Bucket) {
    0.0 <= b.tokens <= b.capacity && 0.0 <= b.refill
  }

  function Later(t: Instant, u: Instant): Instant {
    if t < u then u else t
  }

  /** How far `last_update` advances from `b` to `c`; a bucket never used before starts at `first`. */
  function Growth(b: Bucket, c: Bucket, first: Instant): real {
    if c.last.None? then 0.0 else c.last.value - if b.last.Some? then b.last.value else first
  }

  /** `spent` tokens left the bucket between `b` and `c`, out of what was there or was refilled. */
  ghost predicate Fits(b: Bucket, c: Bucket, spent: real, first: Instant) {
    c.tokens + spent <= b.tokens + b.refill * Growth(b, c, first)
  }

  lemma MulNonNegative(a: real, b: real)
    requires 0.0 <= a && 0.0 <= b
    ensures 0.0 <= a * b
  {
  }

  lemma TakeKeepsOk(b: Bucket, now: Instant)
    requires BucketOk(b)
    ensures var c := Take(b, now).0;
            && BucketOk(c) && c.capacity == b.capacity && c.refill == b.refill
            && c.last == Some(if b.last == None then now else Later(b.last.value, now))
  {
    RefillKeepsOk(b, now);
  }

  lemma RefillKeepsOk(b: Bucket, now: Instant)
    requires BucketOk(b)
    ensures BucketOk(Refilled(b, now))
  {
    if b.last.Some? && now - b.last.value > 0.0 {
      var gain := (now - b.last.value) * b.refill;
      MulNonNegative(now - b.last.value, b.refill);
      assert Refilled(b, now).tokens == MinReal(b.tokens + gain, b.capacity);
    }
  }

  lemma TakeFits(b: Bucket, now: Instant)
    requires BucketOk(b)
    ensures Fits(b, Take(b, now).0, One(Take(b, now).1), now)
  {
    if b.last.Some? && now - b.last.value > 0.0 {
      var d := now - b.last.value;
      assert d * b.refill == b.refill * d;
    }
  }

  lemma AddGain(r: real, a: real, b: real)
    ensures r * (a + b) == r * a + r * b
  {
  }

  lemma FitsCompose(b: Bucket, m: Bucket, c: Bucket, s1: real, s2: real, t: Instant, u: Instant)
    requires Fits(b, m, s1, t) && Fits(m, c, s2, u) && m.last.Some? && c.last.Some? && m.refill == b.refill
    ensures Fits(b, c, s1 + s2, t)
  {
    AddGain(b.refill, Growth(b, m, t), Growth(m, c, u));
  }

  /** The bucket after a take at each of `ts`. */
  function TakeAll(b: Bucket, ts: seq<Instant>): Bucket {
    if ts == [] then b else Take(TakeAll(b, ts[..|ts| - 1]), ts[|ts| - 1]).0
  }

  /** How many of those takes succeeded. */
  function Taken(b: Bucket, ts: seq<Instant>): real {
    if ts == [] then 0.0
    else Taken(b, ts[..|ts| - 1]) + One(Take(TakeAll(b, ts[..|ts| - 1]), ts[|ts| - 1]).1)
  }

  lemma {:induction false} TakeAllKeepsOk(b: Bucket, ts: seq<Instant>)
    requires BucketOk(b)
    ensures var c := TakeAll(b, ts);
            BucketOk(c) && c.capacity == b.capacity && c.refill == b.refill && (ts != [] ==> c.last.Some?)
  {
    if ts == [] {
    } else {
      TakeAllKeepsOk(b, ts[..|ts| - 1]);
      TakeKeepsOk(TakeAll(b, ts[..|ts| - 1]), ts[|ts| - 1]);
    }
  }

  lemma {:induction false} TakeAllFits(b: Bucket, ts: seq<Instant>)
    requires BucketOk(b) && ts != []
    ensures Fits(b, TakeAll(b, ts), Taken(b, ts), ts[0])
  {
    var n := |ts| - 1;
    var m := TakeAll(b, ts[..n]);
    if n == 0 {
      assert ts[..0] == [];
      TakeFits(b, ts[0]);
    } else {
      TakeAllFits(b, ts[..n]);
      TakeAllKeepsOk(b, ts[..n]);
      TakeAllKeepsOk(b, ts);
      TakeFits(m, ts[n]);
      FitsCompose(b, m, TakeAll(b, ts), Taken(b, ts[..n]), One(Take(m, ts[n]).1), ts[0], ts[n]);
    }
  }

  function Times(calls: seq<Call>): seq<Instant> {
    seq(|calls|, i requires 0 <= i < |calls| => calls[i].now)
  }

  lemma CheckGlobal(l: Limiter, c: Call)
    ensures CheckStep(l, c.src, c.now).0.global == Take(l.global, c.now).0
    ensures Admits(l, c) ==> PassesGlobal(l, c)
  {
  }

  lemma {:induction false} GlobalIsOneBucket(l: Limiter, calls: seq<Call>)
    ensures Run(l, calls).global == TakeAll(l.global, Times(calls))
    ensures Admitted(l, calls) <= Taken(l.global, Times(calls))
  {
    if calls == [] {
    } else {
      var n := |calls| - 1;
      GlobalIsOneBucket(l, calls[..n]);
      CheckGlobal(Run(l, calls[..n]), calls[n]);
      assert Times(calls)[..n] == Times(calls[..n]);
    }
  }

  /** Over any block of consecutive checks, with instants in any order, no more are admitted than the
      global capacity plus what the advance of the global bucket's clock refilled. */
  lemma GlobalRateBound(l: Limiter, calls: seq<Call>)
    requires BucketOk(l.global) && calls != []
    ensures Bounded(Admitted(l, calls), l.global, Growth(l.global, Run(l, calls).global, calls[0].now))
  {
    GlobalIsOneBucket(l, calls);
    TakeAllFits(l.global, Times(calls));
    TakeAllKeepsOk(l.global, Times(calls));
    FitsBounds(l.global, Run(l, calls).global, Taken(l.global, Times(calls)), Admitted(l, calls), calls[0].now);
  }

  /** `n` admissions are within one full bucket plus `elapsed` seconds of refill. */
  ghost predicate Bounded(n: real, b: Bucket, elapsed: real) {
    n <= b.capacity + b.refill * elapsed
  }

  lemma FitsBounds(b: Bucket, c: Bucket, spent: real, n: real, first: Instant)
    requires BucketOk(b) && BucketOk(c) && Fits(b, c, spent, first) && n <= spent
    ensures Bounded(n, b, Growth(b, c, first))
  {
  }

  // ---------------------------------------------------------------------
  // The bound for one source, eviction included
  // ---------------------------------------------------------------------

  /** The sources used more recently than `s`. */
  ghost function Newer(o: seq<Ip>, s: Ip): set<Ip> {
    if o == [] then {} else if o[0] == s then Elems(o[1..]) else Newer(o[1..], s)
  }

  lemma {:induction false} NewerPush(o: seq<Ip>, s: Ip, x: Ip)
    requires s in o
    ensures Newer(o + [x], s) == Newer(o, s) + {x}
  {
    if o[0] == s {
      assert (o + [x])[1..] == o[1..] + [x];
    } else {
      assert o == [o[0]] + o[1..];
      assert (o + [x])[1..] == o[1..] + [x];
      NewerPush(o[1..], s, x);
    }
  }

  lemma {:induction false} NewerAtEnd(o: seq<Ip>, s: Ip)
    requires s !in o
    ensures Newer(o + [s], s) == {}
  {
    if o == [] {
    } else {
      assert (o + [s])[1..] == o[1..] + [s];
      NewerAtEnd(o[1..], s);
    }
  }

  lemma {:induction false} NewerWithout(o: seq<Ip>, s: Ip, x: Ip)
    requires NoDup(o) && x != s && s in o
    ensures s in Without(o, x) && Newer(Without(o, x), s) <= Newer(o, s)
  {
    assert o == [o[0]] + o[1..];
    if o[0] == s {
      WithoutFacts(o[1..], x);
    } else if o[0] != x {
      NewerWithout(o[1..], s, x);
      assert Without(o, x)[1..] == Without(o[1..], x);
    }
  }

  /** Pushing the newcomer `x` out of a full table of which `s` is not the oldest member. */
  lemma ShiftKeepsSource(o: seq<Ip>, s: Ip, x: Ip)
    requires NoDup(o) && s in o && x !in o
    requires |Newer(o, s) + {x}| < |o|
    ensures s in o[1..] + [x] && Newer(o[1..] + [x], s) <= Newer(o, s) + {x}
  {
    TailFacts(o);
    ElemsSize(o[1..]);
    assert |Elems(o[1..]) + {x}| == |o|;
    assert o[0] != s;
    assert o == [o[0]] + o[1..];
    NewerPush(o[1..], s, x);
  }

  /** Touching another source keeps `s`, unless the table is full of `s` and sources newer than it. */
  lemma TouchKeepsSource(l: Limiter, s: Ip, x: Ip)
    requires Tracked(l) && s in l.order && x != s
    requires |Newer(l.order, s) + {x}| < Limit(l)
    ensures s in Touch(l, x).order
    ensures Newer(Touch(l, x).order, s) <= Newer(l.order, s) + {x}
  {
    TouchKeepsTracked(l, x);
    assert x in l.buckets <==> x in Elems(l.order);
    if x in l.order {
      NewerWithout(l.order, s, x);
      NewerPush(Without(l.order, x), s, x);
    } else if |l.order| >= Limit(l) {
      ShiftKeepsSource(l.order, s, x);
    } else {
      NewerPush(l.order, s, x);
    }
  }

  lemma TouchMakesNewest(l: Limiter, s: Ip)
    requires Tracked(l)
    ensures s in Touch(l, s).order && Newer(Touch(l, s).order, s) == {}
  {
    TouchKeepsTracked(l, s);
    var o := Touch(l, s).order;
    var q := o[..|o| - 1];
    assert o == q + [s];
    assert forall i :: 0 <= i < |q| ==> q[i] == o[i] && o[i] != o[|o| - 1];
    NewerAtEnd(q, s);
  }

  /** The part of the window `[t0, t1]` that lies before `t`. */
  function Covered(t: Instant, t0: Instant, t1: Instant): real {
    (if t <= t1 then t else t1) - t0
  }

  /** In the window so far, `admitted` tokens left a bucket that held at most its capacity at the start. */
  ghost predicate InBudget(b: Bucket, admitted: real, t0: Instant, t1: Instant) {
    && b.last.Some? && t0 <= b.last.value
    && b.tokens + admitted <= b.capacity + b.refill * Covered(b.last.value, t0, t1)
  }

  lemma FirstTake(b: Bucket, now: Instant, t0: Instant, t1: Instant)
    requires BucketOk(b) && t0 <= now <= t1
    ensures InBudget(Take(b, now).0, One(Take(b, now).1), t0, t1)
  {
    TakeKeepsOk(b, now);
    var f := Refilled(b, now);
    assert f.tokens <= f.capacity;
    MulNonNegative(b.refill, Covered(f.last.value, t0, t1));
  }

  lemma NextTake(b: Bucket, admitted: real, now: Instant, t0: Instant, t1: Instant)
    requires BucketOk(b) && InBudget(b, admitted, t0, t1) && t0 <= now <= t1
    ensures InBudget(Take(b, now).0, admitted + One(Take(b, now).1), t0, t1)
  {
    var t := b.last.value;
    if t < now {
      AddGain(b.refill, Covered(t, t0, t1), now - t);
      assert (now - t) * b.refill == b.refill * (now - t);
    }
  }

  ghost predicate SourcesOk(l: Limiter) {
    && 0.0 <= l.capacity && 0.0 <= l.refill
    && forall s :: s in l.buckets ==> BucketFor(l, l.buckets[s])
  }

  ghost predicate BucketFor(l: Limiter, b: Bucket) {
    BucketOk(b) && b.capacity == l.capacity && b.refill == l.refill
  }

  function BucketOf(l: Limiter, s: Ip): Bucket {
    if s in l.buckets then l.buckets[s] else FullBucket(l.capacity, l.refill)
  }

  /** What one `check` does to the tracked buckets. */
  lemma CheckBuckets(l: Limiter, c: Call)
    requires Tracked(l)
    ensures var r := CheckStep(l, c.src, c.now).0;
            && Tracked(r) && r.capacity == l.capacity && r.refill == l.refill && r.maxTracked == l.maxTracked
            && (!PassesGlobal(l, c) ==> r.order == l.order && r.buckets == l.buckets && !Admits(l, c))
            && (PassesGlobal(l, c) ==>
                  && r.order == Touch(l, c.src).order && c.src in r.buckets
                  && r.buckets[c.src] == Take(BucketOf(l, c.src), c.now).0
                  && Admits(l, c) == Take(BucketOf(l, c.src), c.now).1
                  && (forall s :: s in r.buckets && s != c.src ==> s in l.buckets && r.buckets[s] == l.buckets[s]))
  {
    CheckKeepsTracked(l, c.src, c.now);
  }

  lemma CheckSourcesOk(l: Limiter, c: Call)
    requires Tracked(l) && SourcesOk(l)
    ensures SourcesOk(CheckStep(l, c.src, c.now).0)
  {
    CheckBuckets(l, c);
    if PassesGlobal(l, c) {
      TakeKeepsOk(BucketOf(l, c.src), c.now);
    }
  }

  /** What is known of `s` once it has been touched in the window. */
  ghost predicate SourceState(l: Limiter, s: Ip, admitted: real, others: set<Ip>, t0: Instant, t1: Instant) {
    && s in l.order && s in l.buckets
    && Newer(l.order, s) <= others
    && InBudget(l.buckets[s], admitted, t0, t1)
  }

  lemma OwnStep(l: Limiter, c: Call, admitted: real, others: set<Ip>, t0: Instant, t1: Instant)
    requires Tracked(l) && SourcesOk(l) && t0 <= c.now <= t1 && PassesGlobal(l, c)
    requires admitted == 0.0 || SourceState(l, c.src, admitted, others, t0, t1)
    ensures SourceState(CheckStep(l, c.src, c.now).0, c.src, admitted + One(Admits(l, c)), others, t0, t1)
  {
    CheckBuckets(l, c);
    TouchMakesNewest(l, c.src);
    if admitted == 0.0 {
      FirstTake(BucketOf(l, c.src), c.now, t0, t1);
    } else {
      NextTake(l.buckets[c.src], admitted, c.now, t0, t1);
    }
  }

  lemma OtherStep(l: Limiter, c: Call, s: Ip, admitted: real, others: set<Ip>, t0: Instant, t1: Instant)
    requires Tracked(l) && SourceState(l, s, admitted, others, t0, t1)
    requires PassesGlobal(l, c) && c.src != s && |others + {c.src}| < Limit(l)
    ensures SourceState(CheckStep(l, c.src, c.now).0, s, admitted, others + {c.src}, t0, t1)
  {
    CheckBuckets(l, c);
    SubsetSize(Newer(l.order, s) + {c.src}, others + {c.src});
    TouchKeepsSource(l, s, c.src);
    var r := CheckStep(l, c.src, c.now).0;
    assert s in Elems(r.order);
  }

  /** Sources other than `s` that passed the global bucket during `calls`. */
  ghost function Others(l: Limiter, calls: seq<Call>, s: Ip): set<Ip> {
    Elems(Passed(l, calls)) - {s}
  }

  ghost predicate Within(calls: seq<Call>, t0: Instant, t1: Instant) {
    forall i :: 0 <= i < |calls| ==> t0 <= calls[i].now <= t1
  }

  /** The limiter `r` in the middle of a window that `l` opened. */
  ghost predicate WindowState(l: Limiter, r: Limiter, s: Ip, touched: bool, admitted: real, others: set<Ip>, t0: Instant, t1: Instant) {
    && Tracked(r) && SourcesOk(r)
    && r.capacity == l.capacity && r.refill == l.refill && r.maxTracked == l.maxTracked
    && if touched then SourceState(r, s, admitted, others, t0, t1) else admitted == 0.0
  }

  lemma WindowStep(l: Limiter, r: Limiter, c: Call, s: Ip, touched: bool, admitted: real, others: set<Ip>, t0: Instant, t1: Instant)
    requires WindowState(l, r, s, touched, admitted, others, t0, t1) && t0 <= c.now <= t1
    requires PassesGlobal(r, c) && c.src != s ==> |others + {c.src}| < Limit(l)
    ensures WindowState(l, CheckStep(r, c.src, c.now).0, s, touched || (PassesGlobal(r, c) && c.src == s),
                        admitted + One(c.src == s && Admits(r, c)),
                        others + (if PassesGlobal(r, c) && c.src != s then {c.src} else {}), t0, t1)
  {
    CheckBuckets(r, c);
    CheckSourcesOk(r, c);
    if PassesGlobal(r, c) {
      if c.src == s {
        OwnStep(r, c, admitted, others, t0, t1);
      } else if touched {
        OtherStep(r, c, s, admitted, others, t0, t1);
      }
    }
  }

  lemma OthersStep(l: Limiter, calls: seq<Call>, s: Ip)
    requires calls != []
    ensures var before, c := calls[..|calls| - 1], calls[|calls| - 1];
            var passes := PassesGlobal(Run(l, before), c);
            && Others(l, calls, s) == Others(l, before, s) + (if passes && c.src != s then {c.src} else {})
            && |Others(l, before, s)| <= |Others(l, calls, s)|
            && (s in Passed(l, calls) <==> s in Passed(l, before) || (passes && c.src == s))
  {
    var before, c := calls[..|calls| - 1], calls[|calls| - 1];
    PushOthers(Passed(l, before), PassesGlobal(Run(l, before), c), c.src, s);
  }

  lemma PushElems(p: seq<Ip>, passes: bool, x: Ip)
    ensures Elems(p + if passes then [x] else []) == Elems(p) + if passes then {x} else {}
  {
  }

  lemma MoreOthers(a: set<Ip>, b: set<Ip>, s: Ip)
    ensures |a - {s}| <= |a + b - {s}|
  {
    SubsetSize(a - {s}, a + b - {s});
  }

  lemma PushOthers(p: seq<Ip>, passes: bool, x: Ip, s: Ip)
    ensures var q := p + if passes then [x] else [];
            && Elems(q) - {s} == Elems(p) - {s} + (if passes && x != s then {x} else {})
            && |Elems(p) - {s}| <= |Elems(q) - {s}|
            && (s in q <==> s in p || (passes && x == s))
  {
    PushElems(p, passes, x);
    MoreOthers(Elems(p), if passes then {x} else {}, s);
  }

  lemma {:induction false} WindowRun(l: Limiter, calls: seq<Call>, s: Ip, t0: Instant, t1: Instant)
    requires Tracked(l) && SourcesOk(l) && Within(calls, t0, t1)
    requires |Others(l, calls, s)| < Limit(l)
    ensures WindowState(l, Run(l, calls), s, s in Passed(l, calls), AdmittedFrom(l, calls, s), Others(l, calls, s), t0, t1)
  {
    if calls == [] {
    } else {
      var before, c := calls[..|calls| - 1], calls[|calls| - 1];
      OthersStep(l, calls, s);
      WindowRun(l, before, s, t0, t1);
      WindowStep(l, Run(l, before), c, s, s in Passed(l, before), AdmittedFrom(l, before, s), Others(l, before, s), t0, t1);
    }
  }

  /** Over any window `[t0, t1]`, from any state, in which fewer than max(1, maxTracked) other sources
      are touched, one source gets no more than a full bucket plus the refill of the window: within such
      a window the recency order cannot evict it and hand it a fresh bucket. */
  lemma SourceRateBound(l: Limiter, calls: seq<Call>, s: Ip, t0: Instant, t1: Instant)
    requires Tracked(l) && SourcesOk(l) && Within(calls, t0, t1) && t0 <= t1
    requires |Others(l, calls, s)| < Limit(l)
    ensures Bounded(AdmittedFrom(l, calls, s), FullBucket(l.capacity, l.refill), t1 - t0)
  {
    WindowRun(l, calls, s, t0, t1);
    WindowBounds(l, Run(l, calls), s, s in Passed(l, calls), AdmittedFrom(l, calls, s), Others(l, calls, s), t0, t1);
  }

  lemma WindowBounds(l: Limiter, r: Limiter, s: Ip, touched: bool, n: real, others: set<Ip>, t0: Instant, t1: Instant)
    requires WindowState(l, r, s, touched, n, others, t0, t1) && t0 <= t1
    ensures Bounded(n, FullBucket(l.capacity, l.refill), t1 - t0)
  {
    if touched {
      BudgetBounds(l, r.buckets[s], n, t0, t1);
    } else {
      ZeroBounds(l, t1 - t0);
    }
  }

  lemma Stretch(n: real, tokens: real, capacity: real, r: real, covered: real, whole: real)
    requires 0.0 <= tokens && 0.0 <= r && covered <= whole
    requires tokens + n <= capacity + r * covered
    ensures n <= capacity + r * whole
  {
    MulNonNegative(r, whole - covered);
    AddGain(r, covered, whole - covered);
    assert covered + (whole - covered) == whole;
  }

  lemma BudgetBounds(l: Limiter, b: Bucket, n: real, t0: Instant, t1: Instant)
    requires BucketFor(l, b) && InBudget(b, n, t0, t1) && t0 <= t1
    ensures Bounded(n, FullBucket(l.capacity, l.refill), t1 - t0)
  {
    Stretch(n, b.tokens, l.capacity, l.refill, Covered(b.last.value, t0, t1), t1 - t0);
  }

  lemma ZeroBounds(l: Limiter, d: real)
    requires 0.0 <= l.capacity && 0.0 <= l.refill && 0.0 <= d
    ensures Bounded(0.0, FullBucket(l.capacity, l.refill), d)
  {
    MulNonNegative(l.refill, d);
  }
}
