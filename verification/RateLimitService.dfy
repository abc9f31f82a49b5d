/** What the rate limiter lets through: a fresh one a whole burst, an idle one what has been refilled. */
module RateLimitService {
  import opened Base
  import opened RateLimitSpec
  import opened RateLimitRuns

  // ---------------------------------------------------------------------
  // A burst at a fresh limiter
  // ---------------------------------------------------------------------

  /** How many of the calls come from `s`. */
  function CallsFrom(calls: seq<Call>, s: Ip): nat {
    if calls == [] then 0
    else CallsFrom(calls[..|calls| - 1], s) + if calls[|calls| - 1].src == s then 1 else 0
  }

  function Sources(calls: seq<Call>): set<Ip> {
    if calls == [] then {} else Sources(calls[..|calls| - 1]) + {calls[|calls| - 1].src}
  }

  lemma {:induction false} SourcesCall(calls: seq<Call>, s: Ip)
    ensures s in Sources(calls) <==> CallsFrom(calls, s) > 0
  {
    if calls == [] {
    } else {
      SourcesCall(calls[..|calls| - 1], s);
    }
  }

  /** No more than `gc` calls, no more than `c` from any source, no more than `limit` sources. */
  ghost predicate IsBurst(calls: seq<Call>, gc: real, c: real, limit: nat) {
    && |calls| as real <= gc
    && (forall s :: CallsFrom(calls, s) as real <= c)
    && |Sources(calls)| <= limit
  }

  lemma BurstBefore(calls: seq<Call>, gc: real, c: real, limit: nat)
    requires calls != [] && IsBurst(calls, gc, c, limit)
    ensures IsBurst(calls[..|calls| - 1], gc, c, limit)
  {
    var before := calls[..|calls| - 1];
    forall s ensures CallsFrom(before, s) as real <= c {
      assert CallsFrom(before, s) <= CallsFrom(calls, s);
    }
    SubsetSize(Sources(before), Sources(calls));
  }

  lemma RefillKeepsTokens(b: Bucket, now: Instant)
    requires BucketOk(b)
    ensures Refilled(b, now).tokens >= b.tokens
  {
    if b.last.Some? && now - b.last.value > 0.0 {
      MulNonNegative(now - b.last.value, b.refill);
    }
  }

  /** A bucket with a token gives it, and loses no other. */
  lemma TakeGives(b: Bucket, now: Instant)
    requires BucketOk(b)
    ensures b.tokens >= 1.0 ==> Take(b, now).1
    ensures Take(b, now).0.tokens >= b.tokens - 1.0
    ensures BucketOk(Take(b, now).0)
  {
    RefillKeepsTokens(b, now);
    TakeKeepsOk(b, now);
  }

  /** A source that has called is tracked and has lost one token per call; any other is not tracked. */
  ghost predicate SourceServed(l: Limiter, calls: seq<Call>, c: real, s: Ip) {
    if s in Sources(calls)
    then s in l.buckets && BucketOk(l.buckets[s]) && l.buckets[s].tokens >= c - CallsFrom(calls, s) as real
    else s !in l.buckets
  }

  ghost predicate Served(l: Limiter, calls: seq<Call>, gc: real, c: real, limit: nat) {
    && BucketOk(l.global) && l.global.tokens >= gc - |calls| as real
    && l.capacity == c && l.refill >= 0.0 && Limit(l) == limit
    && forall s :: SourceServed(l, calls, c, s)
  }

  /** During a burst the table never fills. */
  lemma RoomForNext(l: Limiter, calls: seq<Call>, gc: real, c: real, limit: nat)
    requires calls != [] && IsBurst(calls, gc, c, limit)
    requires Served(l, calls[..|calls| - 1], gc, c, limit) && calls[|calls| - 1].src !in l.buckets
    ensures |l.buckets| < Limit(l)
  {
    var before, s := calls[..|calls| - 1], calls[|calls| - 1].src;
    assert SourceServed(l, before, c, s);
    forall x | x in l.buckets ensures x in Sources(before) {
      assert SourceServed(l, before, c, x);
    }
    assert l.buckets.Keys <= Sources(before);
    SubsetSize(l.buckets.Keys, Sources(before));
    assert |l.buckets| == |l.buckets.Keys|;
  }

  /** The bucket from which the next call is served. */
  lemma NextBucket(l: Limiter, calls: seq<Call>, gc: real, c: real, limit: nat)
    requires calls != [] && IsBurst(calls, gc, c, limit)
    requires Served(l, calls[..|calls| - 1], gc, c, limit)
    ensures var s := calls[|calls| - 1].src;
            var t := Touch(l, s);
            && BucketOk(t.buckets[s])
            && t.buckets[s].tokens >= c - CallsFrom(calls[..|calls| - 1], s) as real
            && t.buckets[s].tokens >= 1.0
            && (forall x :: x != s ==> (x in t.buckets <==> x in l.buckets) && (x in l.buckets ==> t.buckets[x] == l.buckets[x]))
  {
    var before, s := calls[..|calls| - 1], calls[|calls| - 1].src;
    assert CallsFrom(calls, s) == CallsFrom(before, s) + 1;
    assert SourceServed(l, before, c, s);
    SourcesCall(before, s);
    if s !in l.buckets {
      RoomForNext(l, calls, gc, c, limit);
    }
  }

  lemma NextServed(l: Limiter, calls: seq<Call>, gc: real, c: real, limit: nat)
    requires calls != [] && IsBurst(calls, gc, c, limit)
    requires Served(l, calls[..|calls| - 1], gc, c, limit)
    ensures var call := calls[|calls| - 1];
            Admits(l, call) && Served(CheckStep(l, call.src, call.now).0, calls, gc, c, limit)
  {
    var before, call := calls[..|calls| - 1], calls[|calls| - 1];
    TakeGives(l.global, call.now);
    var g := Take(l.global, call.now).0;
    var k := l.(global := g);
    assert forall x :: SourceServed(l, before, c, x) ==> SourceServed(k, before, c, x);
    TakeKeepsOk(l.global, call.now);
    NextBucketOf(l, k, calls, gc, c, limit);
    var t := Touch(k, call.src);
    TakeGives(t.buckets[call.src], call.now);
    var d := CheckStep(l, call.src, call.now).0;
    forall s ensures SourceServed(d, calls, c, s) {
      assert SourceServed(l, before, c, s);
    }
  }

  /** Charging the global bucket does not change which bucket serves the call. */
  lemma NextBucketOf(l: Limiter, k: Limiter, calls: seq<Call>, gc: real, c: real, limit: nat)
    requires calls != [] && IsBurst(calls, gc, c, limit)
    requires Served(l, calls[..|calls| - 1], gc, c, limit) && k == l.(global := k.global)
    ensures var s := calls[|calls| - 1].src;
            var t := Touch(k, s);
            && BucketOk(t.buckets[s])
            && t.buckets[s].tokens >= c - CallsFrom(calls[..|calls| - 1], s) as real
            && t.buckets[s].tokens >= 1.0
            && (forall x :: x != s ==> (x in t.buckets <==> x in l.buckets) && (x in l.buckets ==> t.buckets[x] == l.buckets[x]))
  {
    NextBucket(l, calls, gc, c, limit);
    assert Touch(k, calls[|calls| - 1].src).buckets == Touch(l, calls[|calls| - 1].src).buckets;
  }

  lemma {:induction false} BurstServed(gc: real, gr: real, c: real, r: real, m: nat, calls: seq<Call>)
    requires 0.0 <= gc && 0.0 <= gr && 0.0 <= c && 0.0 <= r && IsBurst(calls, gc, c, Max(1, m))
    ensures Served(Run(EmptyLimiter(gc, gr, c, r, m), calls), calls, gc, c, Max(1, m))
  {
    var l := EmptyLimiter(gc, gr, c, r, m);
    if calls == [] {
      assert forall s :: SourceServed(l, calls, c, s);
    } else {
      BurstBefore(calls, gc, c, Max(1, m));
      BurstServed(gc, gr, c, r, m, calls[..|calls| - 1]);
      NextServed(Run(l, calls[..|calls| - 1]), calls, gc, c, Max(1, m));
    }
  }

  lemma {:induction false} BurstPrefix(calls: seq<Call>, k: nat, gc: real, c: real, limit: nat)
    requires k <= |calls| && IsBurst(calls, gc, c, limit)
    ensures IsBurst(calls[..k], gc, c, limit)
    decreases |calls| - k
  {
    if k == |calls| {
      assert calls[..k] == calls;
    } else {
      BurstPrefix(calls, k + 1, gc, c, limit);
      BurstBefore(calls[..k + 1], gc, c, limit);
      assert calls[..k + 1][..k] == calls[..k];
    }
  }

  /** A fresh limiter admits a whole burst, with instants in any order: up to `gc` calls, up to `c` from each
      source, from up to max(1, m) sources. */
  lemma FreshAdmitsBurst(gc: real, gr: real, c: real, r: real, m: nat, calls: seq<Call>, k: nat)
    requires 0.0 <= gc && 0.0 <= gr && 0.0 <= c && 0.0 <= r
    requires IsBurst(calls, gc, c, Max(1, m)) && k < |calls|
    ensures Admits(Run(EmptyLimiter(gc, gr, c, r, m), calls[..k]), calls[k])
  {
    BurstPrefix(calls, k + 1, gc, c, Max(1, m));
    BurstPrefix(calls, k, gc, c, Max(1, m));
    BurstServed(gc, gr, c, r, m, calls[..k]);
    assert calls[..k + 1][..k] == calls[..k];
    NextServed(Run(EmptyLimiter(gc, gr, c, r, m), calls[..k]), calls[..k + 1], gc, c, Max(1, m));
  }

  /** With the documented defaults the first 32 packets of a source pass. */
  lemma DefaultsAdmitDial(calls: seq<Call>, s: Ip, k: nat)
    requires |calls| <= 32 && k < |calls| && forall i :: 0 <= i < |calls| ==> calls[i].src == s
    ensures Admits(Run(EmptyLimiter(2048.0, 512.0, 32.0, 8.0, 4096), calls[..k]), calls[k])
  {
    OneSource(calls, s);
    FreshAdmitsBurst(2048.0, 512.0, 32.0, 8.0, 4096, calls, k);
  }

  lemma {:induction false} OneSource(calls: seq<Call>, s: Ip)
    requires forall i :: 0 <= i < |calls| ==> calls[i].src == s
    ensures forall x :: CallsFrom(calls, x) <= |calls|
    ensures Sources(calls) <= {s} && |Sources(calls)| <= 1
  {
    if calls == [] {
    } else {
      OneSource(calls[..|calls| - 1], s);
    }
    SubsetSize(Sources(calls), {s});
  }

  // ---------------------------------------------------------------------
  // An idle limiter
  // ---------------------------------------------------------------------

  /** What an idle bucket is worth at `now`: its tokens and `refill` for each second since it was last used, but
      no more than its capacity. */
  function Worth(b: Bucket, now: Instant): real {
    if b.last == None then b.tokens
    else
      var w := b.tokens + b.refill * (now - b.last.value);
      if w > b.capacity then b.capacity else w
  }

  ghost predicate Idle(b: Bucket, now: Instant) {
    BucketOk(b) && (b.last.Some? ==> b.last.value <= now)
  }

  /** A take at `now` succeeds exactly if the bucket is worth a token, and costs it one. */
  lemma TakeAtWorth(b: Bucket, now: Instant)
    requires Idle(b, now)
    ensures var (c, ok) := Take(b, now);
            && (ok <==> Worth(b, now) >= 1.0)
            && Idle(c, now) && Worth(c, now) == Worth(b, now) - if ok then 1.0 else 0.0
  {
    TakeKeepsOk(b, now);
    RefilledIsWorth(b, now);
    UsedNow(Take(b, now).0, now);
  }

  lemma UsedNow(b: Bucket, now: Instant)
    requires BucketOk(b) && b.last == Some(now)
    ensures Worth(b, now) == b.tokens
  {
    assert b.refill * (now - now) == 0.0;
  }

  lemma RefilledIsWorth(b: Bucket, now: Instant)
    requires Idle(b, now)
    ensures Refilled(b, now).tokens == Worth(b, now) && Refilled(b, now).last == Some(now)
  {
    if b.last == Some(now) {
      UsedNow(b, now);
    } else if b.last.Some? {
      var d := now - b.last.value;
      assert d * b.refill == b.refill * d;
      assert Refilled(b, now).tokens == MinReal(b.tokens + d * b.refill, b.capacity);
    }
  }

  /** `n` calls from one source at one instant. */
  function Block(s: Ip, now: Instant, n: nat): seq<Call> {
    seq(n, i => Call(s, now))
  }

  ghost predicate Paid(before: real, after: real, n: nat) {
    if n as real <= before then after == before - n as real else after < 1.0
  }

  lemma PaidNext(before: real, after: real, n: nat, next: real)
    requires 0.0 <= before && Paid(before, after, n) && next == after - if after >= 1.0 then 1.0 else 0.0
    ensures after >= 1.0 <==> (n + 1) as real <= before
    ensures Paid(before, next, n + 1)
  {
  }

  /** After `n` calls of the block: what is left in the two buckets. */
  ghost predicate BlockState(l: Limiter, k: Limiter, s: Ip, now: Instant, n: nat) {
    && s in l.buckets && s in k.buckets && Idle(k.global, now) && Idle(k.buckets[s], now)
    && Paid(Worth(l.global, now), Worth(k.global, now), n)
    && (n as real <= Worth(l.global, now) ==> Paid(Worth(l.buckets[s], now), Worth(k.buckets[s], now), n))
  }

  lemma BlockNext(l: Limiter, k: Limiter, s: Ip, now: Instant, n: nat)
    requires s in l.buckets && Worth(l.global, now) >= 0.0 && Worth(l.buckets[s], now) >= 0.0
    requires BlockState(l, k, s, now, n)
    ensures BlockState(l, CheckStep(k, s, now).0, s, now, n + 1)
    ensures CheckStep(k, s, now).1 <==> (n + 1) as real <= Worth(l.global, now) && (n + 1) as real <= Worth(l.buckets[s], now)
  {
    TakeAtWorth(k.global, now);
    TakeAtWorth(k.buckets[s], now);
    var g := Take(k.global, now).0;
    PaidNext(Worth(l.global, now), Worth(k.global, now), n, Worth(g, now));
    if n as real <= Worth(l.global, now) {
      PaidNext(Worth(l.buckets[s], now), Worth(k.buckets[s], now), n, Worth(Take(k.buckets[s], now).0, now));
    }
    assert Touch(k.(global := g), s).buckets == k.buckets;
  }

  lemma WorthIsNonNegative(b: Bucket, now: Instant)
    requires Idle(b, now)
    ensures Worth(b, now) >= 0.0
  {
    if b.last.Some? {
      var gain := b.refill * (now - b.last.value);
      MulNonNegative(b.refill, now - b.last.value);
      assert gain >= 0.0;
      assert Worth(b, now) != b.capacity ==> Worth(b, now) == b.tokens + gain;
    }
  }

  lemma {:induction false} BlockPays(l: Limiter, s: Ip, now: Instant, n: nat)
    requires s in l.buckets && Idle(l.global, now) && Idle(l.buckets[s], now)
    ensures BlockState(l, Run(l, Block(s, now, n)), s, now, n)
  {
    WorthIsNonNegative(l.global, now);
    WorthIsNonNegative(l.buckets[s], now);
    if n == 0 {
    } else {
      BlockPays(l, s, now, n - 1);
      assert Block(s, now, n)[..n - 1] == Block(s, now, n - 1);
      BlockNext(l, Run(l, Block(s, now, n - 1)), s, now, n - 1);
    }
  }

  /** After an idle time: of calls from a tracked source at one instant exactly those pass for which both
      buckets, with what the idle time refilled, still hold a token. */
  lemma IdleAdmitsWorth(l: Limiter, s: Ip, now: Instant, n: nat)
    requires s in l.buckets && Idle(l.global, now) && Idle(l.buckets[s], now)
    ensures Admits(Run(l, Block(s, now, n)), Call(s, now)) <==>
              (n + 1) as real <= Worth(l.global, now) && (n + 1) as real <= Worth(l.buckets[s], now)
  {
    WorthIsNonNegative(l.global, now);
    WorthIsNonNegative(l.buckets[s], now);
    BlockPays(l, s, now, n);
    BlockNext(l, Run(l, Block(s, now, n)), s, now, n);
  }
}
