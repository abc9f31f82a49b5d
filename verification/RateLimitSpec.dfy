/** What the token bucket and the rate limiter compute, as functions on values. */
module RateLimitSpec {
  import opened Base

  /** A source address. */
  type Ip = nat

  datatype Bucket = Bucket(capacity: real, refill: real, tokens: real, last: Option<Instant>)

  function FullBucket(capacity: real, refill: real): Bucket {
    Bucket(capacity, refill, capacity, None)
  }

  function MinReal(a: real, b: real): real {
    if a < b then a else b
  }

  function Refilled(b: Bucket, now: Instant): Bucket {
    match b.last
    case None => b.(last := Some(now))
    case Some(t) =>
      if now - t > 0.0
      then b.(tokens := MinReal(b.tokens + (now - t) * b.refill, b.capacity), last := Some(now))
      else b
  }

  /** Refill by the elapsed time, then take one token if there is one. */
  function Take(b: Bucket, now: Instant): (Bucket, bool) {
    var f := Refilled(b, now);
    if f.tokens >= 1.0 then (f.(tokens := f.tokens - 1.0), true) else (f, false)
  }

  /** `order` lists the tracked sources from least to most recently used. */
  datatype Limiter = Limiter(global: Bucket, order: seq<Ip>, buckets: map<Ip, Bucket>,
                             capacity: real, refill: real, maxTracked: nat)

  function EmptyLimiter(globalCapacity: real, globalRefill: real, capacity: real, refill: real, maxTracked: nat): Limiter {
    Limiter(FullBucket(globalCapacity, globalRefill), [], map[], capacity, refill, maxTracked)
  }

  function Limit(l: Limiter): nat {
    Max(1, l.maxTracked)
  }

  ghost predicate Tracked(l: Limiter) {
    && NoDup(l.order)
    && Elems(l.order) == l.buckets.Keys
    && |l.order| <= Limit(l)
  }

  /** Drop the least recently used source when the table is full. */
  function Evicted(l: Limiter): Limiter {
    if |l.buckets| >= Limit(l) && l.order != []
    then l.(order := l.order[1..], buckets := l.buckets - {l.order[0]})
    else l
  }

  /** Make `src` the most recently used source, giving it a full bucket if it is new. */
  function Touch(l: Limiter, src: Ip): (r: Limiter)
    ensures src in r.buckets
  {
    if src in l.buckets
    then l.(order := Without(l.order, src) + [src])
    else
      var e := Evicted(l);
      e.(order := e.order + [src], buckets := e.buckets[src := FullBucket(l.capacity, l.refill)])
  }

  /** One `check`: the global bucket first, then the bucket of the source. */
  function CheckStep(l: Limiter, src: Ip, now: Instant): (Limiter, bool) {
    var (g, ok) := Take(l.global, now);
    if !ok then (l.(global := g), false)
    else
      var t := Touch(l.(global := g), src);
      var (b, admitted) := Take(t.buckets[src], now);
      (t.(buckets := t.buckets[src := b]), admitted)
  }

  lemma KeysSize(l: Limiter)
    requires Tracked(l)
    ensures |l.buckets| == |l.order|
  {
    ElemsSize(l.order);
    assert |l.buckets| == |l.buckets.Keys|;
  }

  lemma TouchHit(l: Limiter, src: Ip)
    requires Tracked(l) && src in l.buckets
    ensures Tracked(Touch(l, src))
  {
    assert src in Elems(l.order);
    WithoutFacts(l.order, src);
    PushFacts(Without(l.order, src), src);
  }

  lemma EvictedTracked(l: Limiter)
    requires Tracked(l)
    ensures Evicted(l).order == if |l.order| >= Limit(l) then l.order[1..] else l.order
    ensures Tracked(Evicted(l)) && |Evicted(l).order| < Limit(l)
  {
    KeysSize(l);
    if |l.order| >= Limit(l) {
      TailFacts(l.order);
    }
  }

  lemma AppendTracked(e: Limiter, src: Ip, b: Bucket)
    requires Tracked(e) && |e.order| < Limit(e) && src !in e.buckets
    ensures Tracked(e.(order := e.order + [src], buckets := e.buckets[src := b]))
  {
    assert src !in Elems(e.order);
    PushFacts(e.order, src);
    assert e.buckets[src := b].Keys == e.buckets.Keys + {src};
  }

  lemma TouchMiss(l: Limiter, src: Ip)
    requires Tracked(l) && src !in l.buckets
    ensures Tracked(Touch(l, src))
  {
    EvictedTracked(l);
    var e := Evicted(l);
    assert e.buckets.Keys <= l.buckets.Keys;
    AppendTracked(e, src, FullBucket(l.capacity, l.refill));
  }

  /** Where `src` ends up, who leaves, and whose bucket is new. */
  lemma TouchKeepsTracked(l: Limiter, src: Ip)
    requires Tracked(l)
    ensures Tracked(Touch(l, src))
    ensures Touch(l, src).order == (if src in l.buckets then Without(l.order, src)
                                    else if |l.order| >= Limit(l) then l.order[1..]
                                    else l.order) + [src]
    ensures forall s :: s in Touch(l, src).buckets && s in l.buckets ==> Touch(l, src).buckets[s] == l.buckets[s]
  {
    if src in l.buckets { TouchHit(l, src); } else { TouchMiss(l, src); EvictedTracked(l); }
  }

  lemma CheckKeepsTracked(l: Limiter, src: Ip, now: Instant)
    requires Tracked(l)
    ensures Tracked(CheckStep(l, src, now).0)
  {
    TouchKeepsTracked(l.(global := Take(l.global, now).0), src);
  }
}
