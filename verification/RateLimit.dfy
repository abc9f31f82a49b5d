/** The token bucket and the rate limiter as the program keeps them: fields changed in place. */
module RateLimit {
  import opened Base
  import opened RateLimitSpec

  /** Refill `b` for the time since its last update, then try to take one token from it.
      The bucket is a record inside the limiter or inside one table entry; its owner stores `r` back. */
  method TryTake(b: Bucket, now: Instant) returns (r: Bucket, ok: bool)
    ensures r == Take(b, now).0 && ok == Take(b, now).1
  {
    r := b;
    match r.last {
      case None =>
        r := r.(last := Some(now));
      case Some(last) =>
        var elapsed := if now < last then 0.0 else now - last;
        if elapsed > 0.0 {
          r := r.(tokens := MinReal(r.tokens + elapsed * r.refill, r.capacity));
          r := r.(last := Some(now));
        }
    }
    ok := r.tokens >= 1.0;
    if ok {
      r := r.(tokens := r.tokens - 1.0);
    }
  }

  /** A tracked source: its bucket, and its neighbours in recency order. */
  datatype SourceEntry = SourceEntry(bucket: Bucket, older: Option<Ip>, newer: Option<Ip>)

  type Table = map<Ip, SourceEntry>

  function First(o: seq<Ip>): Option<Ip> {
    if o == [] then None else Some(o[0])
  }

  function Last(o: seq<Ip>): Option<Ip> {
    if o == [] then None else Some(o[|o| - 1])
  }

  function Before(o: seq<Ip>, i: nat): Option<Ip> {
    if 0 < i <= |o| then Some(o[i - 1]) else None
  }

  function After(o: seq<Ip>, i: nat): Option<Ip> {
    if i + 1 < |o| then Some(o[i + 1]) else None
  }

  /** The links of `m`, entered at `head` and `tail`, thread exactly the sources of `o` in that order. */
  ghost predicate Chain(m: Table, head: Option<Ip>, tail: Option<Ip>, o: seq<Ip>) {
    && NoDup(o)
    && head == First(o)
    && tail == Last(o)
    && (forall i :: 0 <= i < |o| ==> LinkedAt(m, o, i))
  }

  ghost predicate LinkedAt(m: Table, o: seq<Ip>, i: int)
    requires 0 <= i < |o|
  {
    o[i] in m && m[o[i]].older == Before(o, i) && m[o[i]].newer == After(o, i)
  }

  lemma Neighbours(m: Table, head: Option<Ip>, tail: Option<Ip>, o: seq<Ip>, i: nat)
    requires Chain(m, head, tail, o) && i < |o|
    ensures o[i] in m && m[o[i]].older == Before(o, i) && m[o[i]].newer == After(o, i)
    ensures i > 0 ==> o[i - 1] in m && o[i - 1] != o[i]
    ensures i < |o| - 1 ==> o[i + 1] in m && o[i] != o[i + 1]
    ensures 0 < i < |o| - 1 ==> o[i - 1] != o[i + 1]
  {
    assert LinkedAt(m, o, i);
    assert i > 0 ==> LinkedAt(m, o, i - 1);
    assert i < |o| - 1 ==> LinkedAt(m, o, i + 1);
  }

  ghost function BucketsOf(m: Table): map<Ip, Bucket> {
    map a | a in m :: m[a].bucket
  }

  lemma SameKeys(m: Table)
    ensures BucketsOf(m).Keys == m.Keys && |BucketsOf(m)| == |m|
  {
    assert |m| == |m.Keys| && |BucketsOf(m)| == |BucketsOf(m).Keys|;
  }

  lemma ForgetChain(m: Table, head: Option<Ip>, tail: Option<Ip>, o: seq<Ip>, src: Ip)
    requires Chain(m, head, tail, o) && src !in o
    ensures Chain(m - {src}, head, tail, o)
  {
    var n := m - {src};
    forall i | 0 <= i < |o| ensures LinkedAt(n, o, i) {
      assert LinkedAt(m, o, i);
    }
  }

  lemma FreshChain(m: Table, head: Option<Ip>, tail: Option<Ip>, o: seq<Ip>, src: Ip, e: SourceEntry)
    requires Chain(m, head, tail, o) && src !in o
    ensures Chain(m[src := e], head, tail, o)
  {
    var n := m[src := e];
    forall i | 0 <= i < |o| ensures LinkedAt(n, o, i) {
      assert LinkedAt(m, o, i);
    }
  }

  lemma SameLinksChain(m: Table, head: Option<Ip>, tail: Option<Ip>, o: seq<Ip>, src: Ip, b: Bucket)
    requires Chain(m, head, tail, o) && src in m
    ensures Chain(m[src := m[src].(bucket := b)], head, tail, o)
  {
    var n := m[src := m[src].(bucket := b)];
    forall i | 0 <= i < |o| ensures LinkedAt(n, o, i) {
      assert LinkedAt(m, o, i);
    }
  }

  /** Routing the links of the two neighbours around `o[i]` leaves the chain without it. */
  lemma UnlinkChain(m: Table, head: Option<Ip>, tail: Option<Ip>, o: seq<Ip>, i: nat, n: Table)
    requires Chain(m, head, tail, o) && i < |o|
    requires m.Keys == n.Keys
    requires forall k :: 0 <= k < |o| && k != i ==> Rerouted(m, o, i, n, k)
    ensures Chain(n, if i == 0 then After(o, i) else head, if i == |o| - 1 then Before(o, i) else tail, o[..i] + o[i + 1..])
  {
    var p := o[..i] + o[i + 1..];
    forall k | 0 <= k < |p| ensures LinkedAt(n, p, k) {
      var j := if k < i then k else k + 1;
      assert LinkedAt(m, o, j);
      assert Rerouted(m, o, i, n, j);
    }
  }

  ghost predicate Rerouted(m: Table, o: seq<Ip>, i: nat, n: Table, k: int)
    requires i < |o| && 0 <= k < |o|
  {
    && o[k] in m && o[k] in n
    && n[o[k]].older == (if k == i + 1 then Before(o, i) else m[o[k]].older)
    && n[o[k]].newer == (if k == i - 1 then After(o, i) else m[o[k]].newer)
  }

  /** The links determine the order: one table cannot be read as two different chains. */
  lemma {:induction false} ChainUnique(m: Table, head: Option<Ip>, tail: Option<Ip>, o: seq<Ip>, p: seq<Ip>)
    requires Chain(m, head, tail, o) && Chain(m, head, tail, p)
    ensures o == p
  {
    var k := 0;
    while k < |o| && k < |p|
      invariant 0 <= k <= |o| && k <= |p|
      invariant o[..k] == p[..k]
      invariant k < |o| && k < |p| ==> o[k] == p[k]
      invariant k > 0 ==> (k < |o| <==> k < |p|)
    {
      Neighbours(m, head, tail, o, k);
      Neighbours(m, head, tail, p, k);
      k := k + 1;
    }
  }

  class RateLimiter {
    var global: Bucket
    var perSource: Table
    var lruHead: Option<Ip>
    var lruTail: Option<Ip>
    const capacity: real
    const refill: real
    const maxTracked: nat
    ghost var order: seq<Ip>

    /** The table is one chain over exactly its keys. */
    ghost predicate Valid()
      reads this
    {
      && Chain(perSource, lruHead, lruTail, order)
      && Tracked(View())
    }

    ghost function View(): Limiter
      reads this
    {
      Limiter(global, order, BucketsOf(perSource), capacity, refill, maxTracked)
    }

    constructor (globalCapacity: real, globalRefill: real, capacity: real, refill: real, maxTracked: nat)
      ensures Valid()
      ensures View() == EmptyLimiter(globalCapacity, globalRefill, capacity, refill, maxTracked)
    {
      global := FullBucket(globalCapacity, globalRefill);
      perSource, lruHead, lruTail, order := map[], None, None, [];
      this.capacity, this.refill, this.maxTracked := capacity, refill, maxTracked;
    }

    /** Unlink `src`; it stays in the table, outside the chain. */
    method Detach(src: Ip, ghost i: nat)
      requires Chain(perSource, lruHead, lruTail, order)
      requires i < |order| && order[i] == src
      modifies this`perSource, this`lruHead, this`lruTail, this`order
      ensures order == old(order[..i] + order[i + 1..])
      ensures Chain(perSource, lruHead, lruTail, order)
      ensures BucketsOf(perSource) == BucketsOf(old(perSource))
    {
      Neighbours(perSource, lruHead, lruTail, order, i);
      ghost var m, h, t := perSource, lruHead, lruTail;
      var older, newer := perSource[src].older, perSource[src].newer;
      match older {
        case Some(ip) => perSource := perSource[ip := perSource[ip].(newer := newer)];
        case None => lruHead := newer;
      }
      match newer {
        case Some(ip) => perSource := perSource[ip := perSource[ip].(older := older)];
        case None => lruTail := older;
      }
      perSource := perSource[src := perSource[src].(older := None, newer := None)];
      forall k | 0 <= k < |order| && k != i ensures Rerouted(m, order, i, perSource, k) {
        Neighbours(m, h, t, order, k);
      }
      UnlinkChain(m, h, t, order, i, perSource);
      order := order[..i] + order[i + 1..];
    }

    /** Link `src`, which is outside the chain, as the newest source. */
    method AttachNewest(src: Ip)
      requires Chain(perSource, lruHead, lruTail, order)
      requires src in perSource && src !in order
      modifies this`perSource, this`lruHead, this`lruTail, this`order
      ensures order == old(order) + [src]
      ensures Chain(perSource, lruHead, lruTail, order)
      ensures BucketsOf(perSource) == BucketsOf(old(perSource))
    {
      ghost var m := perSource;
      if order != [] {
        Neighbours(perSource, lruHead, lruTail, order, |order| - 1);
      }
      var oldTail := lruTail;
      perSource := perSource[src := perSource[src].(older := oldTail, newer := None)];
      match oldTail {
        case Some(tail) => perSource := perSource[tail := perSource[tail].(newer := Some(src))];
        case None => lruHead := Some(src);
      }
      lruTail := Some(src);
      order := order + [src];
      forall k | 0 <= k < |order| ensures LinkedAt(perSource, order, k) {
        if k < |order| - 1 {
          assert LinkedAt(m, old(order), k);
        }
      }
    }

    /** Unlink `src` and drop it from the table. */
    method Forget(src: Ip, ghost i: nat)
      requires Chain(perSource, lruHead, lruTail, order)
      requires i < |order| && order[i] == src
      modifies this`perSource, this`lruHead, this`lruTail, this`order
      ensures order == old(order[..i] + order[i + 1..])
      ensures Chain(perSource, lruHead, lruTail, order)
      ensures BucketsOf(perSource) == BucketsOf(old(perSource)) - {src}
    {
      Detach(src, i);
      assert forall k :: 0 <= k < |order| ==> order[k] == old(order)[Skip(i, k)];
      ForgetChain(perSource, lruHead, lruTail, order, src);
      ghost var m := perSource;
      perSource := perSource - {src};
      assert BucketsOf(perSource) == BucketsOf(m) - {src};
    }

    /** Track `src`, which is new, with a full bucket, as the newest source. */
    method Insert(src: Ip)
      requires Chain(perSource, lruHead, lruTail, order)
      requires src !in order && src !in perSource
      modifies this`perSource, this`lruHead, this`lruTail, this`order
      ensures order == old(order) + [src]
      ensures Chain(perSource, lruHead, lruTail, order)
      ensures BucketsOf(perSource) == BucketsOf(old(perSource))[src := FullBucket(capacity, refill)]
    {
      ghost var m := perSource;
      var entry := SourceEntry(FullBucket(capacity, refill), None, None);
      FreshChain(perSource, lruHead, lruTail, order, src, entry);
      perSource := perSource[src := entry];
      assert BucketsOf(perSource) == BucketsOf(m)[src := entry.bucket];
      AttachNewest(src);
    }

    /** Evict the least recently used source if the table is full. */
    method MakeRoom()
      requires Chain(perSource, lruHead, lruTail, order)
      modifies this`perSource, this`lruHead, this`lruTail, this`order
      ensures Chain(perSource, lruHead, lruTail, order)
      ensures View() == Evicted(old(View()))
    {
      SameKeys(perSource);
      if |perSource| >= Max(1, maxTracked) {
        match lruHead {
          case Some(oldest) => Forget(oldest, 0);
          case None =>
        }
      }
    }

    method MoveToNewest(src: Ip)
      requires Chain(perSource, lruHead, lruTail, order) && src in order
      modifies this`perSource, this`lruHead, this`lruTail, this`order
      ensures Chain(perSource, lruHead, lruTail, order)
      ensures order == Without(old(order), src) + [src]
      ensures BucketsOf(perSource) == BucketsOf(old(perSource))
    {
      ghost var i :| 0 <= i < |order| && order[i] == src;
      Neighbours(perSource, lruHead, lruTail, order, i);
      WithoutAt(order, i);
      WithoutFacts(order, src);
      SameKeys(perSource);
      Detach(src, i);
      SameKeys(perSource);
      AttachNewest(src);
    }

    /** Make `src` the most recently used source, evicting the least recently used one if a new source
        needs its place. */
    method TouchSource(src: Ip)
      requires Valid()
      modifies this`perSource, this`lruHead, this`lruTail, this`order
      ensures Valid() && src in perSource
      ensures View() == Touch(old(View()), src)
    {
      TouchKeepsTracked(View(), src);
      SameKeys(perSource);
      assert src in perSource <==> src in Elems(order);
      if src in perSource {
        MoveToNewest(src);
      } else {
        EvictedTracked(View());
        MakeRoom();
        SameKeys(perSource);
        assert src !in Elems(order);
        Insert(src);
      }
      SameKeys(perSource);
    }

    /** Take a token from the bucket of `src`. */
    method Charge(src: Ip, now: Instant) returns (ok: bool)
      requires Valid() && src in perSource
      modifies this`perSource
      ensures Valid()
      ensures View() == old(View()).(buckets := old(View()).buckets[src := Take(old(View()).buckets[src], now).0])
      ensures ok == Take(old(View()).buckets[src], now).1
    {
      var bucket;
      bucket, ok := TryTake(perSource[src].bucket, now);
      SameLinksChain(perSource, lruHead, lruTail, order, src, bucket);
      ghost var before := View();
      perSource := perSource[src := perSource[src].(bucket := bucket)];
      assert BucketsOf(perSource) == before.buckets[src := bucket];
      assert before.buckets[src := bucket].Keys == before.buckets.Keys;
    }

    /** May a packet from `src` go on to the pre-filter? */
    method Check(src: Ip, now: Instant) returns (ok: bool)
      requires Valid()
      modifies this
      ensures Valid()
      ensures View() == CheckStep(old(View()), src, now).0 && ok == CheckStep(old(View()), src, now).1
    {
      global, ok := TryTake(global, now);
      if !ok {
        return;
      }
      TouchSource(src);
      ok := Charge(src, now);
    }
  }
}
