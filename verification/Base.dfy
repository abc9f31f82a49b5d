/** Vocabulary shared by every component of the model. */
module Base {

  datatype Option<+T> = None | Some(value: T)

  /** A monotonic instant, in seconds. */
  type Instant = real

  /** Rust's `u32`. */
  type U32 = n: int | 0 <= n < 0x1_0000_0000

  function SatSub(a: U32, b: U32): U32 {
    if a < b then 0 else a - b
  }

  function SatAdd(a: U32, b: U32): U32 {
    if a + b < 0x1_0000_0000 then a + b else 0xFFFF_FFFF
  }

  function Max(a: int, b: int): int {
    if a < b then b else a
  }

  function Min(a: int, b: int): int {
    if a < b then a else b
  }

  /** No element occurs twice. */
  predicate NoDup<T(==)>(s: seq<T>) {
    forall i, j :: 0 <= i < j < |s| ==> s[i] != s[j]
  }

  function Elems<T>(s: seq<T>): set<T> {
    set x | x in s
  }

  lemma EmptyElems<T>(s: seq<T>)
    ensures Elems(s) == {} <==> s == []
  {
    if s != [] {
      assert s[0] in Elems(s);
    }
  }

  /** `s` with the first occurrence of `x` taken out. */
  function Without<T(==)>(s: seq<T>, x: T): seq<T> {
    if s == [] then [] else if s[0] == x then s[1..] else [s[0]] + Without(s[1..], x)
  }

  lemma {:induction false} WithoutAt<T>(s: seq<T>, i: nat)
    requires NoDup(s) && i < |s|
    ensures Without(s, s[i]) == s[..i] + s[i + 1..]
  {
    if i == 0 {
    } else {
      assert s[0] != s[i];
      WithoutAt(s[1..], i - 1);
      assert s[1..][..i - 1] == s[1..i];
      assert s[1..][i..] == s[i + 1..];
      assert [s[0]] + s[1..i] == s[..i];
    }
  }

  /** The index in `s` of what stands at `j` once index `i` is taken out. */
  function Skip(i: nat, j: nat): nat {
    if j < i then j else j + 1
  }

  lemma WithoutIndex<T>(s: seq<T>, i: nat)
    requires NoDup(s) && i < |s|
    ensures |Without(s, s[i])| == |s| - 1
    ensures forall j :: 0 <= j < |s| - 1 ==> Without(s, s[i])[j] == s[Skip(i, j)]
  {
    WithoutAt(s, i);
  }

  lemma {:induction false} WithoutFacts<T>(s: seq<T>, x: T)
    requires NoDup(s)
    ensures NoDup(Without(s, x)) && x !in Without(s, x)
    ensures Elems(Without(s, x)) == Elems(s) - {x}
    ensures x in s ==> |Without(s, x)| == |s| - 1
    ensures x !in s ==> Without(s, x) == s
  {
    if s == [] {
    } else {
      assert s == [s[0]] + s[1..];
      assert Elems(s) == {s[0]} + Elems(s[1..]);
      if s[0] != x {
        WithoutFacts(s[1..], x);
        assert Elems(Without(s, x)) == {s[0]} + Elems(Without(s[1..], x));
        assert s[0] !in s[1..];
        forall y | y in Without(s[1..], x) ensures y in s[1..] {
          assert y in Elems(Without(s[1..], x));
        }
      }
    }
  }

  lemma PushFacts<T>(s: seq<T>, x: T)
    requires NoDup(s) && x !in s
    ensures NoDup(s + [x]) && Elems(s + [x]) == Elems(s) + {x}
  {
  }

  lemma TailFacts<T>(s: seq<T>)
    requires NoDup(s) && s != []
    ensures NoDup(s[1..]) && s[0] !in s[1..] && Elems(s[1..]) == Elems(s) - {s[0]}
  {
    assert s == [s[0]] + s[1..];
  }

  lemma {:induction false} ElemsSize<T>(s: seq<T>)
    requires NoDup(s)
    ensures |Elems(s)| == |s|
  {
    if s == [] {
    } else {
      ElemsSize(s[1..]);
      assert Elems(s) == {s[0]} + Elems(s[1..]);
      assert s[0] !in Elems(s[1..]);
    }
  }

  lemma SubsetSize<T>(a: set<T>, b: set<T>)
    requires a <= b
    ensures |a| <= |b|
  {
    assert b == a + (b - a);
  }
}
