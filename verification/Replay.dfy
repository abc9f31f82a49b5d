/** The anti-replay guard, which forgets expired entries, and the pre-filter that consults it. */
module Replay {
  import opened Base
  import opened ByteCodec
  import opened Admission

  type Entry = (Bytes, U32)
  type Seen = set<Entry>

  /** Drop what is older than the window around `now`. */
  function Retained(seen: Seen, window: U32, now: U32): Seen {
    set e | e in seen && e.1 >= SatSub(now, window)
  }

  class ReplayGuard {
    const window: U32
    var seen: Seen

    constructor (window: U32)
      ensures this.window == window && seen == {}
    {
      this.window := window;
      seen := {};
    }

    /** Is the pair new? Expired entries go first, then the pair is recorded. */
    method CheckAndRecord(nonce: Bytes, freshness: U32, now: U32) returns (isNew: bool)
      modifies this
      ensures isNew == ((nonce, freshness) !in Retained(old(seen), window, now))
      ensures seen == Retained(old(seen), window, now) + {(nonce, freshness)}
    {
      var cutoff := SatSub(now, window);
      seen := set e | e in seen && e.1 >= cutoff;
      isNew := (nonce, freshness) !in seen;
      seen := seen + {(nonce, freshness)};
    }
  }

  // ---------------------------------------------------------------------
  // The pruning guard against one that never forgets
  // ---------------------------------------------------------------------

  /** One datagram that selected this guard, and the wall-clock minute at which it came. */
  datatype Attempt = Attempt(nonce: Bytes, freshness: U32, minute: U32)

  function Key(a: Attempt): Entry {
    (a.nonce, a.freshness)
  }

  predicate Fresh(a: Attempt, window: U32) {
    IsFresh(a.freshness, a.minute, window)
  }

  /** The guard after `log`: stale attempts do not reach it. */
  function GuardAfter(seen: Seen, window: U32, log: seq<Attempt>): Seen {
    if log == [] then seen
    else
      var n := |log| - 1;
      var before := GuardAfter(seen, window, log[..n]);
      if Fresh(log[n], window) then Retained(before, window, log[n].minute) + {Key(log[n])} else before
  }

  /** Does attempt `k` pass the freshness check and the pruning guard? */
  predicate Passes(window: U32, log: seq<Attempt>, k: nat)
    requires k < |log|
  {
    Fresh(log[k], window) && Key(log[k]) !in Retained(GuardAfter({}, window, log[..k]), window, log[k].minute)
  }

  /** Would attempt `k` pass a guard that remembers every fresh attempt for ever? */
  predicate PassesUnbounded(window: U32, log: seq<Attempt>, k: nat)
    requires k < |log|
  {
    Fresh(log[k], window) && forall j :: 0 <= j < k && Fresh(log[j], window) ==> Key(log[j]) != Key(log[k])
  }

  // ---------------------------------------------------------------------
  // What the guard remembers, whatever the clock does
  // ---------------------------------------------------------------------

  /** Does attempt `m` make the guard forget `e`? */
  predicate Drops(window: U32, log: seq<Attempt>, e: Entry, m: nat)
    requires m < |log|
  {
    Fresh(log[m], window) && e.1 < SatSub(log[m].minute, window)
  }

  /** Attempt `j` recorded its pair, and nothing before attempt `n` made the guard forget it. */
  ghost predicate Survives(window: U32, log: seq<Attempt>, j: nat, n: nat)
    requires j < n <= |log|
  {
    Fresh(log[j], window) && forall m :: j < m < n ==> !Drops(window, log, Key(log[j]), m)
  }

  ghost predicate Holds(window: U32, log: seq<Attempt>, n: nat, e: Entry)
    requires n <= |log|
  {
    exists j :: 0 <= j < n && Key(log[j]) == e && Survives(window, log, j, n)
  }

  lemma GuardStep(window: U32, log: seq<Attempt>, n: nat, e: Entry)
    requires 0 < n <= |log|
    ensures e in GuardAfter({}, window, log[..n]) <==>
              (Fresh(log[n - 1], window) && Key(log[n - 1]) == e)
              || (e in GuardAfter({}, window, log[..n - 1]) && !Drops(window, log, e, n - 1))
  {
    assert log[..n][..n - 1] == log[..n - 1];
  }

  lemma HoldsStep(window: U32, log: seq<Attempt>, n: nat, e: Entry)
    requires 0 < n <= |log|
    ensures Holds(window, log, n, e) <==>
              (Fresh(log[n - 1], window) && Key(log[n - 1]) == e)
              || (Holds(window, log, n - 1, e) && !Drops(window, log, e, n - 1))
  {
    forall j | 0 <= j < n - 1 && Key(log[j]) == e
      ensures Survives(window, log, j, n) <==> Survives(window, log, j, n - 1) && !Drops(window, log, e, n - 1)
    {
    }
    if Fresh(log[n - 1], window) && Key(log[n - 1]) == e {
      assert Survives(window, log, n - 1, n);
    }
  }

  /** After the first `n` attempts the guard holds exactly the pairs that were recorded and not forgotten
      since, in any order of minutes. */
  lemma {:induction false} GuardHolds(window: U32, log: seq<Attempt>, n: nat, e: Entry)
    requires n <= |log|
    ensures e in GuardAfter({}, window, log[..n]) <==> Holds(window, log, n, e)
  {
    if n == 0 {
      assert log[..0] == [];
    } else {
      GuardHolds(window, log, n - 1, e);
      GuardStep(window, log, n, e);
      HoldsStep(window, log, n, e);
    }
  }

  /** An attempt passes exactly if it is fresh and every earlier fresh attempt with its pair was forgotten. */
  lemma PassesIff(window: U32, log: seq<Attempt>, k: nat)
    requires k < |log|
    ensures Passes(window, log, k) <==> Fresh(log[k], window) && !Holds(window, log, k, Key(log[k]))
  {
    GuardHolds(window, log, k, Key(log[k]));
  }

  // ---------------------------------------------------------------------
  // When forgetting shows
  // ---------------------------------------------------------------------

  /** A pair is recorded at `j`, forgotten at `m` and back at `k`. */
  predicate ComesBack(window: U32, log: seq<Attempt>, j: nat, m: nat, k: nat)
    requires j < m < k < |log|
  {
    && Fresh(log[j], window) && Fresh(log[m], window) && Fresh(log[k], window)
    && Key(log[j]) == Key(log[k])
    && log[j].freshness < SatSub(log[m].minute, window)
  }

  ghost predicate SomeComesBack(window: U32, log: seq<Attempt>) {
    exists j, m, k :: 0 <= j < m < k < |log| && ComesBack(window, log, j, m, k)
  }

  ghost predicate Agrees(window: U32, log: seq<Attempt>, k: nat)
    requires k < |log|
  {
    Passes(window, log, k) == PassesUnbounded(window, log, k)
  }

  /** A pair that a fresh attempt used before index `n`. */
  predicate Used(window: U32, log: seq<Attempt>, e: Entry, n: nat)
    requires n <= |log|
  {
    exists j :: 0 <= j < n && Fresh(log[j], window) && Key(log[j]) == e
  }

  /** The last fresh attempt before `n` with the pair `e`. */
  lemma {:induction false} LastUse(window: U32, log: seq<Attempt>, e: Entry, n: nat) returns (j: nat)
    requires n <= |log| && Used(window, log, e, n)
    ensures j < n && Fresh(log[j], window) && Key(log[j]) == e
    ensures forall i :: j < i < n && Fresh(log[i], window) ==> Key(log[i]) != e
  {
    if Fresh(log[n - 1], window) && Key(log[n - 1]) == e {
      j := n - 1;
    } else {
      j := LastUse(window, log, e, n - 1);
    }
  }

  /** The first fresh attempt with the pair `e` in `from..n`, if one is known at `n`. */
  lemma {:induction false} FirstUse(window: U32, log: seq<Attempt>, e: Entry, from: nat, n: nat) returns (k: nat)
    requires from <= n < |log| && Fresh(log[n], window) && Key(log[n]) == e
    ensures from <= k <= n && Fresh(log[k], window) && Key(log[k]) == e
    ensures forall i :: from <= i < k && Fresh(log[i], window) ==> Key(log[i]) != e
    decreases n - from
  {
    if Fresh(log[from], window) && Key(log[from]) == e {
      k := from;
    } else {
      k := FirstUse(window, log, e, from + 1, n);
    }
  }

  /** Where the verdicts differ, a forgotten pair came back. */
  lemma AgreesOrComesBack(window: U32, log: seq<Attempt>, k: nat)
    requires k < |log|
    ensures Agrees(window, log, k) || SomeComesBack(window, log)
  {
    var e := Key(log[k]);
    PassesIff(window, log, k);
    if Fresh(log[k], window) && Used(window, log, e, k) && !Holds(window, log, k, e) {
      var j := LastUse(window, log, e, k);
      assert !Survives(window, log, j, k);
      var m :| j < m < k && Drops(window, log, e, m);
      assert ComesBack(window, log, j, m, k);
    }
  }

  /** A pair that comes back passes again, the first time it does. */
  lemma ComingBackPasses(window: U32, log: seq<Attempt>, j: nat, m: nat, k: nat) returns (i: nat)
    requires j < m < k < |log| && ComesBack(window, log, j, m, k)
    ensures m < i <= k && Key(log[i]) == Key(log[k]) && Passes(window, log, i) && !PassesUnbounded(window, log, i)
  {
    var e := Key(log[k]);
    i := FirstUse(window, log, e, m + 1, k);
    assert Drops(window, log, e, m);
    forall l | 0 <= l < i && Key(log[l]) == e ensures !Survives(window, log, l, i) {
      assert l != m;
    }
    PassesIff(window, log, i);
  }

  /** For every log, whatever the clock does: all verdicts are those of a guard that never forgets if and only
      if no pair is recorded, forgotten by a later fresh attempt, and tried again while fresh. */
  lemma PruningIsExact(window: U32, log: seq<Attempt>)
    ensures (forall k :: 0 <= k < |log| ==> Agrees(window, log, k)) <==> !SomeComesBack(window, log)
  {
    forall k | 0 <= k < |log| ensures Agrees(window, log, k) || SomeComesBack(window, log) {
      AgreesOrComesBack(window, log, k);
    }
    if j, m, k :| 0 <= j < m < k < |log| && ComesBack(window, log, j, m, k) {
      var i := ComingBackPasses(window, log, j, m, k);
      assert !Agrees(window, log, i);
    }
  }

  /** Two attempts with one pair, both admitted. */
  ghost predicate AdmittedTwice(window: U32, log: seq<Attempt>) {
    exists i, k :: 0 <= i < k < |log| && Passes(window, log, i) && Passes(window, log, k) && Key(log[i]) == Key(log[k])
  }

  /** The first use of a pair passes. */
  lemma FirstUsePasses(window: U32, log: seq<Attempt>, k: nat) returns (i: nat)
    requires k < |log| && Fresh(log[k], window)
    ensures i <= k && Key(log[i]) == Key(log[k]) && Passes(window, log, i)
  {
    i := FirstUse(window, log, Key(log[k]), 0, k);
    PassesIff(window, log, i);
  }

  /** A pair is admitted at most once if and only if none comes back. */
  lemma OnceIsExact(window: U32, log: seq<Attempt>)
    ensures !AdmittedTwice(window, log) <==> !SomeComesBack(window, log)
  {
    PruningIsExact(window, log);
    if i, k :| 0 <= i < k < |log| && Passes(window, log, i) && Passes(window, log, k) && Key(log[i]) == Key(log[k]) {
      assert !Agrees(window, log, k);
    }
    if j, m, k :| 0 <= j < m < k < |log| && ComesBack(window, log, j, m, k) {
      var i := FirstUsePasses(window, log, j);
      var l := ComingBackPasses(window, log, j, m, k);
      assert i < l && Key(log[i]) == Key(log[l]);
    }
  }

  // ---------------------------------------------------------------------
  // A clock that does not go back
  // ---------------------------------------------------------------------

  predicate Monotone(log: seq<Attempt>) {
    forall i, j :: 0 <= i <= j < |log| ==> log[i].minute <= log[j].minute
  }

  /** If the minute never goes back nothing comes back. */
  lemma MonotoneNeverComesBack(window: U32, log: seq<Attempt>)
    requires Monotone(log)
    ensures !SomeComesBack(window, log)
  {
    forall j, m, k | 0 <= j < m < k < |log| ensures !ComesBack(window, log, j, m, k) {
      assert log[m].minute <= log[k].minute;
    }
  }

  /** While the minute never goes back, forgetting changes no verdict. */
  lemma PruningRefinesUnbounded(window: U32, log: seq<Attempt>, k: nat)
    requires k < |log| && Monotone(log)
    ensures Passes(window, log, k) == PassesUnbounded(window, log, k)
  {
    MonotoneNeverComesBack(window, log);
    PruningIsExact(window, log);
    assert Agrees(window, log, k);
  }

  /** While the minute never goes back, a pair is admitted at most once. */
  lemma AdmittedOnce(window: U32, log: seq<Attempt>, i: nat, k: nat)
    requires i < k < |log| && Monotone(log)
    requires Passes(window, log, i) && Passes(window, log, k)
    ensures Key(log[i]) != Key(log[k])
  {
    MonotoneNeverComesBack(window, log);
    OnceIsExact(window, log);
  }

  // ---------------------------------------------------------------------
  // How much is retained
  // ---------------------------------------------------------------------

  ghost predicate IsLatest(window: U32, log: seq<Attempt>, latest: nat) {
    && latest < |log| && Fresh(log[latest], window)
    && forall j :: latest < j < |log| ==> !Fresh(log[j], window)
  }

  /** Whatever the clock does, nothing retained is older than the window before the latest fresh attempt; and
      everything retained is within the window around it if and only if no surviving attempt lies ahead. */
  lemma RetentionIsExact(window: U32, log: seq<Attempt>, latest: nat)
    requires IsLatest(window, log, latest)
    ensures forall e :: e in GuardAfter({}, window, log) ==> SatSub(log[latest].minute, window) <= e.1
    ensures (forall e :: e in GuardAfter({}, window, log) ==> IsFresh(e.1, log[latest].minute, window)) <==>
            (forall j :: 0 <= j <= latest && Survives(window, log, j, |log|) ==> log[j].freshness <= SatAdd(log[latest].minute, window))
  {
    assert log[..|log|] == log;
    forall e | e in GuardAfter({}, window, log)
      ensures SatSub(log[latest].minute, window) <= e.1
      ensures exists j :: 0 <= j <= latest && Survives(window, log, j, |log|) && Key(log[j]) == e
    {
      GuardHolds(window, log, |log|, e);
      var j :| 0 <= j < |log| && Key(log[j]) == e && Survives(window, log, j, |log|);
      assert j < latest ==> !Drops(window, log, e, latest);
    }
    forall j | 0 <= j <= latest && Survives(window, log, j, |log|) ensures Key(log[j]) in GuardAfter({}, window, log) {
      GuardHolds(window, log, |log|, Key(log[j]));
    }
  }

  /** While the minute never goes back, everything retained is within the window around the latest one. */
  lemma RetainedInWindow(window: U32, log: seq<Attempt>, latest: nat)
    requires Monotone(log) && IsLatest(window, log, latest)
    ensures forall e :: e in GuardAfter({}, window, log) ==> IsFresh(e.1, log[latest].minute, window)
  {
    RetentionIsExact(window, log, latest);
    forall j | 0 <= j <= latest && Survives(window, log, j, |log|) ensures log[j].freshness <= SatAdd(log[latest].minute, window) {
      assert log[j].minute <= log[latest].minute;
    }
  }

  /** Such logs exist: if the minute goes back, a forgotten pair is admitted again. */
  lemma ClockBackAdmitsTwice(n: Bytes, m: Bytes)
    requires n != m
    ensures var log := [Attempt(n, 100, 100), Attempt(m, 103, 103), Attempt(n, 100, 102)];
            Passes(WINDOW_MINUTES, log, 0) && Passes(WINDOW_MINUTES, log, 2)
  {
    var log := [Attempt(n, 100, 100), Attempt(m, 103, 103), Attempt(n, 100, 102)];
    assert log[..2][..1] == [Attempt(n, 100, 100)] && log[..1][..0] == [];
    assert GuardAfter({}, WINDOW_MINUTES, log[..1]) == {(n, 100)};
    assert GuardAfter({}, WINDOW_MINUTES, log[..2]) == {(m, 103)};
  }

  // ---------------------------------------------------------------------
  // The whole pre-filter
  // ---------------------------------------------------------------------

  /** The guards after the pre-filter has seen `data`, and the client it admits. One guard per client. */
  function Prefilter(hash: KeyedHash, clients: seq<ClientEntry>, guards: seq<Seen>, data: Bytes, minute: U32): (r: (seq<Seen>, Option<nat>))
    requires |guards| == |clients|
    ensures |r.0| == |guards|
    ensures r.1.Some? ==> r.1.value < |clients|
  {
    var dcid := PeekDcid(data);
    if dcid == None then (guards, None)
    else
      var p := ParseDcid(dcid.value);
      if p == None then (guards, None)
      else if !IsFresh(p.value.freshness, minute, WINDOW_MINUTES) then (guards, None)
      else
        var i := SelectPsk(hash, clients, p.value);
        if i == None then (guards, None)
        else
          var e := (p.value.nonce, p.value.freshness);
          var kept := Retained(guards[i.value], WINDOW_MINUTES, minute);
          (guards[i.value := kept + {e}], if e in kept then None else i)
  }

  /** `data` is a long header whose ID is the dial of client `i`, no earlier client's key matches it,
      its minute is within the window, and guard `i` does not know the pair. */
  ghost predicate AdmissibleAs(hash: KeyedHash, clients: seq<ClientEntry>, guards: seq<Seen>, data: Bytes, minute: U32, i: nat)
    requires |guards| == |clients|
  {
    && i < |clients|
    && exists nonce: Bytes, f: U32 ::
         && |nonce| == 8
         && LongHeader(data, Assemble(DialParts(hash, clients[i].psk, nonce, f)))
         && minute - WINDOW_MINUTES <= f <= minute + WINDOW_MINUTES
         && (nonce, f) !in guards[i]
         && forall j :: 0 <= j < i ==> DialParts(hash, clients[j].psk, nonce, f) != DialParts(hash, clients[i].psk, nonce, f)
  }

  lemma AdmittedIsAdmissible(hash: KeyedHash, clients: seq<ClientEntry>, guards: seq<Seen>, data: Bytes, minute: U32, i: nat)
    requires |guards| == |clients| && Prefilter(hash, clients, guards, data, minute).1 == Some(i)
    ensures AdmissibleAs(hash, clients, guards, data, minute, i)
  {
    var dcid := PeekDcid(data).value;
    var p := ParseDcid(dcid).value;
    PeekIsLongHeader(data, dcid);
    ParseAssemble(dcid, p);
    FreshIsDistance(p.freshness, minute, WINDOW_MINUTES);
    forall j | 0 <= j <= i
      ensures SelectorMatches(hash, clients[j].psk, p) <==> p == DialParts(hash, clients[j].psk, p.nonce, p.freshness)
    {
      SelectorMatchesExactly(hash, clients[j].psk, p);
    }
  }

  lemma DialIsAdmitted(hash: KeyedHash, clients: seq<ClientEntry>, guards: seq<Seen>, data: Bytes, minute: U32, i: nat, nonce: Bytes, f: U32)
    requires |guards| == |clients| && i < |clients| && |nonce| == 8
    requires LongHeader(data, Assemble(DialParts(hash, clients[i].psk, nonce, f)))
    requires minute - WINDOW_MINUTES <= f <= minute + WINDOW_MINUTES
    requires (nonce, f) !in guards[i]
    requires forall j :: 0 <= j < i ==> DialParts(hash, clients[j].psk, nonce, f) != DialParts(hash, clients[i].psk, nonce, f)
    ensures Prefilter(hash, clients, guards, data, minute).1 == Some(i)
  {
    var p := DialParts(hash, clients[i].psk, nonce, f);
    PeekIsLongHeader(data, Assemble(p));
    ParseAssemble(Assemble(p), p);
    FreshIsDistance(f, minute, WINDOW_MINUTES);
    forall j | 0 <= j <= i
      ensures SelectorMatches(hash, clients[j].psk, p) <==> p == DialParts(hash, clients[j].psk, nonce, f)
    {
      SelectorMatchesExactly(hash, clients[j].psk, p);
    }
  }

  /** The pre-filter admits as client `i` exactly the admissible datagrams. */
  lemma ExactAdmission(hash: KeyedHash, clients: seq<ClientEntry>, guards: seq<Seen>, data: Bytes, minute: U32, i: nat)
    requires |guards| == |clients|
    ensures Prefilter(hash, clients, guards, data, minute).1 == Some(i) <==> AdmissibleAs(hash, clients, guards, data, minute, i)
  {
    if Prefilter(hash, clients, guards, data, minute).1 == Some(i) {
      AdmittedIsAdmissible(hash, clients, guards, data, minute, i);
    }
    if AdmissibleAs(hash, clients, guards, data, minute, i) {
      var nonce: Bytes, f: U32 :|
        && |nonce| == 8
        && LongHeader(data, Assemble(DialParts(hash, clients[i].psk, nonce, f)))
        && minute - WINDOW_MINUTES <= f <= minute + WINDOW_MINUTES
        && (nonce, f) !in guards[i]
        && forall j :: 0 <= j < i ==> DialParts(hash, clients[j].psk, nonce, f) != DialParts(hash, clients[i].psk, nonce, f);
      DialIsAdmitted(hash, clients, guards, data, minute, i, nonce, f);
    }
  }
}
