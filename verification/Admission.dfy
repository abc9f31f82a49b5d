/** The pre-filter that decides, without decrypting anything, whether a datagram may reach the
    connection state machine: header parse, selector, freshness window, key selection. */
module Admission {
  import opened Base
  import opened ByteCodec

  /** A keyed hash with 32-byte output, left uninterpreted. */
  type KeyedHash = h: (Bytes, Bytes) -> Bytes | forall k, m :: |h(k, m)| == 32
    witness (k: Bytes, m: Bytes) => seq(32, i => 0)

  // ---------------------------------------------------------------------
  // Headers
  // ---------------------------------------------------------------------

  const LOCAL_CID_LEN := 8
  const DCID_LEN := 20

  /** The top bit of the first byte says which header form follows. */
  predicate LongForm(first: Byte) {
    first >= 0x80
  }

  /** The destination connection ID of a long-header datagram. */
  function PeekDcid(datagram: Bytes): Option<Bytes> {
    if |datagram| == 0 || !LongForm(datagram[0]) || |datagram| <= 5 then None
    else
      var n := datagram[5];
      if n == 0 || n > 20 || 6 + n > |datagram| then None else Some(datagram[6..6 + n])
  }

  /** The destination connection ID of either header form. */
  function ReadDcidAny(datagram: Bytes): Option<Bytes> {
    if |datagram| == 0 then None
    else if LongForm(datagram[0]) then PeekDcid(datagram)
    else if 1 + LOCAL_CID_LEN <= |datagram| then Some(datagram[1..1 + LOCAL_CID_LEN])
    else None
  }

  /** The layout of section 17.2 of RFC 9000: flags, four version bytes, one length byte, the ID, the rest. */
  ghost predicate LongHeader(datagram: Bytes, dcid: Bytes) {
    exists flags: Byte, version: Bytes, rest: Bytes ::
      && LongForm(flags) && |version| == 4 && 1 <= |dcid| <= 20
      && datagram == [flags] + version + [|dcid|] + dcid + rest
  }

  lemma PeekGivesLayout(datagram: Bytes, dcid: Bytes)
    requires PeekDcid(datagram) == Some(dcid)
    ensures LongHeader(datagram, dcid)
  {
    var n := datagram[5];
    var flags, version, rest := datagram[0], datagram[1..5], datagram[6 + n..];
    assert datagram[..6] == [flags] + version + [n];
    assert datagram == datagram[..6] + dcid + rest;
  }

  lemma LayoutGivesPeek(datagram: Bytes, dcid: Bytes)
    requires LongHeader(datagram, dcid)
    ensures PeekDcid(datagram) == Some(dcid)
  {
    var flags: Byte, version: Bytes, rest: Bytes :|
      && LongForm(flags) && |version| == 4 && 1 <= |dcid| <= 20
      && datagram == [flags] + version + [|dcid|] + dcid + rest;
    var head := [flags] + version + [|dcid|];
    assert |head| == 6 && head[0] == flags && head[5] == |dcid|;
    assert datagram[0] == head[0] && datagram[5] == head[5];
    assert datagram[6..6 + |dcid|] == dcid;
  }

  /** The parser accepts exactly the datagrams of that layout, and returns their ID. */
  lemma PeekIsLongHeader(datagram: Bytes, dcid: Bytes)
    ensures PeekDcid(datagram) == Some(dcid) <==> LongHeader(datagram, dcid)
  {
    if PeekDcid(datagram) == Some(dcid) { PeekGivesLayout(datagram, dcid); }
    if LongHeader(datagram, dcid) { LayoutGivesPeek(datagram, dcid); }
  }

  // ---------------------------------------------------------------------
  // The selector
  // ---------------------------------------------------------------------

  function Le32(n: U32): (b: Bytes)
    ensures |b| == 4
  {
    LittleEndian(n, 4)
  }

  lemma Pow256Four()
    ensures Pow256(4) == 0x1_0000_0000
  {
    assert Pow256(1) == 256 && Pow256(2) == 256 * 256;
    assert Pow256(3) == 256 * Pow256(2);
  }

  function FromLe32(b: Bytes): U32
    requires |b| == 4
  {
    Pow256Four();
    FromLittleEndian(b)
  }

  lemma Le32RoundTrip(n: U32)
    ensures FromLe32(Le32(n)) == n
  {
    Pow256Four();
    DecodeEncode(n, 4);
  }

  /** The four bytes of a minute, least significant first. */
  lemma Le32Value(n: U32)
    ensures var b := Le32(n); b[0] as int + 0x100 * (b[1] as int) + 0x1_0000 * (b[2] as int) + 0x100_0000 * (b[3] as int) == n
  {
    var b := Le32(n);
    assert b == [n % 256] + LittleEndian(n / 256, 3);
    assert LittleEndian(n / 256, 3) == [n / 256 % 256] + LittleEndian(n / 256 / 256, 2);
    assert LittleEndian(n / 256 / 256, 2) == [n / 256 / 256 % 256] + LittleEndian(n / 256 / 256 / 256, 1);
    assert LittleEndian(n / 256 / 256 / 256, 1) == [n / 256 / 256 / 256 % 256] + LittleEndian(n / 256 / 256 / 256 / 256, 0);
    FourDigits(n);
  }

  lemma FourDigits(n: U32)
    ensures n % 256 + 0x100 * (n / 256 % 256) + 0x1_0000 * (n / 256 / 256 % 256) + 0x100_0000 * (n / 256 / 256 / 256 % 256) == n
  {
    var a, b, c := n / 256, n / 256 / 256, n / 256 / 256 / 256;
    assert n == 256 * a + n % 256;
    assert a == 256 * b + a % 256;
    assert b == 256 * c + b % 256;
    assert c < 256;
  }

  lemma FromLe32RoundTrip(b: Bytes)
    requires |b| == 4
    ensures Le32(FromLe32(b)) == b
  {
    Pow256Four();
    EncodeDecode(b);
  }

  /** The bytes of "quietquic/v1/selector". */
  const CONTEXT: Bytes := [0x71, 0x75, 0x69, 0x65, 0x74, 0x71, 0x75, 0x69, 0x63, 0x2f, 0x76, 0x31, 0x2f,
                           0x73, 0x65, 0x6c, 0x65, 0x63, 0x74, 0x6f, 0x72]

  function SelectorInput(nonce: Bytes, freshness: U32): Bytes {
    CONTEXT + nonce + Le32(freshness)
  }

  function ComputeSelector(hash: KeyedHash, psk: Bytes, nonce: Bytes, freshness: U32): (r: Bytes)
    ensures |r| == 8
  {
    hash(psk, SelectorInput(nonce, freshness))[..8]
  }

  const CONTEXT_TEXT := "quietquic/v1/selector"

  lemma ContextIsText()
    ensures |CONTEXT| == |CONTEXT_TEXT| == 21
    ensures forall i :: 0 <= i < 21 ==> CONTEXT[i] == CONTEXT_TEXT[i] as int
  {
  }

  /** The selector is the first eight bytes of the keyed hash of 33 bytes `m`: the context string, the nonce, and the
      minute, least significant byte first. */
  lemma SelectorHashes(hash: KeyedHash, psk: Bytes, nonce: Bytes, freshness: U32) returns (m: Bytes)
    requires |nonce| == 8
    ensures |m| == 33 && ComputeSelector(hash, psk, nonce, freshness) == hash(psk, m)[..8]
    ensures forall i :: 0 <= i < 21 ==> m[i] == CONTEXT_TEXT[i] as int
    ensures m[21..29] == nonce
    ensures m[29] as int + 0x100 * (m[30] as int) + 0x1_0000 * (m[31] as int) + 0x100_0000 * (m[32] as int) == freshness
  {
    m := SelectorInput(nonce, freshness);
    ContextIsText();
    Le32Value(freshness);
    assert m[..21] == CONTEXT && m[21..29] == nonce && m[29..] == Le32(freshness);
    assert forall i :: 0 <= i < 21 ==> m[i] == m[..21][i];
    assert m[29] == m[29..][0] && m[30] == m[29..][1] && m[31] == m[29..][2] && m[32] == m[29..][3];
  }

  /** Under one key two dials hash the same input only if nonce and minute agree. */
  lemma SelectorInputsDiffer(nonce: Bytes, freshness: U32, other: Bytes, minute: U32)
    requires |nonce| == 8 && |other| == 8
    ensures SelectorInput(nonce, freshness) == SelectorInput(other, minute) <==> nonce == other && freshness == minute
  {
    var x, y := SelectorInput(nonce, freshness), SelectorInput(other, minute);
    if x == y {
      assert x[21..29] == nonce && y[21..29] == other;
      assert x[29..] == Le32(freshness) && y[29..] == Le32(minute);
      Le32RoundTrip(freshness);
      Le32RoundTrip(minute);
    }
  }

  datatype DcidParts = DcidParts(nonce: Bytes, freshness: U32, selector: Bytes)

  ghost predicate PartsOk(p: DcidParts) {
    |p.nonce| == 8 && |p.selector| == 8
  }

  /** The wire form of a selector ID. */
  function Assemble(p: DcidParts): Bytes {
    p.nonce + Le32(p.freshness) + p.selector
  }

  function ParseDcid(dcid: Bytes): Option<DcidParts> {
    if |dcid| != DCID_LEN then None
    else Some(DcidParts(dcid[..8], FromLe32(dcid[8..12]), dcid[12..20]))
  }

  /** Parsing and assembling are inverse: the 20-byte IDs are exactly the assembled ones. */
  lemma ParseAssemble(dcid: Bytes, p: DcidParts)
    ensures ParseDcid(dcid) == Some(p) <==> PartsOk(p) && dcid == Assemble(p)
  {
    if ParseDcid(dcid) == Some(p) {
      FromLe32RoundTrip(dcid[8..12]);
      assert dcid == dcid[..8] + dcid[8..12] + dcid[12..20];
    }
    if PartsOk(p) && dcid == Assemble(p) {
      Le32RoundTrip(p.freshness);
      assert dcid[..8] == p.nonce && dcid[8..12] == Le32(p.freshness) && dcid[12..20] == p.selector;
    }
  }

  function DialParts(hash: KeyedHash, psk: Bytes, nonce: Bytes, freshness: U32): DcidParts {
    DcidParts(nonce, freshness, ComputeSelector(hash, psk, nonce, freshness))
  }

  /** The ID a client dials with, filled slice by slice. */
  method BuildDcid(hash: KeyedHash, psk: Bytes, nonce: Bytes, freshness: U32) returns (dcid: array<Byte>)
    requires |nonce| == 8
    ensures fresh(dcid) && dcid[..] == Assemble(DialParts(hash, psk, nonce, freshness))
  {
    var selector := ComputeSelector(hash, psk, nonce, freshness);
    var le := Le32(freshness);
    dcid := new Byte[20](i => 0);
    forall i | 0 <= i < 8 { dcid[i] := nonce[i]; }
    forall i | 8 <= i < 12 { dcid[i] := le[i - 8]; }
    forall i | 12 <= i < 20 { dcid[i] := selector[i - 12]; }
  }

  /** The accumulated difference of the first `n` byte pairs. */
  function Diff(a: Bytes, b: Bytes, n: nat): Byte
    requires n <= |a| && n <= |b|
  {
    if n == 0 then 0 else Or(Diff(a, b, n - 1), Xor(a[n - 1], b[n - 1]))
  }

  lemma {:induction false} DiffZero(a: Bytes, b: Bytes, n: nat)
    requires n <= |a| && n <= |b|
    ensures Diff(a, b, n) == 0 <==> a[..n] == b[..n]
  {
    if n == 0 {
    } else {
      DiffZero(a, b, n - 1);
      OrZero(Diff(a, b, n - 1), Xor(a[n - 1], b[n - 1]));
      XorZero(a[n - 1], b[n - 1]);
      assert a[..n] == a[..n - 1] + [a[n - 1]] && b[..n] == b[..n - 1] + [b[n - 1]];
    }
  }

  predicate SelectorMatches(hash: KeyedHash, psk: Bytes, p: DcidParts)
    requires |p.selector| == 8
  {
    Diff(ComputeSelector(hash, psk, p.nonce, p.freshness), p.selector, 8) == 0
  }

  /** The constant-time comparison accepts exactly the recomputed selector. */
  lemma SelectorMatchesExactly(hash: KeyedHash, psk: Bytes, p: DcidParts)
    requires |p.selector| == 8
    ensures SelectorMatches(hash, psk, p) <==> p.selector == ComputeSelector(hash, psk, p.nonce, p.freshness)
  {
    var s := ComputeSelector(hash, psk, p.nonce, p.freshness);
    DiffZero(s, p.selector, 8);
    assert s[..8] == s && p.selector[..8] == p.selector;
  }

  // ---------------------------------------------------------------------
  // Freshness
  // ---------------------------------------------------------------------

  const WINDOW_MINUTES: U32 := 2

  predicate IsFresh(freshness: U32, now: U32, window: U32) {
    SatSub(now, window) <= freshness <= SatAdd(now, window)
  }

  /** Saturation never shuts out a minute within the window: the test is the distance. */
  lemma FreshIsDistance(freshness: U32, now: U32, window: U32)
    ensures IsFresh(freshness, now, window) <==> now - window <= freshness <= now + window
  {
  }

  // ---------------------------------------------------------------------
  // Clients
  // ---------------------------------------------------------------------

  datatype ClientEntry = ClientEntry(clientId: string, psk: Bytes)

  /** The least index from `i` on whose key matches. */
  function SelectFrom(hash: KeyedHash, clients: seq<ClientEntry>, p: DcidParts, i: nat): (r: Option<nat>)
    requires |p.selector| == 8 && i <= |clients|
    ensures r.Some? ==> i <= r.value < |clients| && SelectorMatches(hash, clients[r.value].psk, p)
    ensures forall k :: i <= k < (if r.Some? then r.value else |clients|) ==> !SelectorMatches(hash, clients[k].psk, p)
    decreases |clients| - i
  {
    if i == |clients| then None
    else if SelectorMatches(hash, clients[i].psk, p) then Some(i)
    else SelectFrom(hash, clients, p, i + 1)
  }

  function SelectPsk(hash: KeyedHash, clients: seq<ClientEntry>, p: DcidParts): Option<nat>
    requires |p.selector| == 8
  {
    SelectFrom(hash, clients, p, 0)
  }

  datatype ConfigError = EmptyClientId | DuplicateClientId(id: string) | DuplicatePsk(id: string)

  datatype Result<+T, +E> = Ok(value: T) | Err(error: E)

  /** The `White_Space` property of Unicode, which trimming uses. */
  predicate IsWhitespace(c: char) {
    var n := c as int;
    || 0x9 <= n <= 0xD || n == 0x20 || n == 0x85 || n == 0xA0 || n == 0x1680
    || 0x2000 <= n <= 0x200A || n == 0x2028 || n == 0x2029 || n == 0x202F || n == 0x205F || n == 0x3000
  }

  predicate Blank(s: string) {
    forall i :: 0 <= i < |s| ==> IsWhitespace(s[i])
  }

  /** What is wrong with entry `k`, given the entries before it. */
  function Fault(entries: seq<ClientEntry>, k: nat): Option<ConfigError>
    requires k < |entries|
  {
    var e := entries[k];
    if Blank(e.clientId) then Some(EmptyClientId)
    else if exists j :: 0 <= j < k && entries[j].clientId == e.clientId then Some(DuplicateClientId(e.clientId))
    else if exists j :: 0 <= j < k && entries[j].psk == e.psk then Some(DuplicatePsk(e.clientId))
    else None
  }

  /** Identities are unambiguous: no blank name, no name and no key twice. */
  ghost predicate Unambiguous(entries: seq<ClientEntry>) {
    && (forall k :: 0 <= k < |entries| ==> !Blank(entries[k].clientId))
    && (forall j, k :: 0 <= j < k < |entries| ==> entries[j].clientId != entries[k].clientId)
    && (forall j, k :: 0 <= j < k < |entries| ==> entries[j].psk != entries[k].psk)
  }

  /** The entries are accepted exactly when they are unambiguous; otherwise the first fault is reported. */
  method BuildClients(entries: seq<ClientEntry>) returns (r: Result<seq<ClientEntry>, ConfigError>)
    ensures r.Ok? <==> Unambiguous(entries)
    ensures r.Ok? ==> r.value == entries
    ensures r.Err? ==> exists k :: 0 <= k < |entries| && Fault(entries, k) == Some(r.error)
                                   && forall j :: 0 <= j < k ==> Fault(entries, j) == None
  {
    var ids, psks := {}, {};
    for k := 0 to |entries|
      invariant ids == set j | 0 <= j < k :: entries[j].clientId
      invariant psks == set j | 0 <= j < k :: entries[j].psk
      invariant forall j :: 0 <= j < k ==> Fault(entries, j) == None
      invariant Unambiguous(entries[..k])
    {
      var e := entries[k];
      assert entries[..k + 1] == entries[..k] + [e];
      if Blank(e.clientId) {
        assert Fault(entries, k) == Some(EmptyClientId);
        return Err(EmptyClientId);
      }
      if e.clientId in ids {
        ghost var j :| 0 <= j < k && entries[j].clientId == e.clientId;
        assert Fault(entries, k) == Some(DuplicateClientId(e.clientId));
        return Err(DuplicateClientId(e.clientId));
      }
      ids := ids + {e.clientId};
      if e.psk in psks {
        ghost var j :| 0 <= j < k && entries[j].psk == e.psk;
        assert Fault(entries, k) == Some(DuplicatePsk(e.clientId));
        return Err(DuplicatePsk(e.clientId));
      }
      psks := psks + {e.psk};
    }
    assert entries[..|entries|] == entries;
    r := Ok(entries);
  }
}
