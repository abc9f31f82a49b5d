/** Initial packets end to end: nonces, the two sides' keys, sealing in place, and the whole round trip, over an
    uninterpreted key schedule and cipher. */
module InitialPackets {
  import opened Base
  import opened ByteCodec
  import opened InitialKeys

  // ---------------------------------------------------------------------
  // Nonces (section 5.3 of RFC 9001)
  // ---------------------------------------------------------------------

  const IV_LEN := 12
  const TAG_LEN := 16

  type Iv = b: Bytes | |b| == 12 witness seq(12, i => 0)

  type U64 = n: int | 0 <= n < 0x1_0000_0000_0000_0000

  lemma Pow256Eight()
    ensures Pow256(8) == 0x1_0000_0000_0000_0000
  {
    assert Pow256(2) == 65536;
    assert Pow256(4) == 65536 * Pow256(2);
    assert Pow256(6) == 65536 * Pow256(4);
  }

  /** The IV with the packet number, in network order, mixed into its last eight bytes. */
  function NonceOf(iv: Iv, number: U64): (r: Bytes)
    ensures |r| == IV_LEN
  {
    iv[..4] + seq(8, j requires 0 <= j < 8 => Xor(iv[4 + j], BigEndian(number, 8)[j]))
  }

  method Nonce(iv: Iv, number: U64) returns (nonce: array<Byte>)
    ensures fresh(nonce) && nonce[..] == NonceOf(iv, number)
  {
    var be := BigEndian(number, 8);
    nonce := new Byte[12](i requires 0 <= i < 12 => iv[i]);
    for j := 0 to 8
      invariant forall i :: 0 <= i < 12 ==> nonce[i] == if 4 <= i < 4 + j then Xor(iv[i], be[i - 4]) else iv[i]
    {
      nonce[4 + j] := Xor(nonce[4 + j], be[j]);
    }
    assert nonce[..4] == iv[..4];
    assert nonce[4..] == seq(8, j requires 0 <= j < 8 => Xor(iv[4 + j], be[j]));
    assert nonce[..] == nonce[..4] + nonce[4..];
  }

  /** The nonce: the first four bytes of the IV, then its other eight xored with the eight bytes `be` whose place
      value, most significant byte first, is the packet number. */
  lemma NonceIs(iv: Iv, number: U64) returns (be: Bytes)
    ensures |be| == 8 && PlaceValue(be) == number
    ensures forall i :: 0 <= i < 12 ==> NonceOf(iv, number)[i] == if i < 4 then iv[i] else Xor(iv[i], be[i - 4])
  {
    be := BigEndian(number, 8);
    Pow256Eight();
    BigEndianValue(number, 8);
  }

  /** Under one key no two packet numbers share a nonce. */
  lemma NoncesDistinct(iv: Iv, a: U64, b: U64)
    ensures NonceOf(iv, a) == NonceOf(iv, b) <==> a == b
  {
    if NonceOf(iv, a) == NonceOf(iv, b) {
      forall j | 0 <= j < 8 ensures BigEndian(a, 8)[j] == BigEndian(b, 8)[j] {
        assert NonceOf(iv, a)[4 + j] == NonceOf(iv, b)[4 + j];
        XorCancel(iv[4 + j], BigEndian(a, 8)[j], BigEndian(b, 8)[j]);
      }
      Pow256Eight();
      BigEndianInjective(a, b, 8);
    }
  }

  // ---------------------------------------------------------------------
  // Key schedule (section 5.2 of RFC 9001, keyed by the shared secret)
  // ---------------------------------------------------------------------

  /** Extract and expand, uninterpreted. */
  datatype Hkdf = Hkdf(extract: (Bytes, Bytes) -> Bytes, expand: (Bytes, Bytes) -> Bytes)

  function Ascii(s: string): (b: Bytes)
    ensures |b| == |s|
  {
    seq(|s|, i requires 0 <= i < |s| => s[i] as int % 256)
  }

  /** The label structure that is expanded: wanted length, prefixed label, empty context. */
  function LabelInfo(len: nat, name: Bytes): Bytes {
    BigEndian(len % 65536, 2) + [(6 + |name|) % 256] + Ascii("tls13 ") + name + [0]
  }

  /** Structures of different labels or lengths differ, so no two keys are expanded from the same input. */
  lemma LabelInfoInjective(a: nat, name: Bytes, b: nat, other: Bytes)
    ensures LabelInfo(a, name) == LabelInfo(b, other) <==> name == other && a % 65536 == b % 65536
  {
    var x, y := LabelInfo(a, name), LabelInfo(b, other);
    if x == y {
      assert x[..2] == BigEndian(a % 65536, 2) && y[..2] == BigEndian(b % 65536, 2);
      assert Pow256(2) == 65536;
      BigEndianInjective(a % 65536, b % 65536, 2);
      assert x[9..|x| - 1] == name && y[9..|y| - 1] == other;
    }
  }

  /** Cut or filled to `len` bytes, as the expansion yields exactly that many. */
  function Fit(b: Bytes, len: nat): (r: Bytes)
    ensures |r| == len
  {
    seq(len, i => if 0 <= i < |b| then b[i] else 0)
  }

  function ExpandLabel(k: Hkdf, prk: Bytes, name: string, len: nat): (r: Bytes)
    ensures |r| == len
  {
    Fit(k.expand(prk, LabelInfo(len, Ascii(name))), len)
  }

  datatype Directional = Directional(key: Bytes, iv: Iv, hp: Bytes)

  function DirectionalKeys(k: Hkdf, secret: Bytes): Directional {
    Directional(ExpandLabel(k, secret, "quic key", 16), ExpandLabel(k, secret, "quic iv", 12), ExpandLabel(k, secret, "quic hp", 16))
  }

  datatype Side = ClientSide | ServerSide

  function Other(s: Side): Side {
    if s == ClientSide then ServerSide else ClientSide
  }

  /** local: what this side seals with; remote: what it opens with. */
  datatype KeyPair = KeyPair(local: Directional, remote: Directional)

  /** Keys of the two directions, as one side holds them. */
  function Held(client: Directional, server: Directional, side: Side): KeyPair {
    match side
    case ClientSide => KeyPair(client, server)
    case ServerSide => KeyPair(server, client)
  }

  function DirectionFromPsk(k: Hkdf, psk: Bytes, dcid: Bytes, name: string): Directional {
    DirectionalKeys(k, ExpandLabel(k, k.extract(psk, dcid), name, 32))
  }

  function InitialKeysFromPsk(k: Hkdf, psk: Bytes, dcid: Bytes, side: Side): KeyPair {
    Held(DirectionFromPsk(k, psk, dcid, "client in"), DirectionFromPsk(k, psk, dcid, "server in"), side)
  }

  // -- the schedule in bytes ----------------------------------------------

  // The label structures of section 5.2 of RFC 9001, in the bytes that its appendix A.1 gives them.
  const TLS13: Bytes := [0x74, 0x6c, 0x73, 0x31, 0x33, 0x20]
  const CLIENT_IN: Bytes := [0x00, 0x20, 0x0f] + TLS13 + [0x63, 0x6c, 0x69, 0x65, 0x6e, 0x74, 0x20, 0x69, 0x6e] + [0x00]
  const SERVER_IN: Bytes := [0x00, 0x20, 0x0f] + TLS13 + [0x73, 0x65, 0x72, 0x76, 0x65, 0x72, 0x20, 0x69, 0x6e] + [0x00]
  const QUIC_KEY: Bytes := [0x00, 0x10, 0x0e] + TLS13 + [0x71, 0x75, 0x69, 0x63, 0x20, 0x6b, 0x65, 0x79] + [0x00]
  const QUIC_IV: Bytes := [0x00, 0x0c, 0x0d] + TLS13 + [0x71, 0x75, 0x69, 0x63, 0x20, 0x69, 0x76] + [0x00]
  const QUIC_HP: Bytes := [0x00, 0x10, 0x0d] + TLS13 + [0x71, 0x75, 0x69, 0x63, 0x20, 0x68, 0x70] + [0x00]

  lemma TwoBytes(n: nat)
    requires n < 256
    ensures BigEndian(n % 65536, 2) == [0, n]
  {
    assert n % 65536 == n && n / 256 == 0 && n % 256 == n;
    assert BigEndian(n, 2) == BigEndian(0, 1) + [n];
    assert BigEndian(0, 1) == BigEndian(0, 0) + [0];
  }

  lemma Prefix()
    ensures Ascii("tls13 ") == TLS13
  {
  }

  /** A label structure, given the bytes of its name. */
  lemma LabelIs(len: nat, name: Bytes)
    requires len < 256 && |name| < 250
    ensures LabelInfo(len, name) == [0, len, 6 + |name|] + TLS13 + name + [0]
  {
    TwoBytes(len);
    Prefix();
    assert [0, len] + [6 + |name|] == [0, len, 6 + |name|];
  }

  lemma ClientInLabel()
    ensures LabelInfo(32, Ascii("client in")) == CLIENT_IN
  {
    var name: Bytes := [0x63, 0x6c, 0x69, 0x65, 0x6e, 0x74, 0x20, 0x69, 0x6e];
    assert Ascii("client in") == name;
    LabelIs(32, name);
  }

  lemma ServerInLabel()
    ensures LabelInfo(32, Ascii("server in")) == SERVER_IN
  {
    var name: Bytes := [0x73, 0x65, 0x72, 0x76, 0x65, 0x72, 0x20, 0x69, 0x6e];
    assert Ascii("server in") == name;
    LabelIs(32, name);
  }

  lemma QuicKeyLabel()
    ensures LabelInfo(16, Ascii("quic key")) == QUIC_KEY
  {
    var name: Bytes := [0x71, 0x75, 0x69, 0x63, 0x20, 0x6b, 0x65, 0x79];
    assert Ascii("quic key") == name;
    LabelIs(16, name);
  }

  lemma QuicIvLabel()
    ensures LabelInfo(12, Ascii("quic iv")) == QUIC_IV
  {
    var name: Bytes := [0x71, 0x75, 0x69, 0x63, 0x20, 0x69, 0x76];
    assert Ascii("quic iv") == name;
    LabelIs(12, name);
  }

  lemma QuicHpLabel()
    ensures LabelInfo(16, Ascii("quic hp")) == QUIC_HP
  {
    var name: Bytes := [0x71, 0x75, 0x69, 0x63, 0x20, 0x68, 0x70];
    assert Ascii("quic hp") == name;
    LabelIs(16, name);
  }

  /** An expansion that yields what was asked for is taken as it is. */
  lemma FitExact(b: Bytes)
    ensures Fit(b, |b|) == b
  {
  }

  /** `d` is expanded from the traffic secret `secret`, each part under its own label. */
  ghost predicate ExpandedFrom(k: Hkdf, secret: Bytes, d: Directional) {
    && d.key == Fit(k.expand(secret, QUIC_KEY), 16)
    && d.iv == Fit(k.expand(secret, QUIC_IV), 12)
    && d.hp == Fit(k.expand(secret, QUIC_HP), 16)
  }

  lemma DirectionalFrom(k: Hkdf, secret: Bytes)
    ensures ExpandedFrom(k, secret, DirectionalKeys(k, secret))
  {
    QuicKeyLabel();
    QuicIvLabel();
    QuicHpLabel();
  }

  lemma DirectionFrom(k: Hkdf, psk: Bytes, dcid: Bytes, name: string, info: Bytes)
    requires LabelInfo(32, Ascii(name)) == info
    ensures ExpandedFrom(k, Fit(k.expand(k.extract(psk, dcid), info), 32), DirectionFromPsk(k, psk, dcid, name))
  {
    DirectionalFrom(k, ExpandLabel(k, k.extract(psk, dcid), name, 32));
  }

  /** The secret shared by both sides is extracted from the connection ID, with the shared key as salt. A client
      seals with what comes from the label "client in" and a server with what comes from "server in", and each
      opens with the other's. */
  lemma KeysComeFrom(k: Hkdf, psk: Bytes, dcid: Bytes)
    ensures var client := InitialKeysFromPsk(k, psk, dcid, ClientSide);
            var server := InitialKeysFromPsk(k, psk, dcid, ServerSide);
            var shared := k.extract(psk, dcid);
            && ExpandedFrom(k, Fit(k.expand(shared, CLIENT_IN), 32), client.local)
            && ExpandedFrom(k, Fit(k.expand(shared, SERVER_IN), 32), server.local)
            && client.remote == server.local && server.remote == client.local
  {
    ClientInLabel();
    ServerInLabel();
    DirectionFrom(k, psk, dcid, "client in", CLIENT_IN);
    DirectionFrom(k, psk, dcid, "server in", SERVER_IN);
  }

  /** What one side seals with, the other opens with. */
  lemma KeysPair(k: Hkdf, psk: Bytes, dcid: Bytes, side: Side)
    ensures InitialKeysFromPsk(k, psk, dcid, Other(side)).remote == InitialKeysFromPsk(k, psk, dcid, side).local
    ensures InitialKeysFromPsk(k, psk, dcid, Other(side)).local == InitialKeysFromPsk(k, psk, dcid, side).remote
  {
    assert side == ClientSide || side == ServerSide;
  }

  // ---------------------------------------------------------------------
  // The cipher
  // ---------------------------------------------------------------------

  /** Key, nonce, header and text in; for opening, nothing unless the tag is right. */
  datatype CipherOps = CipherOps(seal: (Bytes, Bytes, Bytes, Bytes) -> Bytes, unseal: (Bytes, Bytes, Bytes, Bytes) -> Option<Bytes>)

  ghost predicate Inverts(c: CipherOps) {
    forall key, nonce, header, text ::
      && |c.seal(key, nonce, header, text)| == |text| + TAG_LEN
      && c.unseal(key, nonce, header, c.seal(key, nonce, header, text)) == Some(text)
  }

  function NoTag(sealed: Bytes): Option<Bytes> {
    if |sealed| < TAG_LEN then None else Some(sealed[..|sealed| - TAG_LEN])
  }

  function NoCipher(): (c: CipherOps)
    ensures Inverts(c)
  {
    CipherOps((k, n, h, text) => text + seq(TAG_LEN, i => 0), (k, n, h, sealed) => NoTag(sealed))
  }

  /** A cipher whose opening inverts its sealing. */
  type Cipher = c: CipherOps | Inverts(c) witness NoCipher()

  /** A packet with its payload sealed and its header as it was. */
  function Sealed(c: Cipher, keys: Directional, number: U64, header: Bytes, text: Bytes): (r: Bytes)
    ensures |r| == |header| + |text| + TAG_LEN
  {
    header + c.seal(keys.key, NonceOf(keys.iv, number), header, text)
  }

  /** Seal in place: the text is followed by room for the tag. */
  method EncryptInPlace(c: Cipher, keys: Directional, number: U64, buf: array<Byte>, headerLen: nat)
    requires headerLen + TAG_LEN <= buf.Length
    modifies buf
    ensures buf[..] == Sealed(c, keys, number, old(buf[..headerLen]), old(buf[headerLen..buf.Length - TAG_LEN]))
  {
    var nonce := Nonce(keys.iv, number);
    var header, text := buf[..headerLen], buf[headerLen..buf.Length - TAG_LEN];
    var sealed := c.seal(keys.key, nonce[..], header, text);
    forall i | headerLen <= i < buf.Length {
      buf[i] := sealed[i - headerLen];
    }
    assert buf[..] == header + sealed;
  }

  /** Open a payload; a wrong tag yields nothing. */
  method Decrypt(c: Cipher, keys: Directional, number: U64, header: Bytes, payload: Bytes) returns (text: Option<Bytes>)
    ensures text == c.unseal(keys.key, NonceOf(keys.iv, number), header, payload)
  {
    var nonce := Nonce(keys.iv, number);
    text := c.unseal(keys.key, nonce[..], header, payload);
  }

  /** A cipher that authenticates: nothing opens under another nonce or another header than it was sealed with. */
  ghost predicate Authenticates(c: Cipher) {
    forall key, nonce, header, text, other, front ::
      c.unseal(key, other, front, c.seal(key, nonce, header, text)) == None || (other == nonce && front == header)
  }

  /** With such a cipher the header and the packet number of a sealed packet are authenticated: its payload does not
      open behind a changed header, nor as another packet number. */
  lemma HeaderIsAuthenticated(c: Cipher, keys: Directional, number: U64, header: Bytes, text: Bytes, claimed: U64, front: Bytes)
    requires Authenticates(c) && (claimed != number || front != header)
    ensures c.unseal(keys.key, NonceOf(keys.iv, claimed), front, Sealed(c, keys, number, header, text)[|header|..]) == None
  {
    NoncesDistinct(keys.iv, claimed, number);
    SplitSealed(header, c.seal(keys.key, NonceOf(keys.iv, number), header, text));
  }

  // ---------------------------------------------------------------------
  // A whole packet
  // ---------------------------------------------------------------------

  /** Header masks for every header key. */
  type MaskFamily = m: (Bytes, Bytes) -> Bytes | forall k, s :: |m(k, s)| >= 5
    witness (k: Bytes, s: Bytes) => seq(5, i => 0)

  function MaskBy(m: MaskFamily, hp: Bytes): MaskOf {
    s => m(hp, s)
  }

  /** What goes on the wire: payload sealed, then header masked. */
  function Wire(c: Cipher, m: MaskFamily, keys: Directional, number: U64, header: Bytes, text: Bytes, pn: nat): Bytes
    requires Samples(Sealed(c, keys, number, header, text), pn)
  {
    Protect(MaskBy(m, keys.hp), Sealed(c, keys, number, header, text), pn, false)
  }

  /** The header ends with the packet number, whose length its first byte tells. */
  predicate EndsWithNumber(header: Bytes, pn: nat) {
    header != [] && pn >= 1 && |header| == pn + NumberLen(header[0])
  }

  datatype Opened = Opened(header: Bytes, text: Option<Bytes>)

  /** What the receiver makes of it: unmask, split after the packet number, open. */
  function Received(c: Cipher, m: MaskFamily, keys: Directional, number: U64, wire: Bytes, pn: nat): Opened
    requires Samples(wire, pn) && pn >= 1
  {
    var plain := Protect(MaskBy(m, keys.hp), wire, pn, true);
    var n := pn + NumberLen(plain[0]);
    Opened(plain[..n], c.unseal(keys.key, NonceOf(keys.iv, number), plain[..n], plain[n..]))
  }

  lemma SplitSealed(header: Bytes, sealed: Bytes)
    ensures (header + sealed)[..|header|] == header && (header + sealed)[|header|..] == sealed
  {
  }

  /** Under one and the same set of keys, what was sealed and masked is unmasked and opened. */
  lemma WireRoundTrip(c: Cipher, m: MaskFamily, keys: Directional, number: U64, header: Bytes, text: Bytes, pn: nat)
    requires EndsWithNumber(header, pn) && Samples(Sealed(c, keys, number, header, text), pn)
    ensures Received(c, m, keys, number, Wire(c, m, keys, number, header, text, pn), pn) == Opened(header, Some(text))
  {
    var nonce := NonceOf(keys.iv, number);
    var sealed := c.seal(keys.key, nonce, header, text);
    var packet := Sealed(c, keys, number, header, text);
    HeaderRoundTrip(MaskBy(m, keys.hp), packet, pn, false);
    SplitSealed(header, sealed);
    assert packet == header + sealed && packet[0] == header[0];
    assert c.unseal(keys.key, nonce, header, sealed) == Some(text);
  }

  /** What either side seals and masks with its own keys, the other side unmasks and opens with its remote
      keys, to the same header and the same text. */
  lemma InitialRoundTrip(k: Hkdf, c: Cipher, m: MaskFamily, psk: Bytes, dcid: Bytes, side: Side,
                         number: U64, header: Bytes, text: Bytes, pn: nat)
    requires EndsWithNumber(header, pn)
    requires Samples(Sealed(c, InitialKeysFromPsk(k, psk, dcid, side).local, number, header, text), pn)
    ensures var mine, theirs := InitialKeysFromPsk(k, psk, dcid, side), InitialKeysFromPsk(k, psk, dcid, Other(side));
            Received(c, m, theirs.remote, number, Wire(c, m, mine.local, number, header, text, pn), pn) == Opened(header, Some(text))
  {
    var keys := InitialKeysFromPsk(k, psk, dcid, side).local;
    KeysPair(k, psk, dcid, side);
    WireRoundTrip(c, m, keys, number, header, text, pn);
  }
}
