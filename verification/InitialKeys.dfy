/** Protection of Initial packets: header masking in place, packet nonces, and the pairing of the two sides'
    keys, over an uninterpreted key schedule, cipher and mask. */
module InitialKeys {
  import opened ByteCodec

  // ---------------------------------------------------------------------
  // Header masking (section 5.4.1 of RFC 9001)
  // ---------------------------------------------------------------------

  const SAMPLE_LEN := 16

  /** The mask that a header key makes of a sample; at least five bytes of it are used. */
  type MaskOf = m: Bytes -> Bytes | forall s :: |m(s)| >= 5
    witness (s: Bytes) => seq(5, i => 0)

  /** The mask bits that apply to a first byte: four in a long header, five in a short one. */
  function FirstMask(first: Byte, mask: Byte): Byte {
    if first >= 0x80 then mask % 16 else mask % 32
  }

  /** How long the packet number is, by the two low bits of a plain first byte. */
  function NumberLen(first: Byte): (n: nat)
    ensures 1 <= n <= 4
  {
    first % 4 + 1
  }

  predicate Samples(packet: Bytes, pn: nat) {
    pn + 4 + SAMPLE_LEN <= |packet|
  }

  function SampleOf(packet: Bytes, pn: nat): Bytes
    requires Samples(packet, pn)
  {
    packet[pn + 4..pn + 4 + SAMPLE_LEN]
  }

  /** Masking, byte by byte: the first byte by some of its bits, then `n` bytes of packet number. */
  function Masked(packet: Bytes, pn: nat, mask: Bytes, n: nat): (r: Bytes)
    requires Samples(packet, pn) && |mask| >= 5 && n <= 4
    ensures |r| == |packet|
  {
    seq(|packet|, i requires 0 <= i < |packet| =>
      var b := if i == 0 then Xor(packet[0], FirstMask(packet[0], mask[0])) else packet[i];
      if pn <= i < pn + n then Xor(b, mask[1 + i - pn]) else b)
  }

  /** The plain first byte, as the masking step sees it. */
  function PlainFirst(packet: Bytes, mask: Bytes, masked: bool): Byte
    requires |packet| > 0 && |mask| >= 5
  {
    if masked then Xor(packet[0], FirstMask(packet[0], mask[0])) else packet[0]
  }

  /** Masking or unmasking a header. */
  function Protect(m: MaskOf, packet: Bytes, pn: nat, masked: bool): (r: Bytes)
    requires Samples(packet, pn)
    ensures |r| == |packet|
  {
    var mask := m(SampleOf(packet, pn));
    Masked(packet, pn, mask, NumberLen(PlainFirst(packet, mask, masked)))
  }

  /** Mask the `n` bytes of the packet number. */
  method MaskNumber(packet: array<Byte>, pn: nat, mask: Bytes, n: nat)
    requires pn + n <= packet.Length && |mask| > n
    modifies packet
    ensures forall j :: 0 <= j < packet.Length ==>
                packet[j] == if pn <= j < pn + n then Xor(old(packet[j]), mask[1 + j - pn]) else old(packet[j])
  {
    for i := 0 to n
      invariant forall j :: 0 <= j < packet.Length ==>
                  packet[j] == if pn <= j < pn + i then Xor(old(packet[j]), mask[1 + j - pn]) else old(packet[j])
    {
      packet[pn + i] := Xor(packet[pn + i], mask[1 + i]);
    }
  }

  lemma IsMasked(was: Bytes, half: Bytes, now: Bytes, pn: nat, mask: Bytes, n: nat)
    requires Samples(was, pn) && |mask| >= 5 && n <= 4 && |now| == |was|
    requires half == was[0 := Xor(was[0], FirstMask(was[0], mask[0]))]
    requires forall j :: 0 <= j < |was| ==> now[j] == if pn <= j < pn + n then Xor(half[j], mask[1 + j - pn]) else half[j]
    ensures now == Masked(was, pn, mask, n)
  {
  }

  /** Mask or unmask in place: `masked` says that the packet still carries the mask. */
  method ApplyMask(m: MaskOf, packet: array<Byte>, pn: nat, masked: bool)
    requires Samples(packet[..], pn)
    modifies packet
    ensures packet[..] == Protect(m, old(packet[..]), pn, masked)
  {
    ghost var was := packet[..];
    var mask := m(packet[pn + 4..pn + 4 + SAMPLE_LEN]);
    assert packet[pn + 4..pn + 4 + SAMPLE_LEN] == SampleOf(was, pn);
    var bits := FirstMask(packet[0], mask[0]);
    var first := if masked then Xor(packet[0], bits) else packet[0];
    var n := NumberLen(first);
    assert Protect(m, was, pn, masked) == Masked(was, pn, mask, n);
    packet[0] := Xor(packet[0], bits);
    ghost var half := packet[..];
    assert half == was[0 := Xor(was[0], bits)];
    MaskNumber(packet, pn, mask, n);
    ghost var now := packet[..];
    assert forall j :: 0 <= j < |was| ==> now[j] == if pn <= j < pn + n then Xor(half[j], mask[1 + j - pn]) else half[j];
    IsMasked(was, half, now, pn, mask, n);
  }

  method DecryptHeader(m: MaskOf, packet: array<Byte>, pn: nat)
    requires Samples(packet[..], pn)
    modifies packet
    ensures packet[..] == Protect(m, old(packet[..]), pn, true)
  {
    ApplyMask(m, packet, pn, true);
  }

  method EncryptHeader(m: MaskOf, packet: array<Byte>, pn: nat)
    requires Samples(packet[..], pn)
    modifies packet
    ensures packet[..] == Protect(m, old(packet[..]), pn, false)
  {
    ApplyMask(m, packet, pn, false);
  }

  lemma FirstMaskSame(first: Byte, mask: Byte)
    ensures FirstMask(Xor(first, FirstMask(first, mask)), mask) == FirstMask(first, mask)
  {
    XorKeepsTop(first, FirstMask(first, mask));
  }

  /** The first byte comes back, and with it the length of the packet number. */
  lemma FirstRoundTrip(first: Byte, mask: Byte)
    ensures var x := Xor(first, FirstMask(first, mask));
            Xor(x, FirstMask(x, mask)) == first
  {
    FirstMaskSame(first, mask);
    XorUndo(first, FirstMask(first, mask));
  }

  lemma MaskedAt(packet: Bytes, pn: nat, mask: Bytes, n: nat, i: nat)
    requires Samples(packet, pn) && |mask| >= 5 && n <= 4 && pn >= 1 && i < |packet|
    ensures Masked(packet, pn, mask, n)[i] ==
            if i == 0 then Xor(packet[0], FirstMask(packet[0], mask[0]))
            else if pn <= i < pn + n then Xor(packet[i], mask[1 + i - pn]) else packet[i]
  {
  }

  /** Masking the same bytes with the same mask twice changes nothing. */
  lemma MaskedTwice(packet: Bytes, pn: nat, mask: Bytes, n: nat)
    requires Samples(packet, pn) && |mask| >= 5 && n <= 4 && pn >= 1
    ensures Masked(Masked(packet, pn, mask, n), pn, mask, n) == packet
  {
    var once := Masked(packet, pn, mask, n);
    forall i | 0 <= i < |packet| ensures Masked(once, pn, mask, n)[i] == packet[i] {
      MaskedAt(packet, pn, mask, n, i);
      MaskedAt(once, pn, mask, n, i);
      if i == 0 {
        MaskedAt(packet, pn, mask, n, 0);
        FirstRoundTrip(packet[0], mask[0]);
      } else if pn <= i < pn + n {
        XorUndo(packet[i], mask[1 + i - pn]);
      }
    }
  }

  /** The sample is behind everything that masking touches. */
  lemma SampleSame(packet: Bytes, pn: nat, mask: Bytes, n: nat)
    requires Samples(packet, pn) && |mask| >= 5 && n <= 4 && pn >= 1
    ensures SampleOf(Masked(packet, pn, mask, n), pn) == SampleOf(packet, pn)
  {
    var once := Masked(packet, pn, mask, n);
    forall j | pn + 4 <= j < pn + 4 + SAMPLE_LEN ensures once[j] == packet[j] {
      MaskedAt(packet, pn, mask, n, j);
    }
  }

  /** For every mask function, and every packet long enough to sample whose packet number does not start at
      the first byte: unmasking undoes masking and masking undoes unmasking. */
  lemma HeaderRoundTrip(m: MaskOf, packet: Bytes, pn: nat, masked: bool)
    requires Samples(packet, pn) && pn >= 1
    ensures Protect(m, Protect(m, packet, pn, masked), pn, !masked) == packet
  {
    var mask := m(SampleOf(packet, pn));
    var n := NumberLen(PlainFirst(packet, mask, masked));
    var once := Masked(packet, pn, mask, n);
    SampleSame(packet, pn, mask, n);
    MaskedAt(packet, pn, mask, n, 0);
    FirstRoundTrip(packet[0], mask[0]);
    MaskedTwice(packet, pn, mask, n);
  }

  /** Masking touches nothing but the low four bits of the first byte (five in a short header) and the packet
      number: the other bits, the bytes between and the payload stay. */
  lemma HeaderFrame(m: MaskOf, packet: Bytes, pn: nat, masked: bool, i: nat)
    requires Samples(packet, pn) && pn >= 1 && 1 <= i < |packet|
    requires i < pn || i >= pn + NumberLen(PlainFirst(packet, m(SampleOf(packet, pn)), masked))
    ensures Protect(m, packet, pn, masked)[i] == packet[i]
    ensures Protect(m, packet, pn, masked)[0] / 32 == packet[0] / 32
    ensures packet[0] >= 0x80 ==> Protect(m, packet, pn, masked)[0] / 16 == packet[0] / 16
  {
    var mask := m(SampleOf(packet, pn));
    var n := NumberLen(PlainFirst(packet, mask, masked));
    MaskedAt(packet, pn, mask, n, i);
    MaskedAt(packet, pn, mask, n, 0);
    XorKeepsHigh(packet[0], FirstMask(packet[0], mask[0]));
  }

  // ---------------------------------------------------------------------
  // Bit by bit
  // ---------------------------------------------------------------------

  lemma FirstMaskBit(first: Byte, mask: Byte, i: nat)
    ensures Bit(FirstMask(first, mask), i) <==> Bit(mask, i) && i < if first >= 0x80 then 4 else 5
  {
    RemainderBits(mask, i);
  }

  lemma ProtectMasks(m: MaskOf, packet: Bytes, pn: nat, masked: bool, mask: Bytes, n: nat)
    requires Samples(packet, pn) && mask == m(SampleOf(packet, pn)) && n == NumberLen(PlainFirst(packet, mask, masked))
    ensures Protect(m, packet, pn, masked) == Masked(packet, pn, mask, n)
  {
  }

  lemma ProtectAt(m: MaskOf, packet: Bytes, pn: nat, masked: bool, mask: Bytes, n: nat, i: nat)
    requires 1 <= pn && Samples(packet, pn) && i < |packet|
    requires mask == m(SampleOf(packet, pn)) && n == NumberLen(PlainFirst(packet, mask, masked))
    ensures Protect(m, packet, pn, masked)[i] ==
            if i == 0 then Xor(packet[0], FirstMask(packet[0], mask[0]))
            else if pn <= i < pn + n then Xor(packet[i], mask[1 + i - pn]) else packet[i]
  {
    ProtectMasks(m, packet, pn, masked, mask, n);
    MaskedAt(packet, pn, mask, n, i);
  }

  lemma ProtectFirst(m: MaskOf, packet: Bytes, pn: nat, masked: bool)
    requires 1 <= pn && Samples(packet, pn)
    ensures Protect(m, packet, pn, masked)[0] == Xor(packet[0], FirstMask(packet[0], m(SampleOf(packet, pn))[0]))
  {
    var mask := m(SampleOf(packet, pn));
    ProtectAt(m, packet, pn, masked, mask, NumberLen(PlainFirst(packet, mask, masked)), 0);
  }

  lemma TurnedBit(first: Byte, mask: Byte, i: nat)
    requires i < 8
    ensures Bit(Xor(first, FirstMask(first, mask)), i) <==>
              (Bit(first, i) <==> !(Bit(mask, i) && i < if first >= 0x80 then 4 else 5))
  {
    XorBit(first, FirstMask(first, mask), i);
    FirstMaskBit(first, mask, i);
  }

  /** The 16 bytes from four behind the start of the packet number. */
  lemma SampleIs(packet: Bytes, pn: nat)
    requires pn + 20 <= |packet|
    ensures Samples(packet, pn) && SampleOf(packet, pn) == packet[pn + 4..pn + 20]
  {
  }

  ghost predicate TurnedOver(before: Byte, after: Byte, mask: Byte) {
    forall i :: 0 <= i < 8 ==>
      (Bit(after, i) <==> (Bit(before, i) <==> !(Bit(mask, i) && i < if before >= 0x80 then 4 else 5)))
  }

  lemma FirstByteTurned(m: MaskOf, packet: Bytes, pn: nat, masked: bool, mask: Bytes)
    requires 1 <= pn && Samples(packet, pn) && mask == m(SampleOf(packet, pn))
    ensures TurnedOver(packet[0], Protect(m, packet, pn, masked)[0], mask[0])
  {
    ProtectFirst(m, packet, pn, masked);
    forall i | 0 <= i < 8
      ensures Bit(Xor(packet[0], FirstMask(packet[0], mask[0])), i) <==>
                (Bit(packet[0], i) <==> !(Bit(mask[0], i) && i < if packet[0] >= 0x80 then 4 else 5))
    {
      TurnedBit(packet[0], mask[0], i);
    }
  }

  /** The first byte: a bit is turned over exactly if it is set in the first mask byte and is one of the low four
      (in a long header) or five (in a short one). */
  lemma FirstByteBits(m: MaskOf, packet: Bytes, pn: nat, masked: bool)
    requires 1 <= pn && pn + 20 <= |packet|
    ensures TurnedOver(packet[0], Protect(m, packet, pn, masked)[0], m(packet[pn + 4..pn + 20])[0])
  {
    SampleIs(packet, pn);
    FirstByteTurned(m, packet, pn, masked, m(packet[pn + 4..pn + 20]));
  }

  /** `plain % 4` tells how many bytes of packet number are masked, one to four, the mask starting at its second
      byte. */
  ghost predicate NumberMasked(before: Bytes, after: Bytes, pn: nat, plain: Byte, mask: Bytes)
    requires pn + 4 <= |before| == |after| && |mask| >= 5
  {
    forall i :: pn <= i < pn + 4 ==>
      after[i] == if i - pn <= plain % 4 then Xor(before[i], mask[1 + i - pn]) else before[i]
  }

  lemma LenAbove(first: Byte, j: nat)
    ensures j < NumberLen(first) <==> j <= first % 4
  {
  }

  lemma NumberMaskedBy(m: MaskOf, packet: Bytes, pn: nat, masked: bool, mask: Bytes, plain: Byte)
    requires 1 <= pn && Samples(packet, pn) && mask == m(SampleOf(packet, pn)) && plain == PlainFirst(packet, mask, masked)
    ensures NumberMasked(packet, Protect(m, packet, pn, masked), pn, plain, mask)
  {
    var out := Protect(m, packet, pn, masked);
    forall i | pn <= i < pn + 4
      ensures out[i] == if i - pn <= plain % 4 then Xor(packet[i], mask[1 + i - pn]) else packet[i]
    {
      LenAbove(plain, i - pn);
      ProtectAt(m, packet, pn, masked, mask, NumberLen(plain), i);
    }
  }

  /** The packet number: as many of its bytes are xored with the mask as the low two bits of the plain first byte
      say, which is the one that goes in when masking, and the one that comes out when unmasking. */
  lemma NumberBytes(m: MaskOf, packet: Bytes, pn: nat, masked: bool)
    requires 1 <= pn && pn + 20 <= |packet|
    ensures var out := Protect(m, packet, pn, masked);
            NumberMasked(packet, out, pn, if masked then out[0] else packet[0], m(packet[pn + 4..pn + 20]))
  {
    SampleIs(packet, pn);
    var mask := m(packet[pn + 4..pn + 20]);
    ProtectFirst(m, packet, pn, masked);
    NumberMaskedBy(m, packet, pn, masked, mask, PlainFirst(packet, mask, masked));
  }

  // ---------------------------------------------------------------------
  // A packet number at the first byte
  // ---------------------------------------------------------------------

  /** At offset 0 both masks fall on the first byte. */
  lemma MaskedAtZero(m: MaskOf, packet: Bytes, masked: bool)
    requires Samples(packet, 0)
    ensures var mask := m(SampleOf(packet, 0));
            Protect(m, packet, 0, masked)[0] == Xor(Xor(packet[0], FirstMask(packet[0], mask[0])), mask[1])
  {
  }

  lemma SampleAtZero(m: MaskOf, packet: Bytes, masked: bool)
    requires Samples(packet, 0)
    ensures SampleOf(Protect(m, packet, 0, masked), 0) == SampleOf(packet, 0)
  {
    var once := Protect(m, packet, 0, masked);
    forall j | 4 <= j < 20 ensures once[j] == packet[j] {
    }
  }

  lemma BitFour(first: Byte, mask: Byte)
    requires mask % 16 == 0 && mask % 32 != 0
    ensures FirstMask(first, mask) == if first >= 0x80 then 0 else 16
  {
    assert mask % 32 == 16 by {
      assert mask % 32 == mask % 16 || mask % 32 == mask % 16 + 16;
    }
  }

  lemma BitStays(p: Byte, b: Byte)
    ensures Xor(Xor(Xor(Xor(p, 16), b), 0), b) == Xor(p, 16) != p
  {
    XorNone(Xor(Xor(p, 16), b));
    XorUndo(Xor(p, 16), b);
    XorNone(p);
    XorCancel(p, 16, 0);
  }

  /** A short header that masking at offset 0 turns into a long one, with bit 4 of the mask set and the bits below
      clear: unmasking leaves that bit flipped. */
  lemma FormFlipLosesABit(m: MaskOf, packet: Bytes)
    requires Samples(packet, 0) && packet[0] < 0x80 && Protect(m, packet, 0, false)[0] >= 0x80
    requires var a := m(SampleOf(packet, 0))[0]; a % 16 == 0 && a % 32 != 0
    ensures Protect(m, Protect(m, packet, 0, false), 0, true)[0] == Xor(packet[0], 16) != packet[0]
  {
    var mask, once := m(SampleOf(packet, 0)), Protect(m, packet, 0, false);
    MaskedAtZero(m, packet, false);
    SampleAtZero(m, packet, false);
    MaskedAtZero(m, once, true);
    BitFour(packet[0], mask[0]);
    BitFour(once[0], mask[0]);
    BitStays(packet[0], mask[1]);
  }

  function FlipMask(): MaskOf {
    s => [16, 128, 0, 0, 0]
  }

  const ZEROS: Bytes := seq(20, i => 0)

  lemma FlipFirst()
    ensures Xor(0, 16) == 16
  {
  }

  lemma FlipSecond()
    ensures Xor(16, 128) == 144
  {
  }

  lemma ZeroFlips(m: MaskOf, packet: Bytes)
    requires Samples(packet, 0) && packet[0] == 0
    requires var mask := m(SampleOf(packet, 0)); mask[0] == 16 && mask[1] == 128
    ensures Protect(m, Protect(m, packet, 0, false), 0, true)[0] != 0
  {
    FlipFirst();
    FlipSecond();
    MaskedAtZero(m, packet, false);
    BitFour(0, 16);
    FormFlipLosesABit(m, packet);
  }

  /** So at offset 0 the round trip fails: such a mask and packet exist. */
  lemma NoRoundTripAtZero() returns (m: MaskOf, packet: Bytes)
    ensures Samples(packet, 0)
    ensures Protect(m, Protect(m, packet, 0, false), 0, true) != packet
  {
    m, packet := FlipMask(), ZEROS;
    ZeroFlips(m, packet);
  }
}
