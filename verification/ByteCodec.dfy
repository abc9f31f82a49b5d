/** Bytes as numbers below 256, their bitwise operations, and the little- and big-endian forms of a
    natural number. Masking with 2^k - 1 is written as the remainder modulo 2^k, and a test of the top
    bit as a comparison with 128. */
module ByteCodec {

  type Byte = n: int | 0 <= n < 256

  type Bytes = seq<Byte>

  function Pow2(k: nat): (p: nat)
    ensures p > 0
  {
    if k == 0 then 1 else 2 * Pow2(k - 1)
  }

  /** Exclusive or of the low `k` bits. */
  function XorBits(a: nat, b: nat, k: nat): (r: nat)
    ensures r < Pow2(k)
  {
    if k == 0 then 0 else (if a % 2 == b % 2 then 0 else 1) + 2 * XorBits(a / 2, b / 2, k - 1)
  }

  /** Inclusive or of the low `k` bits. */
  function OrBits(a: nat, b: nat, k: nat): (r: nat)
    ensures r < Pow2(k)
  {
    if k == 0 then 0 else (if a % 2 == 0 && b % 2 == 0 then 0 else 1) + 2 * OrBits(a / 2, b / 2, k - 1)
  }

  lemma Pow2Eight()
    ensures Pow2(8) == 256
  {
    assert Pow2(2) == 4 && Pow2(4) == 4 * Pow2(2);
    assert Pow2(6) == 4 * Pow2(4);
  }

  function Xor(a: Byte, b: Byte): Byte {
    Pow2Eight();
    XorBits(a, b, 8)
  }

  function Or(a: Byte, b: Byte): Byte {
    Pow2Eight();
    OrBits(a, b, 8)
  }

  lemma XorBitsSplit(a: nat, b: nat, k: nat)
    requires k > 0
    ensures XorBits(a, b, k) / 2 == XorBits(a / 2, b / 2, k - 1)
    ensures XorBits(a, b, k) % 2 == 0 <==> a % 2 == b % 2
  {
  }

  lemma {:induction false} XorBitsUndo(a: nat, b: nat, k: nat)
    requires a < Pow2(k)
    ensures XorBits(XorBits(a, b, k), b, k) == a
  {
    if k == 0 {
    } else {
      XorBitsSplit(a, b, k);
      XorBitsSplit(XorBits(a, b, k), b, k);
      XorBitsUndo(a / 2, b / 2, k - 1);
    }
  }

  lemma {:induction false} XorBitsCancel(a: nat, b: nat, c: nat, k: nat)
    requires b < Pow2(k) && c < Pow2(k)
    ensures XorBits(a, b, k) == XorBits(a, c, k) <==> b == c
  {
    if k == 0 {
    } else {
      XorBitsCancel(a / 2, b / 2, c / 2, k - 1);
    }
  }

  lemma {:induction false} XorBitsNone(a: nat, k: nat)
    requires a < Pow2(k)
    ensures XorBits(a, 0, k) == a
  {
    if k == 0 {
    } else {
      XorBitsNone(a / 2, k - 1);
    }
  }

  lemma {:induction false} XorBitsZero(a: nat, b: nat, k: nat)
    requires a < Pow2(k) && b < Pow2(k)
    ensures XorBits(a, b, k) == 0 <==> a == b
  {
    if k == 0 {
    } else {
      XorBitsZero(a / 2, b / 2, k - 1);
    }
  }

  lemma {:induction false} OrBitsZero(a: nat, b: nat, k: nat)
    requires a < Pow2(k) && b < Pow2(k)
    ensures OrBits(a, b, k) == 0 <==> a == 0 && b == 0
  {
    if k == 0 {
    } else {
      OrBitsZero(a / 2, b / 2, k - 1);
    }
  }

  /** A mask of `k` bits leaves bit `k` alone. */
  lemma {:induction false} XorBitsTop(a: nat, b: nat, k: nat)
    requires a < 2 * Pow2(k) && b < Pow2(k)
    ensures XorBits(a, b, k + 1) >= Pow2(k) <==> a >= Pow2(k)
  {
    if k == 0 {
    } else {
      XorBitsTop(a / 2, b / 2, k - 1);
    }
  }

  /** Bit `i`, counted from the least significant. */
  predicate Bit(n: nat, i: nat) {
    if i == 0 then n % 2 == 1 else Bit(n / 2, i - 1)
  }

  lemma {:induction false} XorBitsBit(a: nat, b: nat, k: nat, i: nat)
    requires i < k
    ensures Bit(XorBits(a, b, k), i) <==> (Bit(a, i) <==> !Bit(b, i))
  {
    XorBitsSplit(a, b, k);
    if i == 0 {
    } else {
      XorBitsBit(a / 2, b / 2, k - 1, i - 1);
    }
  }

  /** Exclusive or, bit by bit. */
  lemma XorBit(a: Byte, b: Byte, i: nat)
    requires i < 8
    ensures Bit(Xor(a, b), i) <==> (Bit(a, i) <==> !Bit(b, i))
  {
    XorBitsBit(a, b, 8, i);
  }

  lemma {:induction false} ZeroBit(i: nat)
    ensures !Bit(0, i)
  {
    if i == 0 {
    } else {
      ZeroBit(i - 1);
    }
  }

  lemma Split32(n: nat)
    ensures n % 32 % 2 == n % 2 && n % 32 / 2 == n / 2 % 16
  {
    var q, r := n / 32, n % 32;
    assert n == 32 * q + r;
    assert n / 2 == 16 * q + r / 2;
  }

  lemma Split16(n: nat)
    ensures n % 16 % 2 == n % 2 && n % 16 / 2 == n / 2 % 8
  {
    var q, r := n / 16, n % 16;
    assert n == 16 * q + r;
    assert n / 2 == 8 * q + r / 2;
  }

  lemma Split8(n: nat)
    ensures n % 8 % 2 == n % 2 && n % 8 / 2 == n / 2 % 4
  {
    var q, r := n / 8, n % 8;
    assert n == 8 * q + r;
    assert n / 2 == 4 * q + r / 2;
  }

  lemma Split4(n: nat)
    ensures n % 4 % 2 == n % 2 && n % 4 / 2 == n / 2 % 2
  {
    var q, r := n / 4, n % 4;
    assert n == 4 * q + r;
    assert n / 2 == 2 * q + r / 2;
  }

  lemma TwoBits(n: nat, i: nat)
    ensures Bit(n % 2, i) <==> i < 1 && Bit(n, i)
    ensures Bit(n % 4, i) <==> i < 2 && Bit(n, i)
  {
    OneBit(n, i);
    if i > 0 {
      Split4(n);
      OneBit(n / 2, i - 1);
    } else {
      Split4(n);
    }
  }

  lemma OneBit(n: nat, i: nat)
    ensures Bit(n % 2, i) <==> i < 1 && Bit(n, i)
  {
    if i > 0 {
      ZeroBit(i - 1);
      assert n % 2 / 2 == 0;
    }
  }

  lemma EightBits(n: nat, i: nat)
    ensures Bit(n % 8, i) <==> i < 3 && Bit(n, i)
  {
    Split8(n);
    if i > 0 { TwoBits(n / 2, i - 1); }
  }

  /** A remainder modulo 2^j keeps the low `j` bits and clears the rest. */
  lemma RemainderBits(n: nat, i: nat)
    ensures Bit(n % 16, i) <==> i < 4 && Bit(n, i)
    ensures Bit(n % 32, i) <==> i < 5 && Bit(n, i)
  {
    FourBits(n, i);
    Split32(n);
    if i > 0 { FourBits(n / 2, i - 1); }
  }

  lemma FourBits(n: nat, i: nat)
    ensures Bit(n % 16, i) <==> i < 4 && Bit(n, i)
  {
    Split16(n);
    if i > 0 { EightBits(n / 2, i - 1); }
  }

  lemma XorUndo(a: Byte, b: Byte)
    ensures Xor(Xor(a, b), b) == a
  {
    Pow2Eight();
    XorBitsUndo(a, b, 8);
  }

  lemma XorCancel(a: Byte, b: Byte, c: Byte)
    ensures Xor(a, b) == Xor(a, c) <==> b == c
  {
    Pow2Eight();
    XorBitsCancel(a, b, c, 8);
  }

  lemma XorNone(a: Byte)
    ensures Xor(a, 0) == a
  {
    Pow2Eight();
    XorBitsNone(a, 8);
  }

  lemma XorZero(a: Byte, b: Byte)
    ensures Xor(a, b) == 0 <==> a == b
  {
    Pow2Eight();
    XorBitsZero(a, b, 8);
  }

  lemma OrZero(a: Byte, b: Byte)
    ensures Or(a, b) == 0 <==> a == 0 && b == 0
  {
    Pow2Eight();
    OrBitsZero(a, b, 8);
  }

  /** A mask below 128 leaves the top bit alone. */
  lemma XorKeepsTop(a: Byte, m: Byte)
    requires m < 128
    ensures Xor(a, m) >= 128 <==> a >= 128
  {
    Pow2Eight();
    assert Pow2(7) == 128 by { assert Pow2(8) == 2 * Pow2(7); }
    XorBitsTop(a, m, 7);
  }

  /** `a` without its low `j` bits. */
  function Shift(a: nat, j: nat): nat {
    if j == 0 then a else Shift(a / 2, j - 1)
  }

  lemma {:induction false} XorBitsHigh(a: nat, b: nat, k: nat, j: nat)
    requires j <= k && a < Pow2(k) && Shift(b, j) == 0
    ensures Shift(XorBits(a, b, k), j) == Shift(a, j)
  {
    if j == 0 {
      XorBitsNone(a, k);
    } else {
      XorBitsSplit(a, b, k);
      XorBitsHigh(a / 2, b / 2, k - 1, j - 1);
    }
  }

  lemma ShiftTwice(a: nat, j: nat)
    requires j >= 2
    ensures Shift(a, j) == Shift(a / 4, j - 2)
  {
    assert Shift(a, j) == Shift(a / 2, j - 1);
    assert a / 2 / 2 == a / 4;
  }

  lemma QuarterTwice(a: nat)
    ensures a / 4 / 4 == a / 16 && a / 16 / 2 == a / 32
  {
  }

  lemma ShiftDivides(a: nat)
    ensures Shift(a, 4) == a / 16 && Shift(a, 5) == a / 32
  {
    ShiftTwice(a, 4);
    ShiftTwice(a / 4, 2);
    ShiftTwice(a, 5);
    ShiftTwice(a / 4, 3);
    assert Shift(a / 16, 1) == Shift(a / 16 / 2, 0);
    QuarterTwice(a);
  }

  /** A mask of four bits leaves the four bits above it alone, one of five bits the three above it. */
  lemma XorKeepsHigh(a: Byte, m: Byte)
    ensures m < 16 ==> Xor(a, m) / 16 == a / 16
    ensures m < 32 ==> Xor(a, m) / 32 == a / 32
  {
    Pow2Eight();
    ShiftDivides(a);
    ShiftDivides(m);
    ShiftDivides(Xor(a, m));
    if m < 16 { XorBitsHigh(a, m, 8, 4); }
    if m < 32 { XorBitsHigh(a, m, 8, 5); }
  }

  // ---------------------------------------------------------------------
  // Numbers as bytes
  // ---------------------------------------------------------------------

  function Pow256(k: nat): (p: nat)
    ensures p > 0
  {
    if k == 0 then 1 else 256 * Pow256(k - 1)
  }

  /** `n` in `k` bytes, least significant first. */
  function LittleEndian(n: nat, k: nat): (b: Bytes)
    ensures |b| == k
  {
    if k == 0 then [] else [n % 256] + LittleEndian(n / 256, k - 1)
  }

  function FromLittleEndian(b: Bytes): (n: nat)
    ensures n < Pow256(|b|)
  {
    if b == [] then 0 else b[0] + 256 * FromLittleEndian(b[1..])
  }

  lemma {:induction false} DecodeEncode(n: nat, k: nat)
    requires n < Pow256(k)
    ensures FromLittleEndian(LittleEndian(n, k)) == n
  {
    if k == 0 {
    } else {
      DecodeEncode(n / 256, k - 1);
      assert LittleEndian(n, k)[1..] == LittleEndian(n / 256, k - 1);
    }
  }

  lemma SplitByte(v: Byte, rest: nat)
    ensures (v + 256 * rest) % 256 == v && (v + 256 * rest) / 256 == rest
  {
  }

  lemma {:induction false} EncodeDecode(b: Bytes)
    ensures LittleEndian(FromLittleEndian(b), |b|) == b
  {
    if b == [] {
    } else {
      EncodeDecode(b[1..]);
      SplitByte(b[0], FromLittleEndian(b[1..]));
      assert b == [b[0]] + b[1..];
    }
  }

  /** `n` in `k` bytes, most significant first. */
  function BigEndian(n: nat, k: nat): (b: Bytes)
    ensures |b| == k
  {
    if k == 0 then [] else BigEndian(n / 256, k - 1) + [n % 256]
  }

  /** The number that bytes stand for, most significant first. */
  function PlaceValue(b: Bytes): nat {
    if b == [] then 0 else 256 * PlaceValue(b[..|b| - 1]) + b[|b| - 1]
  }

  lemma {:induction false} BigEndianValue(n: nat, k: nat)
    requires n < Pow256(k)
    ensures PlaceValue(BigEndian(n, k)) == n
  {
    if k == 0 {
    } else {
      BigEndianValue(n / 256, k - 1);
      assert BigEndian(n, k)[..k - 1] == BigEndian(n / 256, k - 1);
    }
  }

  lemma {:induction false} BigEndianInjective(m: nat, n: nat, k: nat)
    requires m < Pow256(k) && n < Pow256(k)
    requires BigEndian(m, k) == BigEndian(n, k)
    ensures m == n
  {
    if k == 0 {
    } else {
      var a, b := BigEndian(m, k), BigEndian(n, k);
      assert a[k - 1] == m % 256 && b[k - 1] == n % 256;
      assert a[..k - 1] == BigEndian(m / 256, k - 1) && b[..k - 1] == BigEndian(n / 256, k - 1);
      BigEndianInjective(m / 256, n / 256, k - 1);
    }
  }
}
