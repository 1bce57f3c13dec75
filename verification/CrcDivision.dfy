/** The checksum by its definition: the complement of the remainder that long division by the generator polynomial
    of IEEE 802.3 leaves, with the first 32 bits of the message complemented (APPNOTE section 4.4.7). */
module CrcDivision {
  import opened Utf8
  import opened Crc32

  /** The exponents of x in the generator polynomial. */
  const EXPONENTS: set<int> := {32, 26, 23, 22, 16, 12, 11, 10, 8, 7, 5, 4, 2, 1, 0}

  /** The remainder of a polynomial, given by its coefficients from the highest power down, as long division finds
      it: the divisor is subtracted below each leading one. */
  function Remainder(bits: seq<bool>): (r: seq<bool>)
    requires |bits| >= 32
    ensures |r| == 32
    decreases |bits|
  {
    if |bits| == 32 then bits else Remainder(if bits[0] then Subtracted(bits)[1..] else bits[1..])
  }

  function Subtracted(bits: seq<bool>): (r: seq<bool>)
    requires |bits| > 32
    ensures |r| == |bits|
  {
    seq(|bits|, i requires 0 <= i < |bits| => bits[i] != (32 - i in EXPONENTS))
  }

  /** The bits of the bytes, each byte from its least significant bit on. */
  function Bits(data: seq<byte>): seq<bool> {
    if data == [] then [] else Bits(data[..|data| - 1]) + ToBits(data[|data| - 1] as nat, 8)
  }

  /** The bits with w added to the first 32 of them. */
  function AddFront(bits: seq<bool>, w: Word): (r: seq<bool>)
    requires |bits| >= 32
    ensures |r| == |bits|
  {
    seq(|bits|, i requires 0 <= i < |bits| => if i < 32 then bits[i] != w[i] else bits[i])
  }

  // --- The polynomial, as a number ---

  function Bit(b: bool): nat {
    if b then 1 else 0
  }

  lemma OneBit(x: nat, y: nat, b: bool, n: nat)
    requires x == Bit(b) + 2 * y
    ensures ToBits(x, n + 1) == [b] + ToBits(y, n)
  {
  }

  lemma FourBits(x: nat, y: nat, b0: bool, b1: bool, b2: bool, b3: bool, n: nat)
    requires x == Bit(b0) + 2 * Bit(b1) + 4 * Bit(b2) + 8 * Bit(b3) + 16 * y
    ensures ToBits(x, n + 4) == [b0, b1, b2, b3] + ToBits(y, n)
  {
    hide ToBits;
    OneBit(x, Bit(b1) + 2 * Bit(b2) + 4 * Bit(b3) + 8 * y, b0, n + 3);
    OneBit(Bit(b1) + 2 * Bit(b2) + 4 * Bit(b3) + 8 * y, Bit(b2) + 2 * Bit(b3) + 4 * y, b1, n + 2);
    OneBit(Bit(b2) + 2 * Bit(b3) + 4 * y, Bit(b3) + 2 * y, b2, n + 1);
    OneBit(Bit(b3) + 2 * y, y, b3, n);
  }

  lemma LowBits()
    ensures ToBits(0xedb88320, 32) == [false, false, false, false, false, true, false, false, true, true, false, false, false, false, false, true]
                                      + ToBits(0xedb8, 16)
  {
    hide ToBits;
    FourBits(0xedb88320, 0xedb8832, false, false, false, false, 28);
    FourBits(0xedb8832, 0xedb883, false, true, false, false, 24);
    FourBits(0xedb883, 0xedb88, true, true, false, false, 20);
    FourBits(0xedb88, 0xedb8, false, false, false, true, 16);
  }

  lemma HighBits()
    ensures ToBits(0xedb8, 16) == [false, false, false, true, true, true, false, true, true, false, true, true, false, true, true, true]
  {
    hide ToBits;
    FourBits(0xedb8, 0xedb, false, false, false, true, 12);
    FourBits(0xedb, 0xed, true, true, false, true, 8);
    FourBits(0xed, 0xe, true, false, true, true, 4);
    FourBits(0xe, 0x0, false, true, true, true, 0);
    NoBits();
  }

  lemma NoBits()
    ensures ToBits(0, 0) == []
  {
  }

  /** The reflected polynomial holds the coefficient of the power 31 - i at bit i. */
  lemma PolynomialIsStandard(i: nat)
    requires i < 32
    ensures POLYNOMIAL[i] <==> 31 - i in EXPONENTS
  {
    LowBits();
    HighBits();
    hide ToBits;
  }

  // --- Bit by bit ---

  /** The register after a bit has met its first one. */
  function Met(w: Word, b: bool): Word {
    w[0 := w[0] != b]
  }

  function Fed(w: Word, bits: seq<bool>): Word
    decreases |bits|
  {
    if bits == [] then w else Fed(ShiftBit(Met(w, bits[0])), bits[1..])
  }

  lemma {:induction false} FedConcat(w: Word, a: seq<bool>, b: seq<bool>)
    ensures Fed(w, a + b) == Fed(Fed(w, a), b)
    decreases |a|
  {
    hide ShiftBit, Met;
    if a == [] {
      assert a + b == b;
    } else {
      assert (a + b)[1..] == a[1..] + b;
      FedConcat(ShiftBit(Met(w, a[0])), a[1..], b);
    }
  }

  lemma SubtractedAt(bits: seq<bool>, i: nat)
    requires |bits| > 32 && i < |bits| - 1
    ensures Subtracted(bits)[1..][i] == (bits[i + 1] != (i < 32 && POLYNOMIAL[i]))
  {
    if i < 32 {
      PolynomialIsStandard(i);
    }
    hide POLYNOMIAL;
  }

  /** One step of the division is one step of the register. */
  lemma DivisionStep(w: Word, bits: seq<bool>)
    requires bits != []
    ensures var dividend := AddFront(bits + ZERO, w);
            (if dividend[0] then Subtracted(dividend)[1..] else dividend[1..])
            == AddFront(bits[1..] + ZERO, ShiftBit(Met(w, bits[0])))
  {
    var dividend := AddFront(bits + ZERO, w);
    var rest := bits[1..] + ZERO;
    var next := if dividend[0] then Subtracted(dividend)[1..] else dividend[1..];
    var v := ShiftBit(Met(w, bits[0]));
    hide POLYNOMIAL, ZERO, ShiftBit, Subtracted;
    forall i | 0 <= i < |rest| ensures next[i] == AddFront(rest, v)[i] {
      assert (bits + ZERO)[i + 1] == rest[i];
      if dividend[0] {
        SubtractedAt(dividend, i);
      }
      if i < 32 {
        ShiftBitAt(Met(w, bits[0]), i);
      }
    }
  }

  lemma {:induction false} DivisionFeeds(w: Word, bits: seq<bool>)
    ensures Remainder(AddFront(bits + ZERO, w)) == Fed(w, bits)
    decreases |bits|
  {
    if bits == [] {
      assert AddFront(bits + ZERO, w) == w;
    } else {
      hide ShiftBit, Met, Subtracted, AddFront, ZERO;
      DivisionStep(w, bits);
      DivisionFeeds(ShiftBit(Met(w, bits[0])), bits[1..]);
    }
  }

  // --- Byte by byte ---

  lemma {:induction false} ShiftFirst(v: Word, n: nat)
    ensures ShiftBits(v, n + 1) == ShiftBits(ShiftBit(v), n)
  {
    hide ShiftBit;
    if n > 0 {
      ShiftFirst(v, n - 1);
    }
  }

  function Padded(bits: seq<bool>): Word
    requires |bits| <= 32
  {
    bits + Repeat(false, 32 - |bits|)
  }

  lemma PaddedStep(v: Word, bits: seq<bool>)
    requires 0 < |bits| <= 32
    ensures ShiftBit(Xor(v, Padded(bits))) == Xor(ShiftBit(Met(v, bits[0])), Padded(bits[1..]))
  {
    var x, y := Xor(v, Padded(bits)), Met(v, bits[0]);
    hide ShiftBit, POLYNOMIAL;
    forall i | 0 <= i < 32 ensures ShiftBit(x)[i] == Xor(ShiftBit(y), Padded(bits[1..]))[i] {
      ShiftBitAt(x, i);
      ShiftBitAt(y, i);
      assert i < 31 ==> Padded(bits)[i + 1] == Padded(bits[1..])[i];
    }
  }

  lemma {:induction false} FedBits(v: Word, bits: seq<bool>)
    requires |bits| <= 32
    ensures Fed(v, bits) == ShiftBits(Xor(v, Padded(bits)), |bits|)
    decreases |bits|
  {
    if bits == [] {
      assert Xor(v, Padded(bits)) == v;
    } else {
      hide ShiftBit, Met, Padded, Xor;
      FedBits(ShiftBit(Met(v, bits[0])), bits[1..]);
      PaddedStep(v, bits);
      ShiftFirst(Xor(v, Padded(bits)), |bits| - 1);
    }
  }

  lemma {:induction false} MoreBits(x: nat, n: nat, m: nat)
    requires x < Pow2(n)
    ensures ToBits(x, n + m) == ToBits(x, n) + Repeat(false, m)
  {
    if n > 0 {
      MoreBits(x / 2, n - 1, m);
      assert ToBits(x, n + m) == [x % 2 == 1] + ToBits(x / 2, n - 1 + m);
    } else {
      ZeroBits(m);
    }
  }

  lemma {:induction false} ZeroBits(m: nat)
    ensures ToBits(0, m) == Repeat(false, m)
  {
    if m > 0 {
      ZeroBits(m - 1);
      forall i | 0 <= i < m ensures !ToBits(0, m)[i] {
        assert ToBits(0, m) == [false] + ToBits(0, m - 1);
      }
    }
  }

  lemma FedByte(v: Word, b: byte)
    ensures Fed(v, ToBits(b as nat, 8)) == ShiftByte(v, b)
  {
    Pow2Word();
    MoreBits(b as nat, 8, 24);
    FedBits(v, ToBits(b as nat, 8));
    hide ToBits, Pow2, Xor, ShiftBits;
  }

  lemma {:induction false} AbsorbIsFed(v: Word, data: seq<byte>)
    ensures Absorb(v, data) == Fed(v, Bits(data))
  {
    hide ShiftByte, ToBits, Fed;
    if data != [] {
      var before, last := data[..|data| - 1], data[|data| - 1];
      AbsorbIsFed(v, before);
      FedConcat(v, Bits(before), ToBits(last as nat, 8));
      FedByte(Absorb(v, before), last);
    } else {
      FedNothing(v);
    }
  }

  lemma FedNothing(v: Word)
    ensures Fed(v, []) == v
  {
  }

  /** For every message: its checksum is the complement of the remainder of its bits, the first 32 of the bits
      complemented and 32 zero bits appended, on division by the generator polynomial. */
  lemma ChecksumIsRemainder(data: seq<byte>)
    ensures Checksum(data) == Xor(Remainder(AddFront(Bits(data) + ZERO, ONES)), ONES)
  {
    hide Absorb, Fed, Bits, Remainder, AddFront;
    assert Xor(ZERO, ONES) == ONES;
    AbsorbIsFed(ONES, data);
    DivisionFeeds(ONES, Bits(data));
  }
}
