/** The bitwise CRC-32 of section 4.4.7 of APPNOTE, on 32-bit words written out bit by bit. */
module Crc32 {
  import opened Utf8

  /** A 32-bit word, least significant bit first. */
  type Word = w: seq<bool> | |w| == 32 witness Repeat(false, 32)

  function Repeat(bit: bool, n: nat): (bits: seq<bool>)
    ensures |bits| == n && forall i :: 0 <= i < n ==> bits[i] == bit
  {
    if n == 0 then [] else Repeat(bit, n - 1) + [bit]
  }

  function Pow2(n: nat): (p: nat)
    ensures 0 < p
  {
    if n == 0 then 1 else 2 * Pow2(n - 1)
  }

  /** The n low bits of x. */
  function ToBits(x: nat, n: nat): (bits: seq<bool>)
    ensures |bits| == n
  {
    if n == 0 then [] else [x % 2 == 1] + ToBits(x / 2, n - 1)
  }

  /** The unsigned number that the bits stand for. */
  function Value(bits: seq<bool>): nat {
    if bits == [] then 0 else (if bits[0] then 1 else 0) + 2 * Value(bits[1..])
  }

  function Xor(a: Word, b: Word): Word {
    seq(32, i requires 0 <= i < 32 => a[i] != b[i])
  }

  const POLYNOMIAL: Word := ToBits(0xedb88320, 32)
  const ONES: Word := Repeat(true, 32)

  /** A byte as the low eight bits of a word. */
  function Widen(b: byte): Word {
    ToBits(b as nat, 32)
  }

  /** `(v >>> 1) ^ (v & 1 ? POLYNOMIAL : 0)` */
  function ShiftBit(v: Word): Word {
    var shifted: Word := v[1..] + [false];
    if v[0] then Xor(shifted, POLYNOMIAL) else shifted
  }

  function ShiftBits(v: Word, n: nat): Word {
    if n == 0 then v else ShiftBit(ShiftBits(v, n - 1))
  }

  function ShiftByte(v: Word, b: byte): Word {
    ShiftBits(Xor(v, Widen(b)), 8)
  }

  function Absorb(v: Word, chunk: seq<byte>): Word {
    if chunk == [] then v else ShiftByte(Absorb(v, chunk[..|chunk| - 1]), chunk[|chunk| - 1])
  }

  /** The checksum of more bytes, given the checksum so far. */
  function Update(crc: Word, chunk: seq<byte>): Word {
    Xor(Absorb(Xor(crc, ONES), chunk), ONES)
  }

  const ZERO: Word := Repeat(false, 32)

  function Checksum(data: seq<byte>): Word {
    Update(ZERO, data)
  }

  method Crc32Update(crc: Word, chunk: seq<byte>) returns (next: Word)
    ensures next == Update(crc, chunk)
  {
    var value := Xor(crc, ONES);
    for i := 0 to |chunk|
      invariant value == Absorb(Xor(crc, ONES), chunk[..i])
    {
      assert chunk[..i + 1][..i] == chunk[..i];
      ghost var before := Xor(value, Widen(chunk[i]));
      value := Xor(value, Widen(chunk[i]));
      for bit := 0 to 8
        invariant value == ShiftBits(before, bit)
      {
        value := ShiftBit(value);
      }
    }
    assert chunk[..|chunk|] == chunk;
    next := Xor(value, ONES);
  }

  // --- Words as numbers ---

  lemma {:induction false} ValueOfBits(x: nat, n: nat)
    requires x < Pow2(n)
    ensures Value(ToBits(x, n)) == x
  {
    if n > 0 {
      ValueOfBits(x / 2, n - 1);
      assert ToBits(x, n)[1..] == ToBits(x / 2, n - 1);
    }
  }

  lemma {:induction false} ValueBound(bits: seq<bool>)
    ensures Value(bits) < Pow2(|bits|)
  {
    if bits != [] {
      ValueBound(bits[1..]);
    }
  }

  lemma ValueStep(bits: seq<bool>)
    requires bits != []
    ensures bits == [bits[0]] + bits[1..]
    ensures bits[0] ==> Value(bits) == 1 + 2 * Value(bits[1..])
    ensures !bits[0] ==> Value(bits) == 2 * Value(bits[1..])
  {
  }

  lemma {:induction false} ValueInjective(a: seq<bool>, b: seq<bool>)
    requires |a| == |b| && Value(a) == Value(b)
    ensures a == b
  {
    hide Value;
    if a != [] {
      ValueStep(a);
      ValueStep(b);
      ValueInjective(a[1..], b[1..]);
    }
  }

  lemma Pow2Word()
    ensures Pow2(8) == 256 && Pow2(31) == 0x8000_0000 && Pow2(32) == 0x1_0000_0000
  {
    assert Pow2(4) == 16;
    assert Pow2(8) == 16 * 16;
    assert Pow2(12) == 0x1000;
    assert Pow2(16) == 0x1_0000;
    assert Pow2(20) == 0x10_0000;
    assert Pow2(24) == 0x100_0000;
    assert Pow2(28) == 0x1000_0000;
    assert Pow2(31) == 0x8000_0000;
  }

  /** Bytes keep their identity as words. */
  lemma WidenInjective(a: byte, b: byte)
    requires Widen(a) == Widen(b)
    ensures a == b
  {
    hide ToBits, Value, Pow2;
    Pow2Word();
    ValueOfBits(a as nat, 32);
    ValueOfBits(b as nat, 32);
  }

  /** The polynomial has its top bit set, so a shift can be undone. */
  lemma PolynomialTopBit()
    ensures POLYNOMIAL[31]
  {
    hide ToBits, Value, Pow2;
    Pow2Word();
    ValueOfBits(0xedb88320, 32);
    if !POLYNOMIAL[31] {
      TopBitClear(POLYNOMIAL);
    }
  }

  lemma {:induction false} TopBitClear(bits: seq<bool>)
    requires bits != [] && !bits[|bits| - 1]
    ensures Value(bits) < Pow2(|bits| - 1)
  {
    if |bits| == 1 {
      assert bits[1..] == [];
    } else {
      TopBitClear(bits[1..]);
    }
  }

  // --- Composition ---

  lemma XorCancels(v: Word, m: Word)
    ensures Xor(Xor(v, m), m) == v
  {
  }

  lemma {:induction false} AbsorbConcat(v: Word, a: seq<byte>, b: seq<byte>)
    ensures Absorb(v, a + b) == Absorb(Absorb(v, a), b)
  {
    if b == [] {
      assert a + b == a;
    } else {
      assert (a + b)[..|a + b| - 1] == a + b[..|b| - 1];
      AbsorbConcat(v, a, b[..|b| - 1]);
    }
  }

  /** Feeding a and then b gives the checksum of a followed by b. */
  lemma UpdateConcat(crc: Word, a: seq<byte>, b: seq<byte>)
    ensures Update(crc, a + b) == Update(Update(crc, a), b)
  {
    AbsorbConcat(Xor(crc, ONES), a, b);
    XorCancels(Absorb(Xor(crc, ONES), a), ONES);
  }

  // --- Discrimination ---

  lemma XorInjective(v: Word, w: Word, m: Word)
    requires Xor(v, m) == Xor(w, m)
    ensures v == w
  {
    XorCancels(v, m);
    XorCancels(w, m);
  }

  lemma ShiftBitAt(v: Word, i: nat)
    requires i < 32
    ensures ShiftBit(v)[i] == ((i < 31 && v[i + 1]) != (v[0] && POLYNOMIAL[i]))
  {
    var shifted: Word := v[1..] + [false];
    assert shifted[i] == (i < 31 && v[i + 1]);
  }

  lemma ShiftBitInjective(v: Word, w: Word)
    requires ShiftBit(v) == ShiftBit(w)
    ensures v == w
  {
    hide ShiftBit, POLYNOMIAL, ToBits;
    PolynomialTopBit();
    ShiftBitAt(v, 31);
    ShiftBitAt(w, 31);
    forall i | 0 < i < 32 ensures v[i] == w[i] {
      ShiftBitAt(v, i - 1);
      ShiftBitAt(w, i - 1);
    }
  }

  lemma {:induction false} ShiftBitsInjective(v: Word, w: Word, n: nat)
    requires ShiftBits(v, n) == ShiftBits(w, n)
    ensures v == w
  {
    if n > 0 {
      ShiftBitInjective(ShiftBits(v, n - 1), ShiftBits(w, n - 1));
      ShiftBitsInjective(v, w, n - 1);
    }
  }

  /** One byte step loses nothing of the register. */
  lemma ShiftByteInjective(v: Word, w: Word, b: byte)
    requires ShiftByte(v, b) == ShiftByte(w, b)
    ensures v == w
  {
    ShiftBitsInjective(Xor(v, Widen(b)), Xor(w, Widen(b)), 8);
    XorInjective(v, w, Widen(b));
  }

  /** Different bytes leave different registers. */
  lemma ShiftByteSeparates(v: Word, a: byte, b: byte)
    requires ShiftByte(v, a) == ShiftByte(v, b)
    ensures a == b
  {
    ShiftBitsInjective(Xor(v, Widen(a)), Xor(v, Widen(b)), 8);
    forall i | 0 <= i < 32 ensures Widen(a)[i] == Widen(b)[i] {
      assert Xor(v, Widen(a))[i] == Xor(v, Widen(b))[i];
    }
    WidenInjective(a, b);
  }

  lemma {:induction false} AbsorbInjective(v: Word, w: Word, chunk: seq<byte>)
    requires Absorb(v, chunk) == Absorb(w, chunk)
    ensures v == w
  {
    if chunk != [] {
      var n := |chunk| - 1;
      ShiftByteInjective(Absorb(v, chunk[..n]), Absorb(w, chunk[..n]), chunk[n]);
      AbsorbInjective(v, w, chunk[..n]);
    }
  }

  lemma AbsorbAround(v: Word, head: seq<byte>, b: byte, tail: seq<byte>)
    ensures Absorb(v, head + [b] + tail) == Absorb(ShiftByte(Absorb(v, head), b), tail)
  {
    AbsorbConcat(v, head + [b], tail);
    assert (head + [b])[..|head + [b]| - 1] == head;
  }

  /** A message with one byte changed has a different checksum, whatever its length. */
  lemma OneByteChangesCrc(crc: Word, message: seq<byte>, i: nat, b: byte)
    requires i < |message| && message[i] != b
    ensures Update(crc, message) != Update(crc, message[i := b])
  {
    var head, tail := message[..i], message[i + 1..];
    assert message == head + [message[i]] + tail && message[i := b] == head + [b] + tail;
    if Update(crc, message) == Update(crc, message[i := b]) {
      var v := Xor(crc, ONES);
      XorInjective(Absorb(v, message), Absorb(v, message[i := b]), ONES);
      AbsorbAround(v, head, message[i], tail);
      AbsorbAround(v, head, b, tail);
      AbsorbInjective(ShiftByte(Absorb(v, head), message[i]), ShiftByte(Absorb(v, head), b), tail);
      ShiftByteSeparates(Absorb(v, head), message[i], b);
    }
  }
}
