/** UTF-8 and UTF-16 sizes of text, and the UTF-8 encoder used for file names. */
module Utf8 {
  newtype byte = x: int | 0 <= x < 256

  /** Bytes that UTF-8 needs for one Unicode scalar value. */
  function Width(c: char): (w: nat)
    ensures 1 <= w <= 4
  {
    var p := c as int;
    if p < 0x80 then 1 else if p < 0x800 then 2 else if p < 0x10000 then 3 else 4
  }

  function ByteLen(s: string): nat {
    if s == "" then 0 else ByteLen(s[..|s| - 1]) + Width(s[|s| - 1])
  }

  /** UTF-16 code units of one scalar value: the unit in which JavaScript counts `length`. */
  function Units(c: char): nat {
    if c as int < 0x10000 then 1 else 2
  }

  function UnitLen(s: string): nat {
    if s == "" then 0 else UnitLen(s[..|s| - 1]) + Units(s[|s| - 1])
  }

  function Continuation(bits: int): byte
    requires 0 <= bits
  {
    (0x80 + bits % 0x40) as byte
  }

  function EncodeChar(c: char): (bs: seq<byte>)
    ensures |bs| == Width(c)
  {
    var p := c as int;
    if p < 0x80 then [p as byte]
    else if p < 0x800 then [(0xC0 + p / 0x40) as byte, Continuation(p)]
    else if p < 0x10000 then [(0xE0 + p / 0x1000) as byte, Continuation(p / 0x40), Continuation(p)]
    else [(0xF0 + p / 0x40000) as byte, Continuation(p / 0x1000), Continuation(p / 0x40), Continuation(p)]
  }

  function Encode(s: string): (bs: seq<byte>)
    ensures |bs| == ByteLen(s)
  {
    if s == "" then [] else Encode(s[..|s| - 1]) + EncodeChar(s[|s| - 1])
  }

  lemma {:induction false} ByteLenConcat(a: string, b: string)
    ensures ByteLen(a + b) == ByteLen(a) + ByteLen(b)
  {
    if b == "" {
      assert a + b == a;
    } else {
      assert (a + b)[..|a + b| - 1] == a + b[..|b| - 1];
      ByteLenConcat(a, b[..|b| - 1]);
    }
  }

  /** UTF-8 spends at most three bytes on each UTF-16 unit. */
  lemma {:induction false} ThreeBytesPerUnit(s: string)
    ensures ByteLen(s) <= 3 * UnitLen(s)
  {
    if s != "" {
      ThreeBytesPerUnit(s[..|s| - 1]);
    }
  }
}
