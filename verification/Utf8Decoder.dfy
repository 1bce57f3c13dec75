/** A decoder for UTF-8 written from the byte patterns of RFC 3629, section 3 and the syntax of its section 4, and
    that it inverts the encoder. */
module Utf8Decoder {
  import opened Options
  import opened Utf8

  /** One character, and how many bytes it takes. */
  datatype Decoded = Decoded(c: char, width: nat)

  /** 10xxxxxx */
  predicate Tail(b: byte) {
    0x80 <= b <= 0xBF
  }

  /** The six bits a tail byte carries. */
  function Bits(b: byte): nat
    requires Tail(b)
  {
    b as nat - 0x80
  }

  /** 0xxxxxxx: UTF8-1. */
  function One(b: byte): Option<Decoded> {
    if b <= 0x7F then Some(Decoded(b as int as char, 1)) else None
  }

  /** 110xxxxx 10xxxxxx: UTF8-2, from C2 on, as C0 and C1 would be overlong. */
  function Two(a: byte, b: byte): Option<Decoded> {
    if 0xC2 <= a <= 0xDF && Tail(b) then Some(Decoded(((a as nat - 0xC0) * 0x40 + Bits(b)) as char, 2)) else None
  }

  /** 1110xxxx 10xxxxxx 10xxxxxx: UTF8-3, neither overlong nor a surrogate. */
  function Three(a: byte, b: byte, d: byte): Option<Decoded> {
    if 0xE0 <= a <= 0xEF && Tail(b) && Tail(d) && (a == 0xE0 ==> b >= 0xA0) && (a == 0xED ==> b <= 0x9F) then
      Some(Decoded(((a as nat - 0xE0) * 0x1000 + Bits(b) * 0x40 + Bits(d)) as char, 3))
    else None
  }

  /** 11110xxx 10xxxxxx 10xxxxxx 10xxxxxx: UTF8-4, neither overlong nor beyond 10FFFF. */
  function Four(a: byte, b: byte, d: byte, e: byte): Option<Decoded> {
    if 0xF0 <= a <= 0xF4 && Tail(b) && Tail(d) && Tail(e) && (a == 0xF0 ==> b >= 0x90) && (a == 0xF4 ==> b <= 0x8F) then
      Some(Decoded(((a as nat - 0xF0) * 0x4_0000 + Bits(b) * 0x1000 + Bits(d) * 0x40 + Bits(e)) as char, 4))
    else None
  }

  function First(bs: seq<byte>): (r: Option<Decoded>)
    ensures r.Some? ==> 1 <= r.value.width <= |bs|
  {
    if bs == [] then None
    else if One(bs[0]).Some? then One(bs[0])
    else if |bs| >= 2 && Two(bs[0], bs[1]).Some? then Two(bs[0], bs[1])
    else if |bs| >= 3 && Three(bs[0], bs[1], bs[2]).Some? then Three(bs[0], bs[1], bs[2])
    else if |bs| >= 4 then Four(bs[0], bs[1], bs[2], bs[3])
    else None
  }

  /** The text the bytes encode; None if they are not UTF-8. */
  function Decode(bs: seq<byte>): Option<string>
    decreases |bs|
  {
    if bs == [] then Some("")
    else
      var first := First(bs);
      if first.None? then None
      else
        var rest := Decode(bs[first.value.width..]);
        if rest.None? then None else Some([first.value.c] + rest.value)
  }

  lemma TwoOfChar(c: char)
    requires 0x80 <= c as int < 0x800
    ensures var e := EncodeChar(c);
            |e| == 2 && One(e[0]).None? && Two(e[0], e[1]) == Some(Decoded(c, 2))
  {
  }

  lemma ThreeOfChar(c: char)
    requires 0x800 <= c as int < 0x10000
    ensures var e := EncodeChar(c);
            |e| == 3 && One(e[0]).None? && Two(e[0], e[1]).None? && Three(e[0], e[1], e[2]) == Some(Decoded(c, 3))
  {
    var p := c as int;
    assert p == p / 0x1000 * 0x1000 + p / 0x40 % 0x40 * 0x40 + p % 0x40;
  }

  lemma FourOfChar(c: char)
    requires 0x10000 <= c as int
    ensures var e := EncodeChar(c);
            |e| == 4 && One(e[0]).None? && Two(e[0], e[1]).None? && Three(e[0], e[1], e[2]).None?
            && Four(e[0], e[1], e[2], e[3]) == Some(Decoded(c, 4))
  {
    var p := c as int;
    assert p == p / 0x4_0000 * 0x4_0000 + p / 0x1000 % 0x40 * 0x1000 + p / 0x40 % 0x40 * 0x40 + p % 0x40;
  }

  lemma OneOfChar(c: char)
    requires c as int < 0x80
    ensures var e := EncodeChar(c);
            |e| == 1 && One(e[0]) == Some(Decoded(c, 1))
  {
  }

  /** One character round-trips, whatever follows it. */
  lemma FirstOfChar(c: char, rest: seq<byte>)
    ensures First(EncodeChar(c) + rest) == Some(Decoded(c, |EncodeChar(c)|))
  {
    hide EncodeChar, One, Two, Three, Four;
    var p, e := c as int, EncodeChar(c);
    assert forall i :: 0 <= i < |e| ==> (e + rest)[i] == e[i];
    if p < 0x80 {
      OneOfChar(c);
    } else if p < 0x800 {
      TwoOfChar(c);
    } else if p < 0x10000 {
      ThreeOfChar(c);
    } else {
      FourOfChar(c);
    }
  }

  lemma {:induction false} EncodeCons(c: char, s: string)
    ensures Encode([c] + s) == EncodeChar(c) + Encode(s)
  {
    hide EncodeChar;
    var t := [c] + s;
    if s == "" {
      assert t[..0] == "";
    } else {
      assert t[..|t| - 1] == [c] + s[..|s| - 1];
      EncodeCons(c, s[..|s| - 1]);
    }
  }

  /** Every text is recovered from its encoding. */
  lemma {:induction false} DecodeEncode(s: string)
    ensures Decode(Encode(s)) == Some(s)
  {
    if s != "" {
      assert s == [s[0]] + s[1..];
      EncodeCons(s[0], s[1..]);
      FirstOfChar(s[0], Encode(s[1..]));
      DecodeEncode(s[1..]);
      var bs := EncodeChar(s[0]) + Encode(s[1..]);
      assert bs[|EncodeChar(s[0])|..] == Encode(s[1..]);
    }
  }

  lemma OneIsEncoded(a: byte)
    ensures One(a).Some? ==> One(a).value.width == 1 && EncodeChar(One(a).value.c) == [a]
  {
  }

  lemma TwoIsEncoded(a: byte, b: byte)
    ensures Two(a, b).Some? ==> Two(a, b).value.width == 2 && EncodeChar(Two(a, b).value.c) == [a, b]
  {
  }

  lemma ThreeIsEncoded(a: byte, b: byte, d: byte)
    ensures Three(a, b, d).Some? ==> Three(a, b, d).value.width == 3 && EncodeChar(Three(a, b, d).value.c) == [a, b, d]
  {
  }

  lemma Digits(x: nat, y: nat, z: nat, w: nat)
    requires y < 0x40 && z < 0x40 && w < 0x40
    ensures var p := x * 0x4_0000 + y * 0x1000 + z * 0x40 + w;
            p % 0x40 == w && p / 0x40 % 0x40 == z && p / 0x1000 % 0x40 == y && p / 0x4_0000 == x
  {
    var p := x * 0x4_0000 + y * 0x1000 + z * 0x40 + w;
    assert p / 0x40 == x * 0x1000 + y * 0x40 + z;
    assert p / 0x1000 == x * 0x40 + y;
  }

  lemma FourIsEncoded(a: byte, b: byte, d: byte, e: byte)
    ensures Four(a, b, d, e).Some? ==> Four(a, b, d, e).value.width == 4 && EncodeChar(Four(a, b, d, e).value.c) == [a, b, d, e]
  {
    if Four(a, b, d, e).Some? {
      var x, y, z, w := a as nat - 0xF0, Bits(b), Bits(d), Bits(e);
      Digits(x, y, z, w);
      var p := x * 0x4_0000 + y * 0x1000 + z * 0x40 + w;
      assert Four(a, b, d, e).value.c == p as char;
      assert p >= 0x10000;
      EncodeFour(p, a, b, d, e);
    }
  }

  lemma EncodeFour(p: nat, a: byte, b: byte, d: byte, e: byte)
    requires 0x10000 <= p < 0x110000
    requires a as nat == 0xF0 + p / 0x4_0000 && b as nat == 0x80 + p / 0x1000 % 0x40
    requires d as nat == 0x80 + p / 0x40 % 0x40 && e as nat == 0x80 + p % 0x40
    ensures EncodeChar(p as char) == [a, b, d, e]
  {
  }

  lemma FirstIsEncoded(bs: seq<byte>)
    requires First(bs).Some?
    ensures bs[..First(bs).value.width] == EncodeChar(First(bs).value.c)
  {
    hide EncodeChar, One, Two, Three, Four;
    OneIsEncoded(bs[0]);
    if |bs| >= 2 {
      TwoIsEncoded(bs[0], bs[1]);
    }
    if |bs| >= 3 {
      ThreeIsEncoded(bs[0], bs[1], bs[2]);
    }
    if |bs| >= 4 {
      FourIsEncoded(bs[0], bs[1], bs[2], bs[3]);
    }
  }

  /** And only encodings are decoded: the two are inverse to each other. */
  lemma {:induction false} EncodeDecode(bs: seq<byte>)
    requires Decode(bs).Some?
    ensures Encode(Decode(bs).value) == bs
    decreases |bs|
  {
    hide First, EncodeChar;
    if bs != [] {
      var first := First(bs).value;
      EncodeDecode(bs[first.width..]);
      FirstIsEncoded(bs);
      EncodeCons(first.c, Decode(bs[first.width..]).value);
      assert bs == bs[..first.width] + bs[first.width..];
    }
  }
}
