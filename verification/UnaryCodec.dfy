/** A sound record codec exists, so what is proved for every sound codec is not empty. */
module UnaryCodec {
  import opened Options
  import opened Ndjson

  /** n ones and a zero. */
  function Unary(n: nat): Bytes {
    if n == 0 then [0] else [1] + Unary(n - 1)
  }

  function Numbers(ns: seq<nat>): Bytes {
    if ns == [] then [] else Unary(ns[0]) + Numbers(ns[1..])
  }

  function Codes(s: string): seq<nat> {
    seq(|s|, i requires 0 <= i < |s| => s[i] as nat)
  }

  /** The fields of a record as numbers; the length of the chunk separates the two texts. */
  function Fields(e: Entry): seq<nat> {
    [e.sequence, if e.stream == Stdout then 0 else 1, |e.chunk|] + Codes(e.chunk) + Codes(e.emittedAt)
  }

  function Encoded(e: Entry): Bytes {
    Numbers(Fields(e))
  }

  lemma {:induction false} UnaryIsPrefixFree(a: nat, b: nat, x: Bytes, y: Bytes)
    requires Unary(a) + x == Unary(b) + y
    ensures a == b && x == y
  {
    assert (Unary(a) + x)[0] == Unary(a)[0] && (Unary(b) + y)[0] == Unary(b)[0];
    if a > 0 && b > 0 {
      assert (Unary(a) + x)[1..] == Unary(a - 1) + x;
      assert (Unary(b) + y)[1..] == Unary(b - 1) + y;
      UnaryIsPrefixFree(a - 1, b - 1, x, y);
    } else {
      assert (Unary(a) + x)[1..] == x && (Unary(b) + y)[1..] == y;
    }
  }

  lemma {:induction false} NumbersInjective(a: seq<nat>, b: seq<nat>)
    requires Numbers(a) == Numbers(b)
    ensures a == b
  {
    if a != [] && b != [] {
      UnaryIsPrefixFree(a[0], b[0], Numbers(a[1..]), Numbers(b[1..]));
      NumbersInjective(a[1..], b[1..]);
      assert a == [a[0]] + a[1..] && b == [b[0]] + b[1..];
    }
  }

  lemma CodesInjective(s: string, t: string)
    requires Codes(s) == Codes(t)
    ensures s == t
  {
    assert |Codes(s)| == |s| && |Codes(t)| == |t|;
    forall i | 0 <= i < |s| ensures s[i] == t[i] {
      assert Codes(s)[i] == s[i] as nat && Codes(t)[i] == t[i] as nat;
    }
  }

  lemma FieldsInjective(a: Entry, b: Entry)
    requires Fields(a) == Fields(b)
    ensures a == b
  {
    assert Fields(a)[0] == Fields(b)[0] && Fields(a)[1] == Fields(b)[1] && Fields(a)[2] == Fields(b)[2];
    var n := |a.chunk|;
    assert Fields(a)[3..3 + n] == Codes(a.chunk) && Fields(b)[3..3 + n] == Codes(b.chunk);
    assert Fields(a)[3 + n..] == Codes(a.emittedAt) && Fields(b)[3 + n..] == Codes(b.emittedAt);
    CodesInjective(a.chunk, b.chunk);
    CodesInjective(a.emittedAt, b.emittedAt);
  }

  lemma {:induction false} UnaryHasNoBreak(n: nat)
    ensures forall i :: 0 <= i < |Unary(n)| ==> Unary(n)[i] != NEWLINE
  {
    if n > 0 {
      UnaryHasNoBreak(n - 1);
    }
  }

  lemma {:induction false} NumbersHaveNoBreak(ns: seq<nat>)
    ensures forall i :: 0 <= i < |Numbers(ns)| ==> Numbers(ns)[i] != NEWLINE
  {
    if ns != [] {
      UnaryHasNoBreak(ns[0]);
      NumbersHaveNoBreak(ns[1..]);
    }
  }

  lemma EncodedIsUnbroken(e: Entry)
    ensures Unbroken(Encoded(e))
  {
    NumbersHaveNoBreak(Fields(e));
    assert Fields(e) != [];
    assert |Unary(Fields(e)[0])| > 0;
  }

  ghost function Decoded(line: Bytes): Option<Entry> {
    if exists e :: Encoded(e) == line then
      var e :| Encoded(e) == line;
      Some(e)
    else None
  }

  lemma DecodedIs(e: Entry)
    ensures Decoded(Encoded(e)) == Some(e)
  {
    var decoded := Decoded(Encoded(e));
    assert decoded.Some? && Encoded(decoded.value) == Encoded(e) by {
      hide Encoded;
    }
    NumbersInjective(Fields(decoded.value), Fields(e));
    FieldsInjective(decoded.value, e);
  }

  /** There is a sound codec. */
  lemma SoundCodecExists() returns (c: Codec)
    ensures Sound(c)
  {
    c := Codec(Encoded, line => Decoded(line));
    forall e ensures Unbroken(c.enc(e)) && c.dec(c.enc(e)) == Some(e) {
      EncodedIsUnbroken(e);
      DecodedIs(e);
    }
  }
}
