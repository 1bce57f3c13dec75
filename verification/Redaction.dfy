/** Replacement of secrets in a whole text, and when it distributes over a cut of the text. */
module Redaction {
  const MARKER: string := "[REDACTED]"

  ghost predicate NoEmpty(values: seq<string>) {
    forall i :: 0 <= i < |values| ==> values[i] != ""
  }

  /** The text shares no character with the marker. */
  ghost predicate NoMark(s: string) {
    forall i :: 0 <= i < |s| ==> s[i] !in MARKER
  }

  predicate EndsWith(s: string, p: string) {
    |p| <= |s| && s[|s| - |p|..] == p
  }

  ghost predicate OccursAt(text: string, v: string, i: int) {
    0 <= i <= |text| - |v| && text[i..i + |v|] == v
  }

  ghost predicate Occurs(text: string, v: string) {
    exists i :: OccursAt(text, v, i)
  }

  /** Leftmost, non-overlapping replacement of v by the marker. */
  function Replace(text: string, v: string): string
    requires v != ""
    decreases |text|
  {
    if text == "" then ""
    else if v <= text then MARKER + Replace(text[|v|..], v)
    else [text[0]] + Replace(text[1..], v)
  }

  /** Every value in turn, in list order. */
  function RedactText(text: string, values: seq<string>): string
    requires NoEmpty(values)
    decreases |values|
  {
    if values == [] then text else RedactText(Replace(text, values[0]), values[1..])
  }

  /** No occurrence of v straddles the point between a and b. */
  ghost predicate NoCross(a: string, b: string, v: string) {
    forall k :: 0 < k < |v| ==> !(EndsWith(a, v[..k]) && v[k..] <= b)
  }

  // --- One replacement ---

  function Head(x: string, v: string): string
    requires x != ""
  {
    if v <= x then MARKER else [x[0]]
  }

  function Rest(x: string, v: string): (r: string)
    requires x != "" && v != ""
    ensures |r| < |x|
  {
    if v <= x then x[|v|..] else x[1..]
  }

  lemma ReplaceStep(x: string, v: string)
    requires x != "" && v != ""
    ensures Replace(x, v) == Head(x, v) + Replace(Rest(x, v), v)
    ensures v <= x ==> forall i :: 0 <= i < |Head(x, v)| ==> Head(x, v)[i] in MARKER
    ensures !(v <= x) ==> |Head(x, v)| == 1 && x == Head(x, v) + Rest(x, v)
    ensures EndsWith(x, Rest(x, v))
  {
    if !(v <= x) {
      assert x == [x[0]] + x[1..];
    }
  }

  lemma {:induction false} ReplaceUnmarked(x: string, v: string)
    requires v != "" && NoMark(Replace(x, v))
    ensures Replace(x, v) == x
    decreases |x|
  {
    if x != "" {
      var tail := Replace(Rest(x, v), v);
      ReplaceStep(x, v);
      assert Replace(x, v)[0] == Head(x, v)[0];
      assert forall i :: 0 <= i < |tail| ==> tail[i] == Replace(x, v)[i + |Head(x, v)|];
      ReplaceUnmarked(Rest(x, v), v);
    }
  }

  lemma {:induction false} PrefixOrigin(x: string, v: string, p: string)
    requires v != "" && NoMark(p) && p <= Replace(x, v)
    ensures p <= x
    decreases |x|
  {
    if x != "" && p != "" {
      var tail := Replace(Rest(x, v), v);
      ReplaceStep(x, v);
      assert p[0] == Head(x, v)[0];
      assert |Head(x, v)| == 1;
      assert p[1..] <= tail;
      PrefixOrigin(Rest(x, v), v, p[1..]);
      assert p == [p[0]] + p[1..];
    }
  }

  lemma SuffixInTail(head: string, tail: string, s: string)
    requires EndsWith(head + tail, s) && |s| <= |tail|
    ensures EndsWith(tail, s)
  {
  }

  lemma SuffixPastTail(head: string, tail: string, s: string)
    requires EndsWith(head + tail, s) && |s| > |tail|
    ensures s[|s| - |tail| - 1] == head[|head| - 1]
    ensures s[|s| - |tail|..] == tail
  {
    var whole := head + tail;
    assert s == whole[|whole| - |s|..];
  }

  lemma WholeSuffix(head: string, tail: string, s: string)
    requires |head| == 1 && EndsWith(head + tail, s) && |s| > |tail|
    ensures s == head + tail
    ensures NoMark(s) ==> NoMark(tail)
  {
    assert forall i :: 0 <= i < |tail| ==> tail[i] == (head + tail)[i + 1];
  }

  lemma EndsWithTrans(a: string, b: string, c: string)
    requires EndsWith(a, b) && EndsWith(b, c)
    ensures EndsWith(a, c)
  {
    assert a[|a| - |c|..] == b[|b| - |c|..];
  }

  lemma {:induction false} SuffixOrigin(x: string, v: string, s: string)
    requires v != "" && NoMark(s) && EndsWith(Replace(x, v), s)
    ensures EndsWith(x, s)
    decreases |x|
  {
    if x != "" {
      hide Head, Rest, Replace;
      var tail := Replace(Rest(x, v), v);
      ReplaceStep(x, v);
      if |s| <= |tail| {
        SuffixInTail(Head(x, v), tail, s);
        SuffixOrigin(Rest(x, v), v, s);
        EndsWithTrans(x, Rest(x, v), s);
      } else {
        SuffixPastTail(Head(x, v), tail, s);
        assert |Head(x, v)| == 1;
        WholeSuffix(Head(x, v), tail, s);
        ReplaceUnmarked(Rest(x, v), v);
      }
    }
  }

  lemma OccursInTail(head: string, tail: string, w: string, i: nat)
    requires |head| <= i
    ensures OccursAt(head + tail, w, i) <==> OccursAt(tail, w, i - |head|)
  {
    if i + |w| <= |head + tail| {
      assert tail[i - |head|..i - |head| + |w|] == (head + tail)[i..i + |w|];
    }
  }

  lemma OccursTouchesHead(head: string, tail: string, w: string, i: nat)
    requires i < |head| && w != "" && OccursAt(head + tail, w, i)
    ensures w[0] == head[i]
  {
    assert (head + tail)[i..i + |w|][0] == head[i];
  }

  lemma OccursPrepend(x: string, r: string, w: string, j: nat)
    requires EndsWith(x, r) && OccursAt(r, w, j)
    ensures OccursAt(x, w, |x| - |r| + j)
  {
    assert x == x[..|x| - |r|] + r;
    OccursInTail(x[..|x| - |r|], r, w, |x| - |r| + j);
  }

  lemma OccursAtHead(x: string, v: string, w: string, i: nat)
    requires x != "" && v != "" && w != "" && NoMark(w)
    requires OccursAt(Replace(x, v), w, i) && i < |Head(x, v)|
    ensures OccursAt(x, w, 0)
  {
    ReplaceStep(x, v);
    OccursTouchesHead(Head(x, v), Replace(Rest(x, v), v), w, i);
    assert w[0] !in MARKER;
    assert i == 0 && w == Replace(x, v)[..|w|];
    PrefixOrigin(x, v, w);
    assert x[..|w|] == w;
  }

  lemma {:induction false} OccursOrigin(x: string, v: string, w: string, i: nat) returns (j: nat)
    requires v != "" && w != "" && NoMark(w) && OccursAt(Replace(x, v), w, i)
    ensures OccursAt(x, w, j)
    decreases |x|
  {
    if i < |Head(x, v)| {
      OccursAtHead(x, v, w, i);
      j := 0;
    } else {
      ReplaceStep(x, v);
      OccursInTail(Head(x, v), Replace(Rest(x, v), v), w, i);
      j := OccursOrigin(Rest(x, v), v, w, i - |Head(x, v)|);
      OccursPrepend(x, Rest(x, v), w, j);
      j := |x| - |Rest(x, v)| + j;
    }
  }

  /** Replacing v removes every occurrence of v. */
  lemma {:induction false} ReplaceRemoves(x: string, v: string, i: nat)
    requires v != "" && NoMark(v)
    ensures !OccursAt(Replace(x, v), v, i)
    decreases |x|
  {
    if OccursAt(Replace(x, v), v, i) {
      ReplaceStep(x, v);
      var head, rest := Head(x, v), Rest(x, v);
      if |head| <= i {
        OccursInTail(head, Replace(rest, v), v, i);
        ReplaceRemoves(rest, v, i - |head|);
      } else {
        OccursTouchesHead(head, Replace(rest, v), v, i);
        assert v[0] !in MARKER;
        assert i == 0 && v <= Replace(x, v);
        PrefixOrigin(x, v, v);
      }
    }
  }

  lemma {:induction false} ReplaceAbsent(x: string, v: string)
    requires v != "" && !Occurs(x, v)
    ensures Replace(x, v) == x
    decreases |x|
  {
    if x != "" {
      assert !OccursAt(x, v, 0);
      ReplaceStep(x, v);
      forall i ensures !OccursAt(x[1..], v, i) {
        assert !OccursAt(x, v, i + 1);
        if 0 <= i {
          OccursInTail([x[0]], x[1..], v, i + 1);
        }
      }
      ReplaceAbsent(x[1..], v);
    }
  }

  /** If v starts inside a and runs past its end, it straddles the cut. */
  lemma StartIsWhole(a: string, b: string, v: string)
    requires a != "" && v <= a + b && NoCross(a, b, v)
    ensures v <= a
  {
    if |a| < |v| {
      var k := |a|;
      StartStraddles(a, b, v);
    }
  }

  lemma StartStraddles(a: string, b: string, v: string)
    requires v <= a + b && |a| < |v|
    ensures EndsWith(a, v[..|a|]) && v[|a|..] <= b
  {
    assert v[..|a|] == (a + b)[..|a|] == a;
    assert v[|a|..] == (a + b)[|a|..|v|] == b[..|v| - |a|];
  }

  lemma {:induction false} ReplaceSplit(a: string, b: string, v: string)
    requires v != "" && NoCross(a, b, v)
    ensures Replace(a + b, v) == Replace(a, v) + Replace(b, v)
    decreases |a|
  {
    if a == "" {
      assert a + b == b;
    } else if v <= a + b {
      StartIsWhole(a, b, v);
      assert (a + b)[|v|..] == a[|v|..] + b;
      NoCrossTail(a, b, v, |v|);
      ReplaceSplit(a[|v|..], b, v);
    } else {
      assert a <= a + b;
      assert (a + b)[1..] == a[1..] + b;
      NoCrossTail(a, b, v, 1);
      ReplaceSplit(a[1..], b, v);
    }
  }

  lemma NoCrossTail(a: string, b: string, v: string, n: nat)
    requires n <= |a| && NoCross(a, b, v)
    ensures NoCross(a[n..], b, v)
  {
    forall k | 0 < k < |v| && EndsWith(a[n..], v[..k]) ensures !(v[k..] <= b) {
      assert a[|a| - k..] == a[n..][|a[n..]| - k..];
      assert EndsWith(a, v[..k]);
    }
  }

  lemma NoCrossReplace(a: string, b: string, v: string, w: string)
    requires v != "" && NoMark(w) && NoCross(a, b, w)
    ensures NoCross(Replace(a, v), Replace(b, v), w)
  {
    forall k | 0 < k < |w| && EndsWith(Replace(a, v), w[..k]) && w[k..] <= Replace(b, v) ensures false {
      SuffixOrigin(a, v, w[..k]);
      PrefixOrigin(b, v, w[k..]);
    }
  }

  // --- All replacements ---

  lemma {:induction false} RedactUnmarked(x: string, values: seq<string>)
    requires NoEmpty(values) && NoMark(RedactText(x, values))
    ensures RedactText(x, values) == x
    decreases |values|
  {
    if values != [] {
      RedactUnmarked(Replace(x, values[0]), values[1..]);
      ReplaceUnmarked(x, values[0]);
    }
  }

  lemma {:induction false} RedactPrefixOrigin(x: string, values: seq<string>, p: string)
    requires NoEmpty(values) && NoMark(p) && p <= RedactText(x, values)
    ensures p <= x
    decreases |values|
  {
    if values != [] {
      RedactPrefixOrigin(Replace(x, values[0]), values[1..], p);
      PrefixOrigin(x, values[0], p);
    }
  }

  lemma {:induction false} RedactSuffixOrigin(x: string, values: seq<string>, s: string)
    requires NoEmpty(values) && NoMark(s) && EndsWith(RedactText(x, values), s)
    ensures EndsWith(x, s)
    decreases |values|
  {
    if values != [] {
      RedactSuffixOrigin(Replace(x, values[0]), values[1..], s);
      SuffixOrigin(x, values[0], s);
    }
  }

  lemma {:induction false} RedactOccursOrigin(x: string, values: seq<string>, w: string)
    requires NoEmpty(values) && w != "" && NoMark(w) && Occurs(RedactText(x, values), w)
    ensures Occurs(x, w)
    decreases |values|
  {
    if values != [] {
      RedactOccursOrigin(Replace(x, values[0]), values[1..], w);
      var i :| OccursAt(Replace(x, values[0]), w, i);
      var j := OccursOrigin(x, values[0], w, i);
    }
  }

  /** A redacted text holds no value at all, whatever the text and the order of the values. */
  lemma {:induction false} NoSecretLeft(x: string, values: seq<string>, v: string)
    requires NoEmpty(values) && v in values && NoMark(v)
    ensures !Occurs(RedactText(x, values), v)
    decreases |values|
  {
    var y := Replace(x, values[0]);
    if v == values[0] {
      if Occurs(RedactText(y, values[1..]), v) {
        RedactOccursOrigin(y, values[1..], v);
        var i :| OccursAt(y, v, i);
        ReplaceRemoves(x, v, i);
      }
    } else {
      NoSecretLeft(y, values[1..], v);
    }
  }

  lemma {:induction false} RedactAbsent(x: string, values: seq<string>)
    requires NoEmpty(values) && forall v :: v in values ==> !Occurs(x, v)
    ensures RedactText(x, values) == x
    decreases |values|
  {
    if values != [] {
      ReplaceAbsent(x, values[0]);
      RedactAbsent(x, values[1..]);
    }
  }

  /** Redaction distributes over a cut that no value straddles. */
  lemma {:induction false} RedactSplit(a: string, b: string, values: seq<string>)
    requires NoEmpty(values)
    requires forall v :: v in values ==> NoMark(v) && NoCross(a, b, v)
    ensures RedactText(a + b, values) == RedactText(a, values) + RedactText(b, values)
    decreases |values|
  {
    if values != [] {
      var v := values[0];
      ReplaceSplit(a, b, v);
      forall w | w in values[1..] ensures NoCross(Replace(a, v), Replace(b, v), w) {
        NoCrossReplace(a, b, v, w);
      }
      RedactSplit(Replace(a, v), Replace(b, v), values[1..]);
    }
  }
}
