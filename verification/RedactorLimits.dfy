/** Exactly when streaming redaction equals whole redaction, and what it gives for string secrets. */
module RedactorLimits {
  import opened Redaction
  import opened Utf8
  import opened LogRedactor

  /** A one-byte character of the marker: no secret without marker characters contains it. */
  const FILLER: char := ']'

  function Fill(n: nat): (s: string)
    ensures |s| == n
    ensures forall i :: 0 <= i < n ==> s[i] == FILLER
  {
    if n == 0 then "" else Fill(n - 1) + [FILLER]
  }

  lemma {:induction false} SplitBeforeFill(v: string, n: nat)
    ensures SplitAt(v + Fill(n), n) == |v|
  {
    var s := v + Fill(n);
    if n == 0 {
      assert s == v;
    } else {
      assert s[..|s| - 1] == v + Fill(n - 1);
      SplitBeforeFill(v, n - 1);
    }
  }

  lemma {:induction false} FillBytes(n: nat)
    ensures ByteLen(Fill(n)) == n
  {
    if n > 0 {
      FillBytes(n - 1);
      assert Fill(n)[..n - 1] == Fill(n - 1);
    }
  }

  /** Feeding v and then enough filler makes the redactor cut at the longest value prefix ending v. */
  lemma CutAfterFill(values: seq<string>, v: string)
    requires v in values && v != ""
    ensures var combined := v + Fill(LongestBytes(values));
            ByteLen(combined) > LongestBytes(values) && Cut(values, combined) == |v| - Overlap(values, v, |v|)
  {
    var n := LongestBytes(values);
    SplitBeforeFill(v, n);
    FillBytes(n);
    ByteLenConcat(v, Fill(n));
    assert (v + Fill(n))[..|v|] == v;
  }

  lemma RunTwoPieces(values: seq<string>, stream: string, c: nat)
    requires NoEmpty(values) && values != []
    requires ByteLen(stream) > LongestBytes(values) && c == Cut(values, stream)
    ensures Run(values, "", [stream]) == RedactText(stream[..c], values) + RedactText(stream[c..], values)
  {
    assert "" + stream == stream;
    assert [stream][1..] == [];
    assert Run(values, stream[c..], []) == RedactText(stream[c..], values);
  }

  /** A secret's first character stands where the secret occurs. */
  lemma OccurrenceStart(s: string, v: string, i: int)
    requires v != "" && OccursAt(s, v, i)
    ensures s[i] == v[0]
  {
    assert s[i..i + |v|][0] == s[i];
  }

  lemma PrefixStart(p: string, s: string)
    requires p != "" && p <= s
    ensures s[0] == p[0]
  {
  }

  lemma SuffixStart(s: string, p: string)
    requires p != "" && EndsWith(s, p)
    ensures s[|s| - |p|] == p[0]
  {
  }

  lemma NotInMarks(s: string, v: string)
    requires v != "" && NoMark(v) && forall i :: 0 <= i < |s| ==> s[i] in MARKER
    ensures !Occurs(s, v)
  {
    forall i ensures !OccursAt(s, v, i) {
      if OccursAt(s, v, i) {
        OccurrenceStart(s, v, i);
      }
    }
  }

  lemma NoCrossMarks(a: string, b: string, v: string)
    requires NoMark(v) && forall i :: 0 <= i < |b| ==> b[i] in MARKER
    ensures NoCross(a, b, v)
  {
    forall k | 0 < k < |v| ensures !(v[k..] <= b) {
      if v[k..] <= b {
        PrefixStart(v[k..], b);
      }
    }
  }

  /** No value reaches into the filler, so it stays as it is. */
  lemma FillIsKept(values: seq<string>, a: string, n: nat)
    requires NoEmpty(values) && MarkerFree(values)
    ensures RedactText(a + Fill(n), values) == RedactText(a, values) + Fill(n)
  {
    forall v | v in values ensures NoMark(v) && NoCross(a, Fill(n), v) && !Occurs(Fill(n), v) {
      assert NoMark(v);
      NoCrossMarks(a, Fill(n), v);
      NotInMarks(Fill(n), v);
    }
    RedactSplit(a, Fill(n), values);
    RedactAbsent(Fill(n), values);
  }

  // --- Streaming over a cut ---

  /** The redactor cuts v, when it stands alone, at some inner point. */
  predicate CutsAlone(values: seq<string>, v: string) {
    0 < Overlap(values, v, |v|) < |v|
  }

  lemma SplitInside(v: string, tail: string, c: nat)
    requires c <= |v|
    ensures (v + tail)[..c] == v[..c] && (v + tail)[c..] == v[c..] + tail
  {
  }

  /** A stream that makes the redactor emit the two parts of v separately. */
  lemma CutStream(values: seq<string>, v: string)
    requires NoEmpty(values) && MarkerFree(values) && v in values && CutsAlone(values, v)
    ensures var n, c := LongestBytes(values), |v| - Overlap(values, v, |v|);
            Run(values, "", [v + Fill(n)]) == RedactText(v[..c], values) + RedactText(v[c..], values) + Fill(n)
  {
    var n, c := LongestBytes(values), |v| - Overlap(values, v, |v|);
    assert values != [] && v != "" && c <= |v|;
    hide *;
    CutAfterFill(values, v);
    RunTwoPieces(values, v + Fill(n), c);
    SplitInside(v, Fill(n), c);
    FillIsKept(values, v[c..], n);
    Associate(RedactText(v[..c], values), RedactText(v[c..], values), Fill(n));
  }

  lemma Associate(a: string, b: string, c: string)
    ensures a + (b + c) == a + b + c
  {
  }

  // --- Redacted text consists of markers and plain characters ---

  ghost predicate Tokens(s: string) {
    s == "" || (s[0] !in MARKER && Tokens(s[1..])) || (MARKER <= s && Tokens(s[|MARKER|..]))
  }

  lemma {:induction false} PlainTokens(s: string, t: string)
    requires NoMark(s) && Tokens(t)
    ensures Tokens(s + t)
  {
    if s == "" {
      assert s + t == t;
    } else {
      assert (s + t)[1..] == s[1..] + t;
      PlainTokens(s[1..], t);
    }
  }

  lemma {:induction false} DropPlain(s: string, n: nat)
    requires Tokens(s) && n <= |s| && NoMark(s[..n])
    ensures Tokens(s[n..])
  {
    if n > 0 {
      assert s[0] == s[..n][0] && MARKER[0] == '[';
      assert s[1..][..n - 1] == s[..n][1..];
      DropPlain(s[1..], n - 1);
      assert s[1..][n - 1..] == s[n..];
    } else {
      assert s[0..] == s;
    }
  }

  lemma MarkerStays(rest: string, v: string)
    requires v != "" && NoMark(v)
    ensures Replace(MARKER + rest, v) == MARKER + Replace(rest, v)
  {
    forall k | 0 < k < |v| ensures !EndsWith(MARKER, v[..k]) {
      if EndsWith(MARKER, v[..k]) {
        SuffixStart(MARKER, v[..k]);
      }
    }
    ReplaceSplit(MARKER, rest, v);
    NotInMarks(MARKER, v);
    ReplaceAbsent(MARKER, v);
  }

  lemma {:induction false} ReplaceTokens(x: string, v: string)
    requires v != "" && NoMark(v) && Tokens(x)
    ensures Tokens(Replace(x, v))
    decreases |x|
  {
    if x != "" {
      if v <= x {
        DropPlain(x, |v|);
        ReplaceTokens(x[|v|..], v);
        assert Replace(x, v)[|MARKER|..] == Replace(x[|v|..], v);
      } else if x[0] !in MARKER {
        ReplaceTokens(x[1..], v);
        assert Replace(x, v)[1..] == Replace(x[1..], v);
      } else {
        var rest := x[|MARKER|..];
        assert x == MARKER + rest;
        MarkerStays(rest, v);
        ReplaceTokens(rest, v);
        assert Replace(x, v)[|MARKER|..] == Replace(rest, v);
      }
    }
  }

  lemma {:induction false} RedactTokens(x: string, values: seq<string>)
    requires NoEmpty(values) && MarkerFree(values) && Tokens(x)
    ensures Tokens(RedactText(x, values))
    ensures x != "" ==> RedactText(x, values) != ""
    decreases |values|
  {
    if values != [] {
      ReplaceTokens(x, values[0]);
      RedactTokens(Replace(x, values[0]), values[1..]);
    }
  }

  /** Two non-empty parts never make up a single marker. */
  lemma TwoPartsAreNoMarker(a: string, b: string)
    requires Tokens(a) && a != "" && b != ""
    ensures a + b != MARKER
  {
    assert (a + b)[0] == a[0];
    if a[0] in MARKER {
      assert MARKER <= a;
    }
  }

  // --- Whole redaction of a secret alone ---

  lemma SliceBytes(s: string, w: string, i: nat)
    requires OccursAt(s, w, i)
    ensures ByteLen(w) <= ByteLen(s) && (ByteLen(w) == ByteLen(s) ==> w == s)
  {
    assert s == s[..i] + (w + s[i + |w|..]);
    ByteLenConcat(s[..i], w + s[i + |w|..]);
    ByteLenConcat(w, s[i + |w|..]);
    if ByteLen(w) == ByteLen(s) {
      NoBytes(s[..i]);
      NoBytes(s[i + |w|..]);
    }
  }

  lemma NoBytes(s: string)
    ensures ByteLen(s) == 0 ==> s == ""
  {
  }

  lemma OwnMark(v: string)
    requires v != ""
    ensures Replace(v, v) == MARKER
  {
    assert v[|v|..] == "";
    assert MARKER + "" == MARKER;
  }

  /** No value fits into one that is no longer than it. */
  lemma NoRoom(v: string, first: string)
    requires v != "" && first != "" && first != v && ByteLen(v) <= ByteLen(first)
    ensures Replace(v, first) == v
  {
    forall i ensures !OccursAt(v, first, i) {
      if OccursAt(v, first, i) {
        SliceBytes(v, first, i);
      }
    }
    ReplaceAbsent(v, first);
  }

  lemma MarkerIsKept(values: seq<string>)
    requires NoEmpty(values) && MarkerFree(values)
    ensures RedactText(MARKER, values) == MARKER
  {
    forall w | w in values ensures !Occurs(MARKER, w) {
      NotInMarks(MARKER, w);
    }
    RedactAbsent(MARKER, values);
  }

  lemma FirstOfSorted(values: seq<string>, v: string)
    requires LongestFirst(values) && v in values
    ensures ByteLen(v) <= ByteLen(values[0])
  {
    var j :| 0 <= j < |values| && values[j] == v;
  }

  lemma {:induction false} SecretAloneIsMarked(values: seq<string>, v: string)
    requires NoEmpty(values) && MarkerFree(values) && LongestFirst(values) && v in values
    ensures RedactText(v, values) == MARKER
    decreases |values|
  {
    hide Replace, ByteLen;
    if values[0] == v {
      OwnMark(v);
      MarkerIsKept(values[1..]);
    } else {
      FirstOfSorted(values, v);
      NoRoom(v, values[0]);
      SecretAloneIsMarked(values[1..], v);
    }
  }

  // --- Exactly when the split does not matter ---

  /** The redacted parts of a cut secret never make up the marker that stands for the whole. */
  lemma PartsAreNoMarker(values: seq<string>, v: string, c: nat)
    requires NoEmpty(values) && MarkerFree(values) && NoMark(v) && 0 < c < |v|
    ensures RedactText(v[..c], values) + RedactText(v[c..], values) != MARKER
  {
    hide RedactText;
    PlainTokens(v[..c], "");
    PlainTokens(v[c..], "");
    assert v[..c] + "" == v[..c] && v[c..] + "" == v[c..];
    RedactTokens(v[..c], values);
    RedactTokens(v[c..], values);
    TwoPartsAreNoMarker(RedactText(v[..c], values), RedactText(v[c..], values));
  }

  lemma OneChunk(s: string)
    ensures Flatten([s]) == s
  {
    assert [s][1..] == [];
    assert s + "" == s;
  }

  /** If the redactor cuts some secret that stands alone, streaming differs from whole redaction. */
  lemma CutDiffers(values: seq<string>, v: string)
    requires NoEmpty(values) && MarkerFree(values) && LongestFirst(values) && v in values && CutsAlone(values, v)
    ensures var stream := v + Fill(LongestBytes(values));
            Run(values, "", [stream]) != RedactText(Flatten([stream]), values)
  {
    var n, c := LongestBytes(values), |v| - Overlap(values, v, |v|);
    assert 0 < c < |v| && NoMark(v) by {
      hide Overlap, NoMark;
    }
    hide *;
    CutStream(values, v);
    OneChunk(v + Fill(n));
    FillIsKept(values, v, n);
    SecretAloneIsMarked(values, v);
    PartsAreNoMarker(values, v, c);
    SameTail(RedactText(v[..c], values) + RedactText(v[c..], values), MARKER, Fill(n));
  }

  lemma SameTail(a: string, b: string, tail: string)
    requires a != b
    ensures a + tail != b + tail
  {
    assert (a + tail)[..|a|] == a && (b + tail)[..|b|] == b;
  }

  /** No value properly begins another one. */
  ghost predicate PrefixFree(values: seq<string>) {
    forall i, j :: 0 <= i < |values| && 0 <= j < |values| && values[i] <= values[j] ==> values[i] == values[j]
  }

  lemma WholeEnd(w: string, v: string, o: nat)
    requires o <= |v| && ValuePrefix(w, v, o)
    ensures o == |v| ==> v <= w && v != w
  {
    assert v[|v| - o..] == w[..o];
  }

  lemma CuttableIsCutAlone(values: seq<string>, v: string)
    requires v in values && !Uncuttable(v, values)
    requires forall i :: 0 <= i < |values| && v <= values[i] ==> values[i] == v
    ensures CutsAlone(values, v)
  {
    var i, j :| 0 <= i < |values| && 0 < j < |v| && j < |values[i]| && EndsWith(v, values[i][..j]);
    assert ValuePrefix(values[i], v, j);
    assert PendingPrefix(values, v, j);
    var o := Overlap(values, v, |v|);
    var k :| 0 <= k < |values| && ValuePrefix(values[k], v, o);
    WholeEnd(values[k], v, o);
  }

  lemma AllInvariant(values: seq<string>)
    requires NoEmpty(values) && MarkerFree(values) && forall v :: v in values ==> Uncuttable(v, values)
    ensures forall chunks :: Run(values, "", chunks) == RedactText(Flatten(chunks), values)
  {
    hide Run, RedactText, Flatten;
    forall chunks ensures Run(values, "", chunks) == RedactText(Flatten(chunks), values) {
      ChunkInvariant(values, "", chunks);
      assert "" + Flatten(chunks) == Flatten(chunks);
    }
  }

  /** For secrets longest first, none of which begins another: streaming equals whole redaction on every split of
      every stream if and only if no secret has a proper end that properly begins a secret. */
  lemma InvariantExactlyWhenUncuttable(values: seq<string>)
    requires NoEmpty(values) && MarkerFree(values) && LongestFirst(values) && PrefixFree(values)
    ensures (forall chunks :: Run(values, "", chunks) == RedactText(Flatten(chunks), values))
            <==> (forall v :: v in values ==> Uncuttable(v, values))
  {
    if v :| v in values && !Uncuttable(v, values) {
      NoOtherBegins(values, v);
      hide *;
      CuttableIsCutAlone(values, v);
      CutDiffers(values, v);
    } else {
      AllInvariant(values);
    }
  }

  lemma NoOtherBegins(values: seq<string>, v: string)
    requires PrefixFree(values) && v in values
    ensures forall i :: 0 <= i < |values| && v <= values[i] ==> values[i] == v
  {
    var h :| 0 <= h < |values| && values[h] == v;
  }

  /** For any secrets longest first: if a longest one has a proper end that properly begins a secret, some split
      of some stream changes the output. */
  lemma LongestCuttableDiffers(values: seq<string>, v: string)
    requires NoEmpty(values) && MarkerFree(values) && LongestFirst(values) && v in values
    requires ByteLen(v) == LongestBytes(values) && !Uncuttable(v, values)
    ensures exists chunks :: Run(values, "", chunks) != RedactText(Flatten(chunks), values)
  {
    forall i | 0 <= i < |values| && v <= values[i] ensures values[i] == v {
      ValueBytes(values, i);
      assert values[i][0..|v|] == v;
      SliceBytes(values[i], v, 0);
    }
    CuttableIsCutAlone(values, v);
    CutDiffers(values, v);
  }

  // --- When a cut secret shows ---

  function Plain(s: string): nat {
    if s == "" then 0 else (if s[0] in MARKER then 0 else 1) + Plain(s[1..])
  }

  lemma {:induction false} PlainConcat(a: string, b: string)
    ensures Plain(a + b) == Plain(a) + Plain(b)
  {
    if a == "" {
      assert a + b == b;
    } else {
      assert (a + b)[1..] == a[1..] + b;
      PlainConcat(a[1..], b);
    }
  }

  lemma {:induction false} PlainOfUnmarked(s: string)
    requires NoMark(s)
    ensures Plain(s) == |s|
  {
    if s != "" {
      PlainOfUnmarked(s[1..]);
    }
  }

  lemma PlainStep(x: string, v: string)
    requires x != "" && v != "" && NoMark(v)
    ensures Plain(Head(x, v)) + Plain(Rest(x, v)) <= Plain(x)
    ensures v <= x ==> Plain(Head(x, v)) + Plain(Rest(x, v)) < Plain(x)
  {
    if v <= x {
      assert x == v + Rest(x, v);
      PlainConcat(v, Rest(x, v));
      PlainOfUnmarked(v);
      PlainMarker();
    } else {
      ReplaceStep(x, v);
      PlainConcat(Head(x, v), Rest(x, v));
    }
  }

  lemma {:induction false} PlainReplace(x: string, v: string)
    requires v != "" && NoMark(v)
    ensures Plain(Replace(x, v)) <= Plain(x)
    ensures Plain(Replace(x, v)) == Plain(x) ==> Replace(x, v) == x
    decreases |x|
  {
    if x != "" {
      hide Head, Replace, Plain;
      PlainStep(x, v);
      ReplaceStep(x, v);
      PlainReplace(Rest(x, v), v);
      PlainConcat(Head(x, v), Replace(Rest(x, v), v));
    }
  }

  lemma PlainMarker()
    ensures Plain(MARKER) == 0
  {
    PlainTail(0);
  }

  lemma {:induction false} PlainTail(i: nat)
    requires i <= |MARKER|
    ensures Plain(MARKER[i..]) == 0
    decreases |MARKER| - i
  {
    if i < |MARKER| {
      PlainTail(i + 1);
      assert MARKER[i..][1..] == MARKER[i + 1..];
    }
    assert MARKER[0..] == MARKER;
  }

  lemma {:induction false} PlainRedact(x: string, values: seq<string>)
    requires NoEmpty(values) && MarkerFree(values)
    ensures Plain(RedactText(x, values)) <= Plain(x)
    ensures Plain(RedactText(x, values)) == Plain(x) ==> RedactText(x, values) == x
    decreases |values|
  {
    if values != [] {
      PlainReplace(x, values[0]);
      PlainRedact(Replace(x, values[0]), values[1..]);
    }
  }

  lemma PlainOccurrence(s: string, v: string, i: nat)
    requires NoMark(v) && OccursAt(s, v, i)
    ensures Plain(s) >= |v|
  {
    assert s == s[..i] + (v + s[i + |v|..]);
    PlainConcat(s[..i], v + s[i + |v|..]);
    PlainConcat(v, s[i + |v|..]);
    PlainOfUnmarked(v);
  }

  lemma {:induction false} PlainFill(n: nat)
    ensures Plain(Fill(n)) == 0
  {
    if n > 0 {
      PlainFill(n - 1);
      PlainConcat(Fill(n - 1), [FILLER]);
    }
  }

  /** Parts of which one was changed are not enough for the whole. */
  lemma ChangedPartsHide(values: seq<string>, v: string, c: nat, n: nat)
    requires NoEmpty(values) && MarkerFree(values) && NoMark(v) && c <= |v|
    requires Occurs(RedactText(v[..c], values) + RedactText(v[c..], values) + Fill(n), v)
    ensures RedactText(v[..c], values) == v[..c] && RedactText(v[c..], values) == v[c..]
  {
    hide RedactText, Plain, Fill;
    var a, b := RedactText(v[..c], values), RedactText(v[c..], values);
    var i :| OccursAt(a + b + Fill(n), v, i);
    PlainOccurrence(a + b + Fill(n), v, i);
    PlainConcat(a + b, Fill(n));
    PlainConcat(a, b);
    PlainFill(n);
    PlainRedact(v[..c], values);
    PlainRedact(v[c..], values);
    PlainOfUnmarked(v[..c]);
    PlainOfUnmarked(v[c..]);
  }

  lemma WholeAtStart(v: string, c: nat, tail: string)
    requires c <= |v|
    ensures Occurs(v[..c] + v[c..] + tail, v)
  {
    var s := v[..c] + v[c..] + tail;
    assert s[0..|v|] == v;
    assert OccursAt(s, v, 0);
  }

  /** A secret that is cut shows in full in the output if and only if neither part holds a secret itself. */
  lemma CutSecretShowsExactly(values: seq<string>, v: string)
    requires NoEmpty(values) && MarkerFree(values) && v in values && CutsAlone(values, v)
    ensures var c := |v| - Overlap(values, v, |v|);
            Occurs(Run(values, "", [v + Fill(LongestBytes(values))]), v)
            <==> RedactText(v[..c], values) == v[..c] && RedactText(v[c..], values) == v[c..]
  {
    var n, c := LongestBytes(values), |v| - Overlap(values, v, |v|);
    assert NoMark(v) && c <= |v|;
    hide *;
    CutStream(values, v);
    if Occurs(Run(values, "", [v + Fill(n)]), v) {
      ChangedPartsHide(values, v, c, n);
    } else {
      WholeAtStart(v, c, Fill(n));
    }
  }

  // --- String settings: each is listed as it stands and in its JSON form ---

  function HexDigit(n: nat): char
    requires n < 16
  {
    "0123456789abcdef"[n]
  }

  /** JSON's escape of one character. */
  function Escaped(c: char): string {
    if c == '"' then "\\\""
    else if c == '\\' then "\\\\"
    else if c as int == 8 then "\\b"
    else if c as int == 9 then "\\t"
    else if c as int == 10 then "\\n"
    else if c as int == 12 then "\\f"
    else if c as int == 13 then "\\r"
    else if c as int < 0x20 then "\\u00" + [HexDigit(c as int / 16), HexDigit(c as int % 16)]
    else [c]
  }

  function EscapedText(t: string): string {
    if t == "" then "" else EscapedText(t[..|t| - 1]) + Escaped(t[|t| - 1])
  }

  /** The JSON form of a text. */
  function Json(t: string): string {
    "\"" + EscapedText(t) + "\""
  }

  lemma EscapedBytes(c: char)
    ensures ByteLen(Escaped(c)) >= Width(c)
  {
    var e := Escaped(c);
    if e == [c] {
      OneCharBytes(c);
    } else {
      assert e[..|e| - 1] + [e[|e| - 1]] == e;
    }
  }

  lemma {:induction false} EscapedTextBytes(t: string)
    ensures ByteLen(EscapedText(t)) >= ByteLen(t)
  {
    if t != "" {
      EscapedTextBytes(t[..|t| - 1]);
      EscapedBytes(t[|t| - 1]);
      ByteLenConcat(EscapedText(t[..|t| - 1]), Escaped(t[|t| - 1]));
    }
  }

  /** The JSON form is longer than the text, and begins and ends with a quote. */
  lemma JsonShape(t: string)
    ensures |Json(t)| >= 2 && Json(t)[0] == '"' && Json(t)[|Json(t)| - 1] == '"'
    ensures ByteLen(Json(t)) >= ByteLen(t) + 2
  {
    EscapedTextBytes(t);
    ByteLenConcat("\"" + EscapedText(t), "\"");
    ByteLenConcat("\"", EscapedText(t));
    OneCharBytes('"');
  }

  ghost predicate FormOf(v: string, texts: set<string>) {
    v != "" && exists t :: t in texts && (v == t || v == Json(t))
  }

  /** The agent's list for string settings: every non-empty text and the JSON form of every text. */
  ghost predicate Represents(values: seq<string>, texts: set<string>) {
    && (forall i :: 0 <= i < |values| ==> FormOf(values[i], texts))
    && (forall t :: t in texts ==> Json(t) in values && (t != "" ==> t in values))
  }

  lemma QuotesAreCuttable(values: seq<string>, v: string)
    requires v in values && |v| >= 2 && v[0] == '"' && v[|v| - 1] == '"'
    ensures !Uncuttable(v, values)
  {
    var i :| 0 <= i < |values| && values[i] == v;
    assert v[..1] == "\"" == v[|v| - 1..];
    assert EndsWith(v, values[i][..1]);
  }

  /** The longest value of such a list is a JSON form, and its quotes make it cuttable. */
  lemma LongestIsQuoted(values: seq<string>, texts: set<string>)
    requires Represents(values, texts) && LongestFirst(values) && texts != {}
    ensures values != [] && ByteLen(values[0]) == LongestBytes(values) && !Uncuttable(values[0], values)
  {
    var some :| some in texts;
    assert Json(some) in values;
    var t := FirstText(values, texts);
    hide *;
    JsonShape(t);
    FirstIsLongest(values);
    FirstOfSorted(values, Json(t));
    QuotesAreCuttable(values, values[0]);
  }

  lemma FirstText(values: seq<string>, texts: set<string>) returns (t: string)
    requires Represents(values, texts) && values != []
    ensures t in texts && (values[0] == t || values[0] == Json(t)) && Json(t) in values
  {
    assert FormOf(values[0], texts);
    t :| t in texts && (values[0] == t || values[0] == Json(t));
  }

  lemma {:induction false} FirstIsLongest(values: seq<string>)
    requires values != [] && LongestFirst(values)
    ensures ByteLen(values[0]) == LongestBytes(values)
  {
    var before := values[..|values| - 1];
    if before != [] {
      FirstIsLongest(before);
      assert ByteLen(values[0]) >= ByteLen(values[|values| - 1]);
    } else {
      assert LongestBytes(before) == 0;
    }
  }

  lemma RepresentedInvariantExactlyWhenNone(values: seq<string>, texts: set<string>)
    requires Represents(values, texts) && LongestFirst(values) && MarkerFree(values)
    ensures (forall chunks :: Run(values, "", chunks) == RedactText(Flatten(chunks), values)) <==> texts == {}
  {
    assert forall t :: t in texts ==> Json(t) in values;
    if values == [] {
      assert texts == {};
      AllInvariant(values);
    } else {
      var t := FirstText(values, texts);
      LongestIsQuoted(values, texts);
      LongestCuttableDiffers(values, values[0]);
    }
  }

  /** What the agent collects from a list of string settings. */
  function Representations(texts: seq<string>): seq<string> {
    if texts == [] then [] else [texts[0], Json(texts[0])] + Representations(texts[1..])
  }

  lemma {:induction false} RepresentationsHold(texts: seq<string>, v: string)
    ensures v in Representations(texts) <==> exists t :: t in texts && (v == t || v == Json(t))
  {
    if texts != [] {
      hide Json;
      RepresentationsHold(texts[1..], v);
      InPair(texts[0], Json(texts[0]), Representations(texts[1..]), v);
      forall t ensures t in texts <==> t == texts[0] || t in texts[1..] {
        assert texts == [texts[0]] + texts[1..];
      }
    }
  }

  lemma InPair(a: string, b: string, rest: seq<string>, v: string)
    ensures v in [a, b] + rest <==> v == a || v == b || v in rest
  {
  }

  lemma EscapedIsPlain(c: char)
    requires c !in MARKER
    ensures NoMark(Escaped(c))
  {
    if c as int < 0x20 && |Escaped(c)| == 6 {
      HexIsPlain(c as int / 16);
      HexIsPlain(c as int % 16);
    }
  }

  lemma HexIsPlain(n: nat)
    requires n < 16
    ensures HexDigit(n) !in MARKER
  {
  }

  lemma {:induction false} JsonIsPlain(t: string)
    requires NoMark(t)
    ensures NoMark(EscapedText(t)) && NoMark(Json(t))
  {
    if t != "" {
      JsonIsPlain(t[..|t| - 1]);
      EscapedIsPlain(t[|t| - 1]);
    }
  }

  /** For any string settings without marker characters: the output is independent of how the stream is split
      if and only if there are none. */
  lemma StringsInvariantExactlyWhenNone(texts: seq<string>)
    requires forall t :: t in texts ==> NoMark(t)
    ensures NoEmpty(Arranged(Representations(texts)))
    ensures (forall chunks :: Run(Arranged(Representations(texts)), "", chunks)
                              == RedactText(Flatten(chunks), Arranged(Representations(texts))))
            <==> texts == []
  {
    var values, given := Arranged(Representations(texts)), set t | t in texts;
    ArrangedFacts(Representations(texts));
    assert texts != [] ==> texts[0] in given;
    ArrangedRepresents(texts, values, given);
    hide *;
    RepresentedInvariantExactlyWhenNone(values, given);
  }

  lemma ArrangedRepresents(texts: seq<string>, values: seq<string>, given: set<string>)
    requires forall v :: v in values <==> v in Representations(texts) && v != ""
    requires (forall t :: t in texts ==> NoMark(t)) && forall t :: t in given <==> t in texts
    ensures Represents(values, given) && MarkerFree(values)
  {
    hide Representations, Json, NoMark;
    forall i | 0 <= i < |values| ensures NoMark(values[i]) && FormOf(values[i], given) {
      assert values[i] in values;
      RepresentationsHold(texts, values[i]);
      var t :| t in texts && (values[i] == t || values[i] == Json(t));
      JsonIsPlain(t);
    }
    forall t | t in given ensures Json(t) in values && (t != "" ==> t in values) {
      JsonShape(t);
      RepresentationsHold(texts, t);
      RepresentationsHold(texts, Json(t));
    }
  }

  /** No proper end of t properly begins a setting, nor, which only a quote in t could make happen, a JSON form. */
  ghost predicate BorderFree(t: string, texts: set<string>) {
    && (forall u, j :: u in texts && 0 < j < |t| && j < |u| ==> !EndsWith(t, u[..j]))
    && ('"' in t ==> forall u, j :: u in texts && 0 < j < |t| && j < |Json(u)| ==> !EndsWith(t, Json(u)[..j]))
  }

  lemma QuoteComesAlong(t: string, q: string, j: nat)
    requires 0 < j <= |q| && q[0] == '"' && EndsWith(t, q[..j])
    ensures '"' in t
  {
    assert t[|t| - j..][0] == q[..j][0];
    assert t[|t| - j] == '"';
  }

  /** A string setting whose ends begin nothing that is listed never shows in the log, whatever its JSON form is. */
  lemma StringSecretNeverShown(values: seq<string>, texts: set<string>, t: string, chunks: seq<string>)
    requires Represents(values, texts) && t in texts && t != "" && NoMark(t) && BorderFree(t, texts)
    ensures !Occurs(Run(values, "", chunks), t)
  {
    forall i, j | 0 <= i < |values| && 0 < j < |t| && j < |values[i]| ensures !EndsWith(t, values[i][..j]) {
      assert FormOf(values[i], texts);
      var u :| u in texts && (values[i] == u || values[i] == Json(u));
      JsonShape(u);
      if values[i] != u && EndsWith(t, values[i][..j]) {
        QuoteComesAlong(t, values[i], j);
      }
    }
    SecretNeverShown(values, "", chunks, t);
  }
}
