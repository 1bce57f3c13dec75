/** The agent's streaming redactor: it may emit only what no later chunk can turn into a secret. */
module LogRedactor {
  import opened Redaction
  import opened Utf8

  function Max(a: nat, b: nat): nat { if a < b then b else a }

  /** Length in bytes of the longest value. */
  function LongestBytes(values: seq<string>): nat {
    if values == [] then 0 else Max(LongestBytes(values[..|values| - 1]), ByteLen(values[|values| - 1]))
  }

  /** The last character boundary that leaves at least m bytes behind it. */
  function SplitAt(s: string, m: nat): (k: nat)
    ensures k <= |s|
  {
    if m == 0 || s == "" then |s|
    else SplitAt(s[..|s| - 1], if m <= Width(s[|s| - 1]) then 0 else m - Width(s[|s| - 1]))
  }

  /** The last k characters of s begin one of the values, which is longer than that. */
  predicate PendingPrefix(values: seq<string>, s: string, k: nat) {
    exists i :: 0 <= i < |values| && ValuePrefix(values[i], s, k)
  }

  predicate ValuePrefix(v: string, s: string, k: nat) {
    k < |v| && EndsWith(s, v[..k])
  }

  /** The longest end of s, at most n characters, that begins one of the values. */
  function Overlap(values: seq<string>, s: string, n: nat): (k: nat)
    ensures k <= n
    ensures k == 0 || PendingPrefix(values, s, k)
    ensures forall j :: k < j <= n ==> !PendingPrefix(values, s, j)
  {
    if n == 0 || PendingPrefix(values, s, n) then n else Overlap(values, s, n - 1)
  }

  function Cut(values: seq<string>, combined: string): (c: nat)
    ensures c <= |combined|
  {
    var split := SplitAt(combined, LongestBytes(values));
    split - Overlap(values, combined[..split], split)
  }

  datatype Step = Step(out: string, pending: string)

  /** One call of the redactor: what it emits and what it keeps back. */
  function RedactChunk(values: seq<string>, pending: string, chunk: string): Step
    requires NoEmpty(values)
  {
    var combined := pending + chunk;
    if values == [] then Step(chunk, pending)
    else if ByteLen(combined) <= LongestBytes(values) then Step("", combined)
    else
      var c := Cut(values, combined);
      Step(RedactText(combined[..c], values), combined[c..])
  }

  /** Everything emitted for a stream of chunks, with the final flush. */
  function Run(values: seq<string>, pending: string, chunks: seq<string>): string
    requires NoEmpty(values)
    decreases |chunks|
  {
    if chunks == [] then RedactText(pending, values)
    else
      var step := RedactChunk(values, pending, chunks[0]);
      step.out + Run(values, step.pending, chunks[1..])
  }

  /** What a canceled command's stream still gets: the tail is finished, and what comes out is handed to the redactor
      again, as if it were output. */
  function FlushTail(values: seq<string>, pending: string): Step
    requires NoEmpty(values)
  {
    var tail := RedactText(pending, values);
    if tail == "" then Step("", "") else RedactChunk(values, "", tail)
  }

  function Flatten(chunks: seq<string>): string {
    if chunks == [] then "" else chunks[0] + Flatten(chunks[1..])
  }

  /** No proper end of v begins, properly, one of the values: a held-back tail never starts inside v. */
  ghost predicate Uncuttable(v: string, values: seq<string>) {
    forall i, j :: 0 <= i < |values| && 0 < j < |v| && j < |values[i]| ==> !EndsWith(v, values[i][..j])
  }

  ghost predicate MarkerFree(values: seq<string>) {
    forall i :: 0 <= i < |values| ==> NoMark(values[i])
  }

  /** The order the redactor keeps its values in. */
  ghost predicate LongestFirst(values: seq<string>) {
    forall i, j :: 0 <= i < j < |values| ==> ByteLen(values[i]) >= ByteLen(values[j])
  }

  // --- The order of the values ---

  /** Where a stable sort, longest first, puts an appended value. */
  function InsertLongest(sorted: seq<string>, v: string): seq<string> {
    if sorted == [] || ByteLen(sorted[|sorted| - 1]) >= ByteLen(v) then sorted + [v]
    else InsertLongest(sorted[..|sorted| - 1], v) + [sorted[|sorted| - 1]]
  }

  function SortLongest(items: seq<string>): seq<string> {
    if items == [] then [] else InsertLongest(SortLongest(items[..|items| - 1]), items[|items| - 1])
  }

  /** The items of one length, in their order. */
  function OfLength(items: seq<string>, n: nat): seq<string> {
    if items == [] then []
    else
      var last := items[|items| - 1];
      OfLength(items[..|items| - 1], n) + (if ByteLen(last) == n then [last] else [])
  }

  lemma OfLengthAppend(items: seq<string>, v: string, n: nat)
    ensures OfLength(items + [v], n) == OfLength(items, n) + (if ByteLen(v) == n then [v] else [])
  {
    assert (items + [v])[..|items|] == items;
  }

  lemma SortedAppend(sorted: seq<string>, v: string)
    requires LongestFirst(sorted) && (sorted == [] || ByteLen(sorted[|sorted| - 1]) >= ByteLen(v))
    ensures LongestFirst(sorted + [v])
  {
    hide ByteLen;
  }

  lemma {:induction false} InsertLongestSorts(sorted: seq<string>, v: string)
    requires LongestFirst(sorted)
    ensures LongestFirst(InsertLongest(sorted, v))
    ensures forall w :: w in InsertLongest(sorted, v) <==> w in sorted || w == v
  {
    hide ByteLen;
    if !(sorted == [] || ByteLen(sorted[|sorted| - 1]) >= ByteLen(v)) {
      var before, last := sorted[..|sorted| - 1], sorted[|sorted| - 1];
      assert sorted == before + [last];
      InsertLongestSorts(before, v);
      var inner := InsertLongest(before, v);
      assert inner[|inner| - 1] in inner;
      SortedAppend(inner, last);
    } else {
      SortedAppend(sorted, v);
    }
  }

  lemma {:induction false} InsertLongestKeeps(sorted: seq<string>, v: string, n: nat)
    requires LongestFirst(sorted)
    ensures OfLength(InsertLongest(sorted, v), n) == OfLength(sorted + [v], n)
  {
    hide ByteLen, OfLength;
    OfLengthAppend(sorted, v, n);
    if !(sorted == [] || ByteLen(sorted[|sorted| - 1]) >= ByteLen(v)) {
      var before, last := sorted[..|sorted| - 1], sorted[|sorted| - 1];
      assert sorted == before + [last];
      InsertLongestKeeps(before, v, n);
      OfLengthAppend(before, last, n);
      OfLengthAppend(before, v, n);
      OfLengthAppend(InsertLongest(before, v), last, n);
    }
  }

  /** The order is longest first, and values of one length keep the order they were given in. */
  lemma {:induction false} SortLongestIsStable(items: seq<string>)
    ensures LongestFirst(SortLongest(items))
    ensures forall w :: w in SortLongest(items) <==> w in items
    ensures forall n :: OfLength(SortLongest(items), n) == OfLength(items, n)
  {
    if items != [] {
      hide ByteLen, InsertLongest;
      var before, last := items[..|items| - 1], items[|items| - 1];
      assert items == before + [last];
      SortLongestIsStable(before);
      InsertLongestSorts(SortLongest(before), last);
      forall n ensures OfLength(SortLongest(items), n) == OfLength(items, n) {
        InsertLongestKeeps(SortLongest(before), last, n);
        OfLengthAppend(SortLongest(before), last, n);
        OfLengthAppend(before, last, n);
      }
    }
  }

  lemma {:induction false} SortedIsFixed(items: seq<string>)
    requires LongestFirst(items)
    ensures SortLongest(items) == items
  {
    if items != [] {
      SortedIsFixed(items[..|items| - 1]);
    }
  }

  lemma SortAppended(sorted: seq<string>, v: string)
    requires LongestFirst(sorted) && NoEmpty(sorted) && v != ""
    ensures SortLongest(sorted + [v]) == InsertLongest(sorted, v)
    ensures LongestFirst(InsertLongest(sorted, v)) && NoEmpty(InsertLongest(sorted, v)) && InsertLongest(sorted, v) != []
    ensures forall w :: w in InsertLongest(sorted, v) <==> w in sorted || w == v
  {
    var larger := InsertLongest(sorted, v);
    hide ByteLen, InsertLongest;
    assert (sorted + [v])[..|sorted|] == sorted;
    SortedIsFixed(sorted);
    InsertLongestSorts(sorted, v);
    assert v in larger && forall i :: 0 <= i < |larger| ==> larger[i] in larger;
  }

  /** Drops every value that repeats the one before it. */
  function Deduplicated(items: seq<string>): (kept: seq<string>)
    ensures forall w :: w in kept <==> w in items
    ensures items != [] ==> kept != [] && kept[|kept| - 1] == items[|items| - 1]
    ensures LongestFirst(items) ==> LongestFirst(kept)
  {
    hide ByteLen;
    if items == [] then []
    else
      var before, last := items[..|items| - 1], items[|items| - 1];
      assert items == before + [last];
      var kept := Deduplicated(before);
      assert LongestFirst(items) ==> before == [] || ByteLen(before[|before| - 1]) >= ByteLen(last);
      if kept != [] && kept[|kept| - 1] == last then kept else kept + [last]
  }

  function NonEmpty(items: seq<string>): (kept: seq<string>)
    ensures NoEmpty(kept)
    ensures forall w :: w in kept <==> w in items && w != ""
  {
    if items == [] then []
    else
      var before, last := items[..|items| - 1], items[|items| - 1];
      assert items == before + [last];
      NonEmpty(before) + (if last == "" then [] else [last])
  }

  /** The list a redactor keeps: no empty value, longest first, neighbours distinct. */
  function Arranged(representations: seq<string>): seq<string> {
    Deduplicated(SortLongest(NonEmpty(representations)))
  }

  lemma ArrangedFacts(representations: seq<string>)
    ensures NoEmpty(Arranged(representations)) && LongestFirst(Arranged(representations))
    ensures forall v :: v in Arranged(representations) <==> v in representations && v != ""
  {
    SortLongestIsStable(NonEmpty(representations));
    hide SortLongest, Deduplicated, NonEmpty, ByteLen, OfLength;
    var arranged := Arranged(representations);
    assert forall i :: 0 <= i < |arranged| ==> arranged[i] in arranged;
  }

  // --- The object ---

  class SensitiveLogRedactor {
    var values: seq<string>
    var pending: string

    ghost predicate Valid()
      reads this
    {
      NoEmpty(values) && LongestFirst(values) && (values == [] ==> pending == "")
    }

    constructor (representations: seq<string>)
      ensures Valid() && pending == ""
      ensures values == Arranged(representations)
      ensures forall v :: v in values <==> v in representations && v != ""
    {
      var kept := SensitiveLogRedactor.Retained(representations);
      var sorted := SensitiveLogRedactor.Sorted(kept);
      var distinct := SensitiveLogRedactor.WithoutRepeats(sorted);
      ArrangedFacts(representations);
      hide Deduplicated, SortLongest, NonEmpty, ByteLen;
      values := distinct;
      pending := "";
    }

    static method Retained(items: seq<string>) returns (kept: seq<string>)
      ensures kept == NonEmpty(items)
    {
      kept := [];
      for i := 0 to |items|
        invariant kept == NonEmpty(items[..i])
      {
        assert items[..i + 1][..i] == items[..i];
        if items[i] != "" {
          kept := kept + [items[i]];
        }
      }
      assert items[..|items|] == items;
    }

    /** One insertion of the sort: v goes behind every value that is not shorter. */
    static method Inserted(sorted: seq<string>, v: string) returns (larger: seq<string>)
      ensures larger == InsertLongest(sorted, v)
    {
      var j := |sorted|;
      assert sorted[..j] == sorted && sorted[j..] == [];
      while 0 < j && ByteLen(sorted[j - 1]) < ByteLen(v)
        invariant 0 <= j <= |sorted|
        invariant InsertLongest(sorted, v) == InsertLongest(sorted[..j], v) + sorted[j..]
      {
        hide ByteLen;
        assert sorted[..j][..j - 1] == sorted[..j - 1];
        assert [sorted[j - 1]] + sorted[j..] == sorted[j - 1..];
        j := j - 1;
      }
      larger := sorted[..j] + [v] + sorted[j..];
    }

    static method Sorted(items: seq<string>) returns (sorted: seq<string>)
      ensures sorted == SortLongest(items)
    {
      hide InsertLongest;
      sorted := [];
      for i := 0 to |items|
        invariant sorted == SortLongest(items[..i])
      {
        assert items[..i + 1][..i] == items[..i];
        sorted := Inserted(sorted, items[i]);
      }
      assert items[..|items|] == items;
    }

    static method WithoutRepeats(items: seq<string>) returns (kept: seq<string>)
      ensures kept == Deduplicated(items)
    {
      kept := [];
      for i := 0 to |items|
        invariant kept == Deduplicated(items[..i])
      {
        assert items[..i + 1][..i] == items[..i];
        if |kept| == 0 || kept[|kept| - 1] != items[i] {
          kept := kept + [items[i]];
        }
      }
      assert items[..|items|] == items;
    }

    /** A value that is empty or already listed changes nothing; any other takes its place in the order. */
    method AddSensitiveValue(value: string)
      requires Valid()
      modifies this`values
      ensures Valid()
      ensures values == if value == "" || value in old(values) then old(values) else InsertLongest(old(values), value)
      ensures forall v :: v in values <==> v in old(values) || (v == value && v != "")
    {
      hide LongestFirst, SortLongest, InsertLongest, NoEmpty;
      if value != "" && value !in values {
        SortAppended(values, value);
        values := Sorted(values + [value]);
      }
    }

    method LongestValue() returns (m: nat)
      ensures m == LongestBytes(values)
    {
      m := 0;
      for i := 0 to |values|
        invariant m == LongestBytes(values[..i])
      {
        assert values[..i + 1][..i] == values[..i];
        m := Max(m, ByteLen(values[i]));
      }
      assert values[..|values|] == values;
    }

    /** The longest value prefix at the end of the safe text, tried value by value and length by length. */
    method LongestOverlap(safe: string) returns (overlap: nat)
      ensures overlap == Overlap(values, safe, |safe|)
    {
      overlap := 0;
      for i := 0 to |values|
        invariant overlap == 0 || PendingPrefix(values, safe, overlap)
        invariant forall h, k: nat :: 0 <= h < i && ValuePrefix(values[h], safe, k) ==> k <= overlap
      {
        var k := 1;
        while k < |values[i]|
          invariant 1 <= k
          invariant overlap == 0 || PendingPrefix(values, safe, overlap)
          invariant forall h, k': nat :: 0 <= h < i && ValuePrefix(values[h], safe, k') ==> k' <= overlap
          invariant forall k': nat :: k' < k && ValuePrefix(values[i], safe, k') ==> k' <= overlap
        {
          if k <= |safe| && EndsWith(safe, values[i][..k]) {
            assert ValuePrefix(values[i], safe, k);
            overlap := Max(overlap, k);
          }
          k := k + 1;
        }
      }
      assert overlap <= |safe|;
      OverlapIsLongest(values, safe, |safe|, overlap);
    }

    /** The last character boundary with at least `longest` bytes behind it. */
    static method Boundary(combined: string, longest: nat) returns (split: nat)
      requires longest <= ByteLen(combined)
      ensures split == SplitAt(combined, longest) <= |combined|
    {
      split := |combined|;
      var behind := 0;
      assert combined[..split] == combined;
      while behind < longest
        invariant 0 <= split <= |combined|
        invariant ByteLen(combined[..split]) + behind == ByteLen(combined)
        invariant SplitAt(combined, longest) == SplitAt(combined[..split], if longest <= behind then 0 else longest - behind)
        decreases split
      {
        split := split - 1;
        assert combined[..split + 1][..split] == combined[..split];
        behind := behind + Width(combined[split]);
      }
    }

    method Redact(chunk: string) returns (out: string)
      requires Valid()
      modifies this`pending
      ensures Valid()
      ensures Step(out, pending) == RedactChunk(values, old(pending), chunk)
    {
      if |values| == 0 {
        return chunk;
      }
      var combined := pending + chunk;
      pending := "";
      var longest := LongestValue();
      if ByteLen(combined) <= longest {
        pending := combined;
        return "";
      }
      hide RedactText, Overlap, SplitAt, LongestBytes, ByteLen;
      var split := Boundary(combined, longest);
      var overlap := LongestOverlap(combined[..split]);
      var processEnd := split - overlap;
      pending := combined[processEnd..];
      out := RedactAll(combined[..processEnd]);
    }

    method RedactAll(text: string) returns (redacted: string)
      requires NoEmpty(values)
      ensures redacted == RedactText(text, values)
    {
      redacted := text;
      for i := 0 to |values|
        invariant RedactText(text, values) == RedactText(redacted, values[i..])
      {
        assert values[i..][1..] == values[i + 1..];
        redacted := Replace(redacted, values[i]);
      }
    }

    method Finish() returns (out: string)
      requires Valid()
      modifies this`pending
      ensures Valid() && pending == "" && out == Run(values, old(pending), [])
    {
      out := RedactAll(pending);
      pending := "";
    }

    method Flush() returns (out: string)
      requires Valid()
      modifies this`pending
      ensures Valid()
      ensures Step(out, pending) == FlushTail(values, old(pending))
    {
      var tail := Finish();
      out := "";
      if |tail| > 0 {
        out := Redact(tail);
      }
    }
  }

  lemma {:induction false} OverlapIsLongest(values: seq<string>, s: string, n: nat, k: nat)
    requires k <= n && (k == 0 || PendingPrefix(values, s, k))
    requires forall i, j: nat :: 0 <= i < |values| && ValuePrefix(values[i], s, j) ==> j <= k
    ensures Overlap(values, s, n) == k
  {
    if k < n {
      assert !PendingPrefix(values, s, n);
      OverlapIsLongest(values, s, n - 1, k);
    }
  }

  // --- Where the redactor cuts ---

  lemma OneCharBytes(c: char)
    ensures ByteLen([c]) == Width(c)
  {
    assert [c][..0] == "";
  }

  lemma {:induction false} SplitLeaves(s: string, m: nat)
    requires m <= ByteLen(s)
    ensures m <= ByteLen(s[SplitAt(s, m)..]) <= m + 3
  {
    if m > 0 && s != "" {
      var before, last := s[..|s| - 1], s[|s| - 1];
      var m' := if m <= Width(last) then 0 else m - Width(last);
      var k := SplitAt(s, m);
      SplitLeaves(before, m');
      assert s[k..] == before[k..] + [last];
      ByteLenConcat(before[k..], [last]);
      OneCharBytes(last);
      if m' == 0 {
        assert before[k..] == "";
      }
    } else {
      assert s[SplitAt(s, m)..] == "";
    }
  }

  lemma {:induction false} ValueBytes(values: seq<string>, i: nat)
    requires i < |values|
    ensures ByteLen(values[i]) <= LongestBytes(values)
  {
    if i < |values| - 1 {
      ValueBytes(values[..|values| - 1], i);
    }
  }

  /** A value prefix is shorter, in bytes, than the longest value. */
  lemma PrefixBytes(values: seq<string>, v: string, k: nat)
    requires v in values && k < |v|
    ensures ByteLen(v[..k]) < LongestBytes(values)
  {
    var i :| 0 <= i < |values| && values[i] == v;
    ValueBytes(values, i);
    assert v == v[..k] + ([v[k]] + v[k + 1..]);
    ByteLenConcat(v[..k], [v[k]] + v[k + 1..]);
    ByteLenConcat([v[k]], v[k + 1..]);
  }

  lemma HeldTailBound(values: seq<string>, combined: string)
    requires NoEmpty(values) && values != [] && LongestBytes(values) <= ByteLen(combined)
    ensures ByteLen(combined[Cut(values, combined)..]) <= 2 * LongestBytes(values) + 2
  {
    var split, c := SplitAt(combined, LongestBytes(values)), Cut(values, combined);
    SplitLeaves(combined, LongestBytes(values));
    assert combined[c..] == combined[c..split] + combined[split..];
    ByteLenConcat(combined[c..split], combined[split..]);
    if c < split {
      var i :| 0 <= i < |values| && ValuePrefix(values[i], combined[..split], split - c);
      PrefixBytes(values, values[i], split - c);
      assert combined[c..split] == combined[..split][c..];
    } else {
      PrefixBytes(values, values[0], 0);
    }
  }

  /** What a call consumes of the text it holds: nothing, or everything before the cut. */
  function Done(values: seq<string>, combined: string): string {
    if ByteLen(combined) <= LongestBytes(values) then "" else combined[..Cut(values, combined)]
  }

  /** With no condition on the secrets: the raw text is conserved, and the held tail stays bounded. */
  lemma ChunkConservesText(values: seq<string>, pending: string, chunk: string)
    requires NoEmpty(values) && values != []
    ensures Done(values, pending + chunk) + RedactChunk(values, pending, chunk).pending == pending + chunk
    ensures RedactChunk(values, pending, chunk).out == RedactText(Done(values, pending + chunk), values)
    ensures ByteLen(RedactChunk(values, pending, chunk).pending) <= 2 * LongestBytes(values) + 2
  {
    if ByteLen(pending + chunk) <= LongestBytes(values) {
      RedactEmpty(values);
    } else {
      HeldTailBound(values, pending + chunk);
    }
  }

  lemma {:induction false} RedactEmpty(values: seq<string>)
    requires NoEmpty(values)
    ensures RedactText("", values) == ""
    decreases |values|
  {
    if values != [] {
      RedactEmpty(values[1..]);
    }
  }

  /** The cut never falls inside an uncuttable value, whatever text follows. */
  lemma CutSpares(values: seq<string>, combined: string, more: string, v: string)
    requires Uncuttable(v, values) && v in values
    ensures NoCross(combined[..Cut(values, combined)], combined[Cut(values, combined)..] + more, v)
  {
    var split, c := SplitAt(combined, LongestBytes(values)), Cut(values, combined);
    var a, b := combined[..c], combined[c..] + more;
    forall k | 0 < k < |v| && EndsWith(a, v[..k]) ensures !(v[k..] <= b) {
      if v[k..] <= b {
        if split < c + |v| - k {
          StraddleIsPrefix(values, combined, c, split, more, v, k);
        } else {
          EndsInTail(values, combined, c, split, more, v, k);
        }
      }
    }
  }

  lemma EndsWithMore(a: string, t: string, v: string, k: nat)
    requires k + |t| <= |v| && EndsWith(a, v[..k]) && v[k..k + |t|] == t
    ensures EndsWith(a + t, v[..k + |t|])
  {
    assert a == a[..|a| - k] + v[..k];
    assert v[..k + |t|] == v[..k] + t;
    assert a + t == a[..|a| - k] + v[..k + |t|];
  }

  lemma SharedStart(b: string, more: string, x: string, n: nat)
    requires x <= b + more && n <= |x| && n <= |b|
    ensures x[..n] == b[..n]
  {
    assert x[..n] == (b + more)[..n];
  }

  /** A value that starts before c and runs past the split has a prefix ending at the split. */
  lemma StraddleIsPrefix(values: seq<string>, combined: string, c: nat, split: nat, more: string, v: string, k: nat)
    requires v in values && 0 < k < |v| && c <= split <= |combined| && split < c + |v| - k
    requires EndsWith(combined[..c], v[..k]) && v[k..] <= combined[c..] + more
    ensures PendingPrefix(values, combined[..split], k + split - c)
  {
    SharedStart(combined[c..], more, v[k..], split - c);
    assert combined[..split] == combined[..c] + combined[c..split];
    assert v[k..k + split - c] == combined[c..split];
    EndsWithMore(combined[..c], combined[c..split], v, k);
    var i :| 0 <= i < |values| && values[i] == v;
    assert ValuePrefix(values[i], combined[..split], k + split - c);
  }

  /** A value that ends inside the held-back prefix shares its end with the start of that prefix. */
  lemma EndsInTail(values: seq<string>, combined: string, c: nat, split: nat, more: string, v: string, k: nat)
    requires 0 < k < |v| && c <= split <= |combined| && c + |v| - k <= split
    requires v[k..] <= combined[c..] + more && PendingPrefix(values, combined[..split], split - c)
    ensures !Uncuttable(v, values)
  {
    var j := |v| - k;
    var i :| 0 <= i < |values| && ValuePrefix(values[i], combined[..split], split - c);
    SharedStart(combined[c..], more, v[k..], j);
    assert values[i][..split - c] == combined[..split][c..];
    assert values[i][..j] == values[i][..split - c][..j] == combined[c..][..j];
    assert EndsWith(v, values[i][..j]);
  }

  // --- Whole streams ---

  lemma CutDistributes(values: seq<string>, combined: string, rest: string)
    requires NoEmpty(values) && MarkerFree(values)
    requires forall v :: v in values ==> Uncuttable(v, values)
    ensures var c := Cut(values, combined);
            RedactText(combined + rest, values) == RedactText(combined[..c], values) + RedactText(combined[c..] + rest, values)
  {
    var c := Cut(values, combined);
    assert combined + rest == combined[..c] + (combined[c..] + rest);
    forall v | v in values ensures NoMark(v) && NoCross(combined[..c], combined[c..] + rest, v) {
      CutSpares(values, combined, rest, v);
    }
    RedactSplit(combined[..c], combined[c..] + rest, values);
  }

  lemma FlattenStep(pending: string, chunks: seq<string>)
    requires chunks != []
    ensures pending + Flatten(chunks) == (pending + chunks[0]) + Flatten(chunks[1..])
  {
  }

  /** However the stream is cut into chunks, the output is that of redacting it whole. */
  lemma {:induction false} ChunkInvariant(values: seq<string>, pending: string, chunks: seq<string>)
    requires NoEmpty(values) && MarkerFree(values) && (values == [] ==> pending == "")
    requires forall v :: v in values ==> Uncuttable(v, values)
    ensures Run(values, pending, chunks) == RedactText(pending + Flatten(chunks), values)
    decreases |chunks|
  {
    if chunks == [] {
      assert pending + "" == pending;
    } else {
      FlattenStep(pending, chunks);
      ChunkInvariant(values, RedactChunk(values, pending, chunks[0]).pending, chunks[1..]);
      if values == [] {
        assert pending + chunks[0] == chunks[0] && pending + Flatten(chunks[1..]) == Flatten(chunks[1..]);
      } else if ByteLen(pending + chunks[0]) > LongestBytes(values) {
        CutDistributes(values, pending + chunks[0], Flatten(chunks[1..]));
      }
    }
  }

  lemma PrefixOfConcat(p: string, a: string, b: string)
    requires p <= a + b
    ensures |p| <= |a| ==> p <= a
    ensures |a| < |p| ==> a == p[..|a|] && p[|a|..] <= b
  {
    if |p| <= |a| {
      assert p == (a + b)[..|p|] == a[..|p|];
    } else {
      assert p[..|a|] == (a + b)[..|a|];
      assert p[|a|..] == (a + b)[|a|..|p|] == b[..|p| - |a|];
    }
  }

  lemma PrefixExtends(p: string, a: string, b: string)
    requires p <= a
    ensures p <= a + b
  {
    assert a == p + a[|p|..];
    assert a + b == p + (a[|p|..] + b);
  }

  lemma FlattenSplit(done: string, held: string, combined: string, chunks: seq<string>)
    requires done + held == combined
    ensures combined + Flatten(chunks) == done + (held + Flatten(chunks))
  {
  }

  lemma ConcatPrefix(a: string, b: string, c: string)
    requires b <= c
    ensures a + b <= a + c
  {
    assert c == b + c[|b|..];
    assert a + c == (a + b) + c[|b|..];
  }

  lemma PieceOrigin(values: seq<string>, done: string, after: string, p: string)
    requires NoEmpty(values) && NoMark(p) && p <= RedactText(done, values) + after
    ensures |p| <= |RedactText(done, values)| ==> p <= done
    ensures |RedactText(done, values)| < |p| ==> RedactText(done, values) == done == p[..|done|]
    ensures |RedactText(done, values)| < |p| ==> NoMark(p[|done|..]) && p[|done|..] <= after
  {
    var out := RedactText(done, values);
    PrefixOfConcat(p, out, after);
    if |p| <= |out| {
      RedactPrefixOrigin(done, values, p);
    } else {
      assert NoMark(out);
      RedactUnmarked(done, values);
    }
  }

  /** Unmarked text at the start of the output is text from the start of the stream. */
  lemma {:induction false} RunPrefixOrigin(values: seq<string>, pending: string, chunks: seq<string>, p: string)
    requires NoEmpty(values) && values != [] && NoMark(p)
    requires p <= Run(values, pending, chunks)
    ensures p <= pending + Flatten(chunks)
    decreases |chunks|
  {
    if chunks == [] {
      RedactPrefixOrigin(pending, values, p);
    } else {
      var step, done := RedactChunk(values, pending, chunks[0]), Done(values, pending + chunks[0]);
      ChunkConservesText(values, pending, chunks[0]);
      FlattenStep(pending, chunks);
      FlattenSplit(done, step.pending, pending + chunks[0], chunks[1..]);
      PieceOrigin(values, done, Run(values, step.pending, chunks[1..]), p);
      if |step.out| < |p| {
        RunPrefixOrigin(values, step.pending, chunks[1..], p[|done|..]);
        ConcatPrefix(done, p[|done|..], step.pending + Flatten(chunks[1..]));
        assert p == done + p[|done|..];
      } else {
        PrefixExtends(p, done, step.pending + Flatten(chunks[1..]));
      }
    }
  }

  /** An uncuttable secret never shows in the output, however the stream is cut into chunks. */
  lemma {:induction false} SecretNeverShown(values: seq<string>, pending: string, chunks: seq<string>, v: string)
    requires NoEmpty(values) && v in values && NoMark(v) && Uncuttable(v, values)
    ensures !Occurs(Run(values, pending, chunks), v)
    decreases |chunks|
  {
    if chunks == [] {
      NoSecretLeft(pending, values, v);
    } else {
      var step := RedactChunk(values, pending, chunks[0]);
      var after := Run(values, step.pending, chunks[1..]);
      SecretNeverShown(values, step.pending, chunks[1..], v);
      ChunkConservesText(values, pending, chunks[0]);
      NoSecretLeft(Done(values, pending + chunks[0]), values, v);
      OutputSeamIsClean(values, pending, chunks, v);
      forall i ensures !OccursAt(step.out + after, v, i) {
        OccursInHalves(step.out, after, v, i);
      }
    }
  }

  lemma OccursInHalves(a: string, b: string, v: string, i: int)
    requires !Occurs(a, v) && !Occurs(b, v) && NoCross(a, b, v)
    ensures !OccursAt(a + b, v, i)
  {
    if OccursAt(a + b, v, i) {
      if |a| <= i {
        OccursInTail(a, b, v, i);
      } else if i + |v| <= |a| {
        OccursInFirst(a, b, v, i);
      } else {
        StraddleSplits(a, b, v, i);
      }
    }
  }

  lemma OccursInFirst(a: string, b: string, v: string, i: nat)
    requires i + |v| <= |a|
    ensures OccursAt(a + b, v, i) <==> OccursAt(a, v, i)
  {
    assert (a + b)[i..i + |v|] == a[i..i + |v|];
  }

  lemma StraddleSplits(a: string, b: string, v: string, i: nat)
    requires OccursAt(a + b, v, i) && i < |a| < i + |v|
    ensures EndsWith(a, v[..|a| - i]) && v[|a| - i..] <= b
  {
    var k := |a| - i;
    assert v[..k] == (a + b)[i..i + k] == a[i..];
    assert v[k..] == (a + b)[|a|..i + |v|] == b[..|v| - k];
  }

  /** No occurrence straddles the point between two emitted pieces. */
  lemma OutputSeamIsClean(values: seq<string>, pending: string, chunks: seq<string>, v: string)
    requires NoEmpty(values) && v in values && NoMark(v) && Uncuttable(v, values) && chunks != []
    ensures NoCross(RedactChunk(values, pending, chunks[0]).out,
                    Run(values, RedactChunk(values, pending, chunks[0]).pending, chunks[1..]), v)
  {
    var step, combined := RedactChunk(values, pending, chunks[0]), pending + chunks[0];
    forall k | 0 < k < |v| && EndsWith(step.out, v[..k]) ensures !(v[k..] <= Run(values, step.pending, chunks[1..])) {
      if v[k..] <= Run(values, step.pending, chunks[1..]) {
        RunPrefixOrigin(values, step.pending, chunks[1..], v[k..]);
        RedactSuffixOrigin(combined[..Cut(values, combined)], values, v[..k]);
        CutSpares(values, combined, Flatten(chunks[1..]), v);
      }
    }
  }

  // --- The tail of a canceled command ---

  lemma LongestIsPositive(values: seq<string>)
    requires NoEmpty(values) && values != []
    ensures LongestBytes(values) > 0
  {
    ValueBytes(values, 0);
    assert values[0] == values[0][..|values[0]| - 1] + [values[0][|values[0]| - 1]];
    ByteLenConcat(values[0][..|values[0]| - 1], [values[0][|values[0]| - 1]]);
    OneCharBytes(values[0][|values[0]| - 1]);
  }

  lemma BytesPositive(s: string)
    requires s != ""
    ensures ByteLen(s) > 0
  {
  }

  lemma HeldAtLeast(values: seq<string>, tail: string)
    requires LongestBytes(values) <= ByteLen(tail)
    ensures ByteLen(tail[Cut(values, tail)..]) >= LongestBytes(values)
  {
    var split, c := SplitAt(tail, LongestBytes(values)), Cut(values, tail);
    SplitLeaves(tail, LongestBytes(values));
    assert tail[c..] == tail[c..split] + tail[split..];
    ByteLenConcat(tail[c..split], tail[split..]);
  }

  /** A redactor that holds anything back at a cancellation still does after the flush, and nothing asks it for that
      again: that end of the output, as long as the longest secret if there is so much, is lost. */
  lemma FlushLosesTail(values: seq<string>, pending: string)
    requires NoEmpty(values) && values != []
    ensures var tail, step := RedactText(pending, values), FlushTail(values, pending);
            && (step.pending == "" <==> tail == "")
            && ByteLen(step.pending) >= (if ByteLen(tail) < LongestBytes(values) then ByteLen(tail) else LongestBytes(values))
            && (ByteLen(tail) <= LongestBytes(values) ==> step.out == "")
  {
    hide RedactText, LongestBytes, Cut;
    var tail := RedactText(pending, values);
    if tail != "" {
      LongestIsPositive(values);
      BytesPositive(tail);
      assert "" + tail == tail;
      if ByteLen(tail) > LongestBytes(values) {
        HeldAtLeast(values, tail);
      }
    }
  }
}
