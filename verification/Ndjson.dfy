/** Files of newline-terminated records, as both log files are, over any sound record codec. */
module Ndjson {
  import opened Options
  import opened Utf8

  type Bytes = seq<byte>

  datatype Stream = Stdout | Stderr
  datatype Entry = Entry(sequence: nat, stream: Stream, chunk: string, emittedAt: string)

  /** A live event: a record and where it stands in the file. */
  datatype Message = Message(offset: nat, nextOffset: nat, entry: Entry)

  const NEWLINE: byte := 10

  /** A record encoder and the parser that reads a line back. */
  datatype Codec = Codec(enc: Entry -> Bytes, dec: Bytes -> Option<Entry>)

  ghost predicate Unbroken(line: Bytes) {
    line != [] && forall i :: 0 <= i < |line| ==> line[i] != NEWLINE
  }

  /** Encoding is injective, never empty, and never contains a line break. */
  ghost predicate Sound(c: Codec) {
    forall e {:trigger c.enc(e)} :: Unbroken(c.enc(e)) && c.dec(c.enc(e)) == Some(e)
  }

  function Rec(c: Codec, e: Entry): (bs: Bytes)
    ensures bs != []
  {
    c.enc(e) + [NEWLINE]
  }

  /** The file that holds these records and nothing else. */
  function Log(c: Codec, es: seq<Entry>): Bytes {
    if es == [] then [] else Log(c, es[..|es| - 1]) + Rec(c, es[|es| - 1])
  }

  /** Records are numbered from `first` on, without gaps. */
  ghost predicate Numbered(es: seq<Entry>, first: nat) {
    forall i :: 0 <= i < |es| ==> es[i].sequence == first + i
  }

  // --- Scanning ---

  /** Where the line that starts at `from` ends: its line break, or the end of the file. */
  function LineEnd(file: Bytes, from: nat): (end: nat)
    requires from <= |file|
    ensures from <= end <= |file|
    ensures forall i :: from <= i < end ==> file[i] != NEWLINE
    ensures end < |file| ==> file[end] == NEWLINE
    decreases |file| - from
  {
    if from == |file| || file[from] == NEWLINE then from else LineEnd(file, from + 1)
  }

  lemma LineEndIs(file: Bytes, from: nat, end: nat)
    requires from <= end < |file| && file[end] == NEWLINE && forall i :: from <= i < end ==> file[i] != NEWLINE
    ensures LineEnd(file, from) == end
  {
  }

  lemma LineEndNone(file: Bytes, from: nat)
    requires from <= |file| && forall i :: from <= i < |file| ==> file[i] != NEWLINE
    ensures LineEnd(file, from) == |file|
  {
  }

  // --- Facts about logs ---

  lemma {:induction false} LogConcat(c: Codec, a: seq<Entry>, b: seq<Entry>)
    ensures Log(c, a + b) == Log(c, a) + Log(c, b)
  {
    if b == [] {
      assert a + b == a;
    } else {
      assert (a + b)[..|a + b| - 1] == a + b[..|b| - 1];
      LogConcat(c, a, b[..|b| - 1]);
    }
  }

  lemma LogOne(c: Codec, e: Entry)
    ensures Log(c, [e]) == Rec(c, e)
  {
    assert [e][..0] == [];
    assert Log(c, []) == [];
  }

  /** The file around record i. */
  lemma LogAround(c: Codec, es: seq<Entry>, i: nat)
    requires i < |es|
    ensures Log(c, es) == Log(c, es[..i]) + (Rec(c, es[i]) + Log(c, es[i + 1..]))
    ensures Log(c, es[..i + 1]) == Log(c, es[..i]) + Rec(c, es[i])
  {
    assert es == es[..i] + ([es[i]] + es[i + 1..]);
    LogConcat(c, es[..i], [es[i]] + es[i + 1..]);
    LogConcat(c, [es[i]], es[i + 1..]);
    LogOne(c, es[i]);
    assert es[..i + 1][..i] == es[..i];
  }

  lemma LogSplit(c: Codec, es: seq<Entry>, i: nat)
    requires i <= |es|
    ensures Log(c, es) == Log(c, es[..i]) + Log(c, es[i..])
  {
    assert es == es[..i] + es[i..];
    LogConcat(c, es[..i], es[i..]);
  }

  lemma {:induction false} LogGrows(c: Codec, es: seq<Entry>, i: nat, j: nat)
    requires i < j <= |es|
    ensures |Log(c, es[..i])| < |Log(c, es[..j])|
    decreases j
  {
    LogAround(c, es, j - 1);
    if i < j - 1 {
      LogGrows(c, es, i, j - 1);
    }
  }

  /** Where record i starts in the file of these records. */
  function Offset(c: Codec, es: seq<Entry>, i: nat): nat
    requires i <= |es|
  {
    |Log(c, es[..i])|
  }

  lemma OffsetGrows(c: Codec, es: seq<Entry>, i: nat, j: nat)
    requires i <= j <= |es|
    ensures Offset(c, es, i) <= Offset(c, es, j) <= |Log(c, es)| == Offset(c, es, |es|)
    ensures i < j ==> Offset(c, es, i) < Offset(c, es, j)
  {
    assert es[..|es|] == es;
    if i < j {
      LogGrows(c, es, i, j);
    }
    if j < |es| {
      LogGrows(c, es, j, |es|);
    }
  }

  /** In a file that continues a log, the line at a record boundary is that record. */
  lemma RecordLine(c: Codec, file: Bytes, at: nat, e: Entry, rest: Bytes)
    requires Sound(c) && at <= |file| && file[at..] == Rec(c, e) + rest
    ensures LineEnd(file, at) == at + |c.enc(e)| < |file|
    ensures file[at..LineEnd(file, at)] == c.enc(e)
  {
    var line := c.enc(e);
    var end := at + |line|;
    assert Unbroken(line);
    assert file[at..][..|line|] == line && file[at..][|line|] == NEWLINE;
    forall i | at <= i < end ensures file[i] != NEWLINE {
      assert file[i] == file[at..][i - at] == line[i - at];
    }
    LineEndIs(file, at, end);
    assert file[at..end] == file[at..][..|line|];
  }

  /** Record i of a log is the line at its offset. */
  lemma RecordAt(c: Codec, es: seq<Entry>, i: nat)
    requires Sound(c) && i < |es|
    ensures var file, at := Log(c, es), Offset(c, es, i);
            && at < Offset(c, es, i + 1) <= |file|
            && LineEnd(file, at) == at + |c.enc(es[i])| == Offset(c, es, i + 1) - 1
            && at < LineEnd(file, at) < |file|
            && c.dec(file[at..LineEnd(file, at)]) == Some(es[i])
  {
    var file, at := Log(c, es), Offset(c, es, i);
    LogAround(c, es, i);
    assert file[at..] == Rec(c, es[i]) + Log(c, es[i + 1..]);
    RecordLine(c, file, at, es[i], Log(c, es[i + 1..]));
    assert Unbroken(c.enc(es[i]));
  }

  /** A torn record has no line break. */
  lemma TornLine(c: Codec, file: Bytes, at: nat, e: Entry, k: nat)
    requires Sound(c) && at <= |file| && k < |Rec(c, e)| && file[at..] == Rec(c, e)[..k]
    ensures LineEnd(file, at) == |file|
  {
    var line := c.enc(e);
    assert Unbroken(line);
    forall i | at <= i < |file| ensures file[i] != NEWLINE {
      assert file[i] == file[at..][i - at] == Rec(c, e)[i - at] == line[i - at];
    }
    LineEndNone(file, at);
  }

  /** A byte before p is a line break exactly when p is the end of a record. */
  lemma {:induction false} BoundaryIffBreak(c: Codec, es: seq<Entry>, p: nat)
    requires Sound(c) && 0 < p <= |Log(c, es)|
    ensures Log(c, es)[p - 1] == NEWLINE <==> exists i :: 0 <= i <= |es| && p == |Log(c, es[..i])|
  {
    var n := |es| - 1;
    var before, line := Log(c, es[..n]), c.enc(es[n]);
    assert Unbroken(line);
    assert Log(c, es) == before + (line + [NEWLINE]);
    if p <= |before| {
      BoundaryIffBreak(c, es[..n], p);
      assert Log(c, es)[p - 1] == before[p - 1];
      if before[p - 1] == NEWLINE {
        var i :| 0 <= i <= |es[..n]| && p == |Log(c, es[..n][..i])|;
        assert es[..n][..i] == es[..i];
      } else {
        forall i | 0 <= i <= |es| ensures p != |Log(c, es[..i])| {
          if i <= n {
            assert es[..n][..i] == es[..i];
          } else {
            assert es[..i] == es;
          }
        }
      }
    } else if p <= |before| + |line| {
      assert Log(c, es)[p - 1] == line[p - 1 - |before|];
      forall i | 0 <= i <= |es| ensures p != |Log(c, es[..i])| {
        if i < n {
          LogGrows(c, es, i, n);
        } else if i == |es| {
          assert es[..i] == es;
        }
      }
    } else {
      assert es[..|es|] == es;
      assert p == |Log(c, es[..|es|])|;
    }
  }
}
