/** The server's log file of one task: append, page reads, and recovery by truncation. */
module TaskLogStorage {
  import opened Options
  import opened Ndjson

  const MAX_TASK_LOG_FILE_BYTES: nat := 0x4000_0000
  const MAX_TASK_LOG_CHUNK_BYTES: nat := 0x1_0000
  const MAX_TASK_LOG_READ_BYTES: nat := 0x10_0000

  datatype FileState = FileState(size: nat, lastSequence: nat)

  // --- Recovery ---

  /** The scan of recoverUnlocked from a record boundary: how far the valid prefix reaches. */
  function Scan(c: Codec, file: Bytes, at: nat, last: nat): (state: FileState)
    requires at <= |file|
    ensures at <= state.size <= |file| && last <= state.lastSequence
    decreases |file| - at
  {
    var end := LineEnd(file, at);
    if end == |file| || end == at then FileState(at, last)
    else
      var parsed := c.dec(file[at..end]);
      if parsed.None? || parsed.value.sequence != last + 1 then FileState(at, last)
      else Scan(c, file, end + 1, last + 1)
  }

  /** The state of a file that holds exactly these records. */
  function StateOf(c: Codec, es: seq<Entry>): FileState {
    FileState(|Log(c, es)|, |es|)
  }

  function Joined(lines: seq<Bytes>): Bytes {
    if lines == [] then [] else lines[0] + [NEWLINE] + Joined(lines[1..])
  }

  /** A complete, non-empty line that parses as record number n. */
  ghost predicate ValidLine(c: Codec, line: Bytes, n: nat) {
    Unbroken(line) && c.dec(line).Some? && c.dec(line).value.sequence == n
  }

  ghost predicate ValidLines(c: Codec, lines: seq<Bytes>, first: nat) {
    forall i :: 0 <= i < |lines| ==> ValidLine(c, lines[i], first + i)
  }

  lemma ValidCons(c: Codec, line: Bytes, rest: seq<Bytes>, first: nat)
    requires ValidLine(c, line, first) && ValidLines(c, rest, first + 1)
    ensures ValidLines(c, [line] + rest, first) && Joined([line] + rest) == line + [NEWLINE] + Joined(rest)
  {
    var lines := [line] + rest;
    assert lines[1..] == rest;
    forall i | 0 <= i < |lines| ensures ValidLine(c, lines[i], first + i) {
      assert i > 0 ==> lines[i] == rest[i - 1];
    }
  }

  lemma ValidTail(c: Codec, lines: seq<Bytes>, first: nat)
    requires lines != [] && ValidLines(c, lines, first)
    ensures ValidLine(c, lines[0], first) && ValidLines(c, lines[1..], first + 1)
  {
    forall i | 0 <= i < |lines[1..]| ensures ValidLine(c, lines[1..][i], first + 1 + i) {
      assert ValidLine(c, lines[i + 1], first + (i + 1));
    }
  }

  lemma SliceAround(file: Bytes, at: nat, end: nat, size: nat)
    requires at <= end < size <= |file| && file[end] == NEWLINE
    ensures file[at..size] == file[at..end] + [NEWLINE] + file[end + 1..size]
  {
  }

  lemma {:induction false} ScanFindsLines(c: Codec, file: Bytes, at: nat, last: nat) returns (lines: seq<Bytes>)
    requires at <= |file|
    ensures var state := Scan(c, file, at, last);
            && ValidLines(c, lines, last + 1)
            && file[at..state.size] == Joined(lines) && state.lastSequence == last + |lines|
    decreases |file| - at
  {
    var end := LineEnd(file, at);
    lines := [];
    if end < |file| && at < end {
      var parsed := c.dec(file[at..end]);
      if parsed.Some? && parsed.value.sequence == last + 1 {
        var rest := ScanFindsLines(c, file, end + 1, last + 1);
        lines := [file[at..end]] + rest;
        SliceAround(file, at, end, Scan(c, file, at, last).size);
        ValidCons(c, file[at..end], rest, last + 1);
      }
    }
  }

  lemma FirstLine(file: Bytes, at: nat, line: Bytes)
    requires at <= |file| && Unbroken(line) && line + [NEWLINE] <= file[at..]
    ensures LineEnd(file, at) == at + |line| < |file| && file[at..at + |line|] == line
  {
    var end := at + |line|;
    assert file[at..][..|line| + 1] == line + [NEWLINE];
    assert file[end] == (line + [NEWLINE])[|line|];
    forall i | at <= i < end ensures file[i] != NEWLINE {
      assert file[i] == (line + [NEWLINE])[i - at] == line[i - at];
    }
    LineEndIs(file, at, end);
    assert file[at..end] == (line + [NEWLINE])[..|line|];
  }

  lemma ScanStep(c: Codec, file: Bytes, at: nat, last: nat, line: Bytes)
    requires at <= |file| && ValidLine(c, line, last + 1) && line + [NEWLINE] <= file[at..]
    ensures at + |line| + 1 <= |file| && Scan(c, file, at, last) == Scan(c, file, at + |line| + 1, last + 1)
  {
    FirstLine(file, at, line);
  }

  lemma PrefixParts(file: Bytes, at: nat, a: Bytes, b: Bytes)
    requires at <= |file| && a + b <= file[at..]
    ensures a <= file[at..] && at + |a| <= |file| && b <= file[at + |a|..]
  {
    assert file[at..][..|a + b|] == a + b;
    assert file[at..][..|a|] == (a + b)[..|a|] == a;
    assert file[at + |a|..][..|b|] == (a + b)[|a|..] == b;
  }

  lemma {:induction false} ScanPassesLines(c: Codec, file: Bytes, at: nat, last: nat, lines: seq<Bytes>)
    requires at <= |file| && ValidLines(c, lines, last + 1) && Joined(lines) <= file[at..]
    ensures at + |Joined(lines)| <= |file|
    ensures Scan(c, file, at, last) == Scan(c, file, at + |Joined(lines)|, last + |lines|)
    decreases |lines|
  {
    hide Scan, ValidLine;
    if lines != [] {
      ValidTail(c, lines, last + 1);
      PrefixParts(file, at, lines[0] + [NEWLINE], Joined(lines[1..]));
      ScanStep(c, file, at, last, lines[0]);
      ScanPassesLines(c, file, at + |lines[0]| + 1, last + 1, lines[1..]);
    }
  }

  /** Recovery keeps a prefix of complete valid records 1, 2, 3, ..., and no longer such prefix exists. */
  lemma RecoveryKeepsLongestPrefix(c: Codec, file: Bytes)
    ensures exists lines :: ValidLines(c, lines, 1) && file[..Scan(c, file, 0, 0).size] == Joined(lines)
                            && Scan(c, file, 0, 0).lastSequence == |lines|
    ensures forall lines :: ValidLines(c, lines, 1) && Joined(lines) <= file ==> |Joined(lines)| <= Scan(c, file, 0, 0).size
  {
    var lines := ScanFindsLines(c, file, 0, 0);
    assert file[0..Scan(c, file, 0, 0).size] == file[..Scan(c, file, 0, 0).size];
    forall more | ValidLines(c, more, 1) && Joined(more) <= file ensures |Joined(more)| <= Scan(c, file, 0, 0).size {
      assert file[0..] == file;
      ScanPassesLines(c, file, 0, 0, more);
    }
  }

  /** Recovering a recovered file changes nothing. */
  lemma RecoveryIsIdempotent(c: Codec, file: Bytes)
    ensures var state := Scan(c, file, 0, 0);
            Scan(c, file[..state.size], 0, 0) == state
  {
    var state := Scan(c, file, 0, 0);
    var lines := ScanFindsLines(c, file, 0, 0);
    var kept := file[..state.size];
    assert file[0..state.size] == kept && kept[0..] == kept;
    ScanPassesLines(c, kept, 0, 0, lines);
  }

  // --- Logs with a torn end ---

  /** A proper prefix of some record, as a failed or interrupted write leaves it. */
  ghost predicate Torn(c: Codec, end: Bytes) {
    exists e, k :: 0 <= k < |Rec(c, e)| && end == Rec(c, e)[..k]
  }

  lemma {:induction false} LogIsLines(c: Codec, es: seq<Entry>, first: nat) returns (lines: seq<Bytes>)
    requires Sound(c) && Numbered(es, first)
    ensures ValidLines(c, lines, first) && Joined(lines) == Log(c, es) && |lines| == |es|
    decreases |es|
  {
    if es == [] {
      lines := [];
    } else {
      var rest := LogIsLines(c, es[1..], first + 1);
      LogAround(c, es, 0);
      assert es[..0] == [];
      assert Unbroken(c.enc(es[0]));
      lines := [c.enc(es[0])] + rest;
      ValidCons(c, c.enc(es[0]), rest, first);
    }
  }

  /** Recovery drops a torn end and nothing else. */
  lemma TornEndIsDropped(c: Codec, es: seq<Entry>, end: Bytes)
    requires Sound(c) && Numbered(es, 1) && Torn(c, end)
    ensures Scan(c, Log(c, es) + end, 0, 0) == StateOf(c, es)
    ensures (Log(c, es) + end)[..|Log(c, es)|] == Log(c, es)
  {
    var file := Log(c, es) + end;
    var lines := LogIsLines(c, es, 1);
    var e, k :| 0 <= k < |Rec(c, e)| && end == Rec(c, e)[..k];
    assert file[0..] == file && file[|Log(c, es)|..] == end;
    ScanPassesLines(c, file, 0, 0, lines);
    TornLine(c, file, |Log(c, es)|, e, k);
  }

  lemma NothingTorn(c: Codec)
    ensures Torn(c, [])
  {
    var e := Entry(0, Stdout, "", "");
    assert Rec(c, e)[..0] == [];
  }

  /** After a crash at any byte of an append, recovery returns the old log or the new one. */
  lemma CrashKeepsLog(c: Codec, es: seq<Entry>, e: Entry, k: nat)
    requires Sound(c) && Numbered(es + [e], 1) && k <= |Rec(c, e)|
    ensures var file := Log(c, es) + Rec(c, e)[..k];
            var state := Scan(c, file, 0, 0);
            && state == StateOf(c, if k < |Rec(c, e)| then es else es + [e])
            && file[..state.size] == Log(c, if k < |Rec(c, e)| then es else es + [e])
  {
    assert Numbered(es, 1) by {
      forall i | 0 <= i < |es| ensures es[i].sequence == 1 + i {
        assert es[i] == (es + [e])[i];
      }
    }
    if k < |Rec(c, e)| {
      TornEndIsDropped(c, es, Rec(c, e)[..k]);
    } else {
      NothingTorn(c);
      LogConcat(c, es, [e]);
      LogOne(c, e);
      TornEndIsDropped(c, es + [e], []);
      assert Log(c, es + [e]) + [] == Log(c, es) + Rec(c, e)[..k];
    }
  }
}
