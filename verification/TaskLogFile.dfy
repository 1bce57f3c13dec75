/** The storage object of one task's log: a file, a cached state, and operations that survive failed writes. */
module TaskLogFile {
  import opened Options
  import opened Ndjson
  import opened TaskLogStorage

  datatype AppendResult = Appended(size: nat) | InvalidSequence | IoError

  datatype Page = Page(entries: seq<Entry>, next: nat)

  /** The read loop over the lines from `at`: `some` says whether the page already has an entry. */
  function PageScan(c: Codec, file: Bytes, at: nat, limit: nat, consumed: nat, some: bool): (page: Page)
    requires at <= |file|
    ensures at <= page.next <= |file|
    decreases |file| - at
  {
    var end := LineEnd(file, at);
    var lineBytes := end - at + 1;
    if end == |file| || (some && consumed + lineBytes > limit) then Page([], at)
    else if end == at then PageScan(c, file, end + 1, limit, consumed + lineBytes, some)
    else
      var parsed := c.dec(file[at..end]);
      if parsed.None? || parsed.value.sequence == 0 then Page([], at)
      else if consumed + lineBytes >= limit then Page([parsed.value], end + 1)
      else
        var rest := PageScan(c, file, end + 1, limit, consumed + lineBytes, true);
        Page([parsed.value] + rest.entries, rest.next)
  }

  ghost function Prepend(read: seq<Entry>, page: Page): Page {
    Page(read + page.entries, page.next)
  }

  lemma PrependNothing(page: Page)
    ensures Prepend([], page) == page
  {
  }

  lemma PrependedNothing(read: seq<Entry>, next: nat)
    ensures Prepend(read, Page([], next)) == Page(read, next)
  {
    assert read + [] == read;
  }

  lemma PageScanIs(c: Codec, file: Bytes, at: nat, limit: nat, consumed: nat, some: bool)
    requires at <= |file|
    ensures var end := LineEnd(file, at);
            var lineBytes := end - at + 1;
            PageScan(c, file, at, limit, consumed, some) ==
              if end == |file| || (some && consumed + lineBytes > limit) then Page([], at)
              else if end == at then PageScan(c, file, end + 1, limit, consumed + lineBytes, some)
              else
                var parsed := c.dec(file[at..end]);
                if parsed.None? || parsed.value.sequence == 0 then Page([], at)
                else if consumed + lineBytes >= limit then Page([parsed.value], end + 1)
                else
                  var rest := PageScan(c, file, end + 1, limit, consumed + lineBytes, true);
                  Page([parsed.value] + rest.entries, rest.next)
  {
  }

  lemma PrependOne(read: seq<Entry>, entry: Entry, page: Page)
    ensures Prepend(read, Page([entry] + page.entries, page.next)) == Prepend(read + [entry], page)
  {
    assert read + ([entry] + page.entries) == read + [entry] + page.entries;
  }

  /** What a page read returns to its caller. */
  datatype ReadResult = Rejected | Read(entries: seq<Entry>, nextOffset: nat, size: nat, eof: bool)

  function ReadPage(c: Codec, file: Bytes, offset: int, limit: int): ReadResult {
    if offset < 0 || limit <= 0 || offset > |file| then Rejected
    else if offset > 0 && file[offset - 1] != NEWLINE then Rejected
    else if offset == |file| then Read([], offset, |file|, true)
    else
      var bounded := if limit < MAX_TASK_LOG_READ_BYTES then limit else MAX_TASK_LOG_READ_BYTES;
      var page := PageScan(c, file, offset, bounded, 0, false);
      Read(page.entries, page.next, |file|, page.next >= |file|)
  }

  /** Pages of a log: from record i, records i up to j, at least one of them if there is one; more than
      one only within the limit, and short of the end only because the next one would exceed it. */
  ghost predicate IsPage(c: Codec, es: seq<Entry>, i: nat, j: nat, limit: nat, consumed: nat, some: bool)
    requires i <= j <= |es|
  {
    && (i < |es| && !some ==> i < j)
    && (i + (if some then 0 else 1) < j ==> consumed + Offset(c, es, j) - Offset(c, es, i) <= limit)
    && (j < |es| ==> consumed + Offset(c, es, j + 1) - Offset(c, es, i) > limit)
  }

  /** One turn of the read loop at record i of a log. */
  lemma PageStep(c: Codec, es: seq<Entry>, i: nat, limit: nat, consumed: nat, some: bool)
    requires Sound(c) && Numbered(es, 1) && i < |es|
    ensures var at, next := Offset(c, es, i), Offset(c, es, i + 1);
            && at < next <= |Log(c, es)|
            && PageScan(c, Log(c, es), at, limit, consumed, some) ==
                 if some && consumed + next - at > limit then Page([], at)
                 else if consumed + next - at >= limit then Page([es[i]], next)
                 else
                   var rest := PageScan(c, Log(c, es), next, limit, consumed + next - at, true);
                   Page([es[i]] + rest.entries, rest.next)
  {
    RecordAt(c, es, i);
    hide Log, Sound, Rec, Offset;
    var file, at := Log(c, es), Offset(c, es, i);
    assert es[i].sequence == i + 1;
  }

  lemma PageAtEnd(c: Codec, es: seq<Entry>, limit: nat, consumed: nat, some: bool)
    ensures Offset(c, es, |es|) == |Log(c, es)|
    ensures PageScan(c, Log(c, es), |Log(c, es)|, limit, consumed, some) == Page([], |Log(c, es)|)
  {
    assert es[..|es|] == es;
  }

  lemma IsPageExtends(c: Codec, es: seq<Entry>, i: nat, j: nat, limit: nat, consumed: nat, some: bool)
    requires i < j <= |es| && Offset(c, es, i) < Offset(c, es, i + 1)
    requires var more := consumed + Offset(c, es, i + 1) - Offset(c, es, i);
             && (j == i + 1 && some ==> more <= limit)
             && IsPage(c, es, i + 1, j, limit, more, true)
    ensures IsPage(c, es, i, j, limit, consumed, some)
  {
  }

  lemma {:induction false} PageOfLog(c: Codec, es: seq<Entry>, i: nat, limit: nat, consumed: nat, some: bool) returns (j: nat)
    requires Sound(c) && Numbered(es, 1) && i <= |es| && Offset(c, es, i) <= |Log(c, es)|
    ensures i <= j <= |es| && IsPage(c, es, i, j, limit, consumed, some) && Offset(c, es, j) <= |Log(c, es)|
    ensures PageScan(c, Log(c, es), Offset(c, es, i), limit, consumed, some) == Page(es[i..j], Offset(c, es, j))
    decreases |es| - i
  {
    hide PageScan, Log, Sound, Rec, Numbered, Offset;
    j := i;
    if i == |es| {
      PageAtEnd(c, es, limit, consumed, some);
    } else {
      PageStep(c, es, i, limit, consumed, some);
      var more := consumed + Offset(c, es, i + 1) - Offset(c, es, i);
      if !(some && more > limit) {
        if more >= limit {
          j := i + 1;
          OffsetGrows(c, es, j, if j < |es| then j + 1 else j);
        } else {
          hide IsPage;
          j := PageOfLog(c, es, i + 1, limit, more, true);
          IsPageExtends(c, es, i, j, limit, consumed, some);
          assert es[i..j] == [es[i]] + es[i + 1..j];
        }
      }
    }
  }

  lemma ScanIs(c: Codec, file: Bytes, at: nat, last: nat)
    requires at <= |file|
    ensures var end := LineEnd(file, at);
            Scan(c, file, at, last) ==
              if end == |file| || end == at then FileState(at, last)
              else
                var parsed := c.dec(file[at..end]);
                if parsed.None? || parsed.value.sequence != last + 1 then FileState(at, last)
                else Scan(c, file, end + 1, last + 1)
  {
  }

  class TaskLogFile {
    const codec: Codec
    var file: Bytes
    var cache: Option<FileState>
    /** The records of the file, and the rest of a failed write behind them. */
    ghost var entries: seq<Entry>
    ghost var torn: Bytes

    ghost predicate Valid()
      reads this
    {
      && Sound(codec) && Numbered(entries, 1)
      && file == Log(codec, entries) + torn && Torn(codec, torn)
      && (cache.Some? ==> cache.value.lastSequence <= |entries|
                          && cache.value.size == |Log(codec, entries[..cache.value.lastSequence])|)
    }

    /** The cache describes the file exactly. */
    ghost predicate Clean()
      reads this
    {
      torn == [] && cache == Some(StateOf(codec, entries))
    }

    constructor (codec: Codec)
      requires Sound(codec)
      ensures Valid() && entries == [] && this.codec == codec
    {
      this.codec := codec;
      file := [];
      cache := None;
      entries := [];
      torn := [];
      new;
      NothingTorn(codec);
    }

    /** A cached size equal to the file's size proves that the cache is current. */
    lemma SameSizeIsClean(state: FileState)
      requires Valid() && state.lastSequence <= |entries| && state.size == |Log(codec, entries[..state.lastSequence])|
      requires |file| == state.size
      ensures torn == [] && state == StateOf(codec, entries) && file == Log(codec, entries)
    {
      OffsetGrows(codec, entries, state.lastSequence, |entries|);
      assert entries[..|entries|] == entries;
    }

    /** The loop over the lines of the file, up to the first line that is not the next record. */
    method ScanFile() returns (state: FileState)
      ensures state == Scan(codec, file, 0, 0)
    {
      hide Scan;
      var validOffset, lastSequence := 0, 0;
      var valid := true;
      while valid
        invariant validOffset <= |file|
        invariant Scan(codec, file, 0, 0) == if valid then Scan(codec, file, validOffset, lastSequence) else FileState(validOffset, lastSequence)
        decreases |file| - validOffset, valid
      {
        var end := LineEnd(file, validOffset);
        ScanIs(codec, file, validOffset, lastSequence);
        if end == |file| || end == validOffset {
          valid := false;
        } else {
          var parsed := codec.dec(file[validOffset..end]);
          if parsed.None? || parsed.value.sequence != lastSequence + 1 {
            valid := false;
          } else {
            validOffset, lastSequence := end + 1, lastSequence + 1;
          }
        }
      }
      state := FileState(validOffset, lastSequence);
    }

    method Recover() returns (state: FileState)
      requires Valid()
      modifies this
      ensures Valid() && Clean() && entries == old(entries) && state == StateOf(codec, entries)
    {
      TornEndIsDropped(codec, entries, torn);
      NothingTorn(codec);
      assert entries[..|entries|] == entries;
      hide Log, Sound, Torn, Numbered, Scan;
      state := ScanFile();
      if state.size < |file| {
        file := file[..state.size];
      }
      assert file == Log(codec, entries);
      torn := [];
      cache := Some(state);
      assert file == Log(codec, entries) + torn;
    }

    /** The current state; the cache is trusted only if it agrees with the caller and with the file. */
    method GetState(expected: Option<FileState>) returns (state: FileState)
      requires Valid()
      modifies this
      ensures Valid() && Clean() && entries == old(entries) && state == StateOf(codec, entries)
    {
      if cache.Some? && (expected.None? || expected == cache) {
        if |file| == cache.value.size {
          SameSizeIsClean(cache.value);
          return cache.value;
        }
      }
      state := Recover();
    }

    /** Writes until done or until the system takes nothing. */
    method Write(encoded: Bytes, accepts: nat -> nat) returns (written: nat)
      modifies `file
      ensures written <= |encoded| && file == old(file) + encoded[..written]
      ensures (forall n :: accepts(n) > 0) ==> written == |encoded|
    {
      written := 0;
      var n := 0;
      while written < |encoded|
        invariant 0 <= written <= |encoded| && n >= 0
        invariant file == old(file) + encoded[..written]
      {
        var taken := accepts(n);
        n := n + 1;
        if taken == 0 {
          return;
        }
        var upTo := if taken < |encoded| - written then written + taken else |encoded|;
        file := file + encoded[written..upTo];
        assert encoded[..upTo] == encoded[..written] + encoded[written..upTo];
        written := upTo;
      }
    }

    /** What a complete write leaves: one more record, nothing torn, and an old cache that is still a prefix. */
    lemma AfterWrite(before: seq<Entry>, entry: Entry)
      requires Numbered(before, 1) && entry.sequence == |before| + 1
      ensures Numbered(before + [entry], 1)
      ensures Log(codec, before + [entry]) == Log(codec, before) + Rec(codec, entry)
      ensures forall k :: 0 <= k <= |before| ==> (before + [entry])[..k] == before[..k]
      ensures (before + [entry])[..|before| + 1] == before + [entry]
    {
      hide Log, Rec;
      LogConcat(codec, before, [entry]);
      LogOne(codec, entry);
    }

    lemma WholeIsNotTorn(entry: Entry)
      ensures Torn(codec, [])
      ensures Rec(codec, entry)[..|Rec(codec, entry)|] == Rec(codec, entry)
    {
      NothingTorn(codec);
    }

    lemma AfterPartialWrite(entry: Entry, k: nat)
      requires k < |Rec(codec, entry)|
      ensures Torn(codec, Rec(codec, entry)[..k])
    {
    }

    /** Appends one record. The system may take any number of bytes per write, or none and fail; the
        final sync may fail too. A failed append leaves the old records, or the old records and the new one. */
    method Append(entry: Entry, accepts: nat -> nat, synced: bool) returns (result: AppendResult)
      requires Valid()
      modifies this
      ensures Valid()
      ensures result.Appended? ==> entry.sequence == |old(entries)| + 1 && entries == old(entries) + [entry]
                                   && Clean() && result.size == |Log(codec, entries)| == |file|
      ensures entries != old(entries) ==> (result.Appended? <==> synced)
      ensures result == InvalidSequence ==> entry.sequence != |old(entries)| + 1 && entries == old(entries)
      ensures result == IoError ==> entries == old(entries) || (entry.sequence == |old(entries)| + 1 && entries == old(entries) + [entry])
      ensures if entries == old(entries) then torn == old(torn) || torn < Rec(codec, entry) else torn == []
      ensures |Rec(codec, entry)| > MAX_TASK_LOG_CHUNK_BYTES + 2_048
              || |Log(codec, old(entries))| + |Rec(codec, entry)| > MAX_TASK_LOG_FILE_BYTES ==>
                entries == old(entries) && !result.Appended? && (torn == old(torn) || torn == [])
      ensures (entry.sequence == |old(entries)| + 1 && (forall n :: accepts(n) > 0)
               && |Rec(codec, entry)| <= MAX_TASK_LOG_CHUNK_BYTES + 2_048
               && |Log(codec, old(entries))| + |Rec(codec, entry)| <= MAX_TASK_LOG_FILE_BYTES) ==> entries == old(entries) + [entry]
      ensures result == IoError && synced && (forall n :: accepts(n) > 0) ==>
                |Rec(codec, entry)| > MAX_TASK_LOG_CHUNK_BYTES + 2_048
                || |Log(codec, old(entries))| + |Rec(codec, entry)| > MAX_TASK_LOG_FILE_BYTES
    {
      hide Log, Sound, Torn, Rec, Numbered;
      var state: FileState;
      if cache.Some? {
        state := cache.value;
      } else {
        state := Recover();
      }
      var encoded := Rec(codec, entry);
      if |encoded| > MAX_TASK_LOG_CHUNK_BYTES + 2_048 {
        return IoError;
      }
      if |file| != state.size {
        state := Recover();
      }
      SameSizeIsClean(state);
      if entry.sequence != state.lastSequence + 1 {
        return InvalidSequence;
      }
      if |file| + |encoded| > MAX_TASK_LOG_FILE_BYTES {
        return IoError;
      }
      ghost var before := entries;
      var written := Write(encoded, accepts);
      if written < |encoded| {
        AfterPartialWrite(entry, written);
        torn := encoded[..written];
        return IoError;
      }
      AfterWrite(before, entry);
      WholeIsNotTorn(entry);
      entries := before + [entry];
      torn := [];
      if !synced {
        return IoError;
      }
      cache := Some(FileState(state.size + |encoded|, entry.sequence));
      result := Appended(state.size + |encoded|);
    }

    method ReadLines(offset: nat, limit: nat) returns (page: Page)
      requires offset <= |file|
      ensures page == PageScan(codec, file, offset, limit, 0, false)
    {
      hide PageScan, Prepend;
      PrependNothing(PageScan(codec, file, offset, limit, 0, false));
      var read: seq<Entry> := [];
      var nextOffset: nat, consumed: nat := offset, 0;
      var more := true;
      while more
        invariant offset <= nextOffset <= |file|
        invariant PageScan(codec, file, offset, limit, 0, false) ==
                    Prepend(read, if more then PageScan(codec, file, nextOffset, limit, consumed, read != []) else Page([], nextOffset))
        decreases |file| - nextOffset, more
      {
        var end := LineEnd(file, nextOffset);
        var lineBytes := end - nextOffset + 1;
        PageScanIs(codec, file, nextOffset, limit, consumed, read != []);
        if end == |file| || (read != [] && consumed + lineBytes > limit) {
          more := false;
        } else if end == nextOffset {
          nextOffset, consumed := end + 1, consumed + lineBytes;
        } else {
          var parsed := codec.dec(file[nextOffset..end]);
          if parsed.None? || parsed.value.sequence == 0 {
            more := false;
          } else {
            PrependOne(read, parsed.value, PageScan(codec, file, end + 1, limit, consumed + lineBytes, true));
            PrependOne(read, parsed.value, Page([], end + 1));
            assert [parsed.value] + [] == [parsed.value];
            read := read + [parsed.value];
            nextOffset, consumed := end + 1, consumed + lineBytes;
            more := consumed < limit;
          }
        }
      }
      page := Page(read, nextOffset);
      PrependedNothing(read, nextOffset);
    }

    method ReadFrom(offset: int, limit: int) returns (result: ReadResult)
      requires Valid()
      modifies this
      ensures Valid() && Clean() && entries == old(entries)
      ensures result == ReadPage(codec, Log(codec, entries), offset, limit)
    {
      var state := GetState(None);
      SameSizeIsClean(state);
      if offset < 0 || limit <= 0 || offset > |file| {
        return Rejected;
      }
      if offset > 0 && file[offset - 1] != NEWLINE {
        return Rejected;
      }
      if offset == |file| {
        return Read([], offset, |file|, true);
      }
      var bounded := if limit < MAX_TASK_LOG_READ_BYTES then limit else MAX_TASK_LOG_READ_BYTES;
      var page := ReadLines(offset, bounded);
      result := Read(page.entries, page.next, |file|, page.next >= |file|);
    }
  }

  /** A read of a log succeeds exactly at record boundaries, and returns the records from there on. */
  lemma ReadReturnsRecords(c: Codec, es: seq<Entry>, offset: int, limit: int)
    requires Sound(c) && Numbered(es, 1) && limit > 0
    ensures var result := ReadPage(c, Log(c, es), offset, limit);
            && (result.Read? <==> exists i :: 0 <= i <= |es| && offset == |Log(c, es[..i])|)
            && (result.Read? ==> result.size == |Log(c, es)|)
  {
    var result := ReadPage(c, Log(c, es), offset, limit);
    if 0 < offset <= |Log(c, es)| {
      BoundaryIffBreak(c, es, offset);
    } else if offset == 0 {
      assert es[..0] == [];
      assert offset == |Log(c, es[..0])|;
    } else {
      forall i | 0 <= i <= |es| ensures offset != |Log(c, es[..i])| {
        LogSplit(c, es, i);
      }
    }
  }

  lemma BoundedPage(c: Codec, es: seq<Entry>, i: nat, limit: nat) returns (j: nat)
    requires Sound(c) && Numbered(es, 1) && limit > 0 && i < |es|
    ensures i < j <= |es| && Offset(c, es, i) <= |Log(c, es)|
    ensures PageScan(c, Log(c, es), Offset(c, es, i), limit, 0, false) == Page(es[i..j], Offset(c, es, j))
    ensures i + 1 < j ==> Offset(c, es, j) - Offset(c, es, i) <= limit
    ensures j < |es| ==> Offset(c, es, j + 1) - Offset(c, es, i) > limit
  {
    hide PageScan, Offset, Log;
    OffsetGrows(c, es, i, |es|);
    j := PageOfLog(c, es, i, limit, 0, false);
  }

  lemma ReadFromRecord(c: Codec, es: seq<Entry>, i: nat, limit: int) returns (j: nat)
    requires Sound(c) && Numbered(es, 1) && limit > 0 && i <= |es|
    ensures i <= j <= |es| && (i < |es| ==> i < j)
    ensures ReadPage(c, Log(c, es), Offset(c, es, i), limit) == Read(es[i..j], Offset(c, es, j), |Log(c, es)|, j == |es|)
    ensures i + 1 < j ==> Offset(c, es, j) - Offset(c, es, i) <= limit && Offset(c, es, j) - Offset(c, es, i) <= 1_048_576
    ensures i < j < |es| ==> Offset(c, es, j + 1) - Offset(c, es, i) > (if limit < 1_048_576 then limit else 1_048_576)
  {
    hide PageScan, Offset, Numbered, Sound, Log;
    BoundaryReads(c, es, i, limit);
    OffsetGrows(c, es, i, |es|);
    j := i;
    if i < |es| {
      var bounded := if limit < MAX_TASK_LOG_READ_BYTES then limit else MAX_TASK_LOG_READ_BYTES;
      j := BoundedPage(c, es, i, bounded);
      OffsetGrows(c, es, j, |es|);
    } else {
      assert es[i..j] == [];
    }
  }

  /** A boundary of the log is accepted as one. */
  lemma BoundaryReads(c: Codec, es: seq<Entry>, i: nat, limit: int)
    requires Sound(c) && Numbered(es, 1) && limit > 0 && i <= |es|
    ensures 0 <= Offset(c, es, i) <= |Log(c, es)|
    ensures Offset(c, es, i) > 0 ==> Log(c, es)[Offset(c, es, i) - 1] == NEWLINE
  {
    LogSplit(c, es, i);
    ReadReturnsRecords(c, es, Offset(c, es, i), limit);
    hide PageScan, Log, Numbered, Sound;
  }
}
