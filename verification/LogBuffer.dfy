/** The agent's bounded on-disk log buffer: cumulative acknowledgements with lazy compaction. */
module LogBuffer {
  import opened Options
  import opened Ndjson

  const COMPACTION_SEQUENCE_THRESHOLD: nat := 256

  /** What the buffer stands for: every record it ever accepted, how many of those a compaction removed from
      the file, and how many the server acknowledged. */
  datatype Buffer = Buffer(history: seq<Entry>, compacted: nat, acked: nat, since: nat, full: bool)

  const EMPTY := Buffer([], 0, 0, 0, false)

  /** The file's contents. */
  function Retained(c: Codec, b: Buffer): Bytes
    requires b.compacted <= |b.history|
  {
    Log(c, b.history[b.compacted..])
  }

  ghost predicate Kept(c: Codec, b: Buffer, maxBytes: nat) {
    && b.compacted <= b.acked <= |b.history|
    && b.acked - b.compacted < COMPACTION_SEQUENCE_THRESHOLD
    && (b.acked == |b.history| ==> b.compacted == b.acked)
    && Numbered(b.history, 1)
    && |Retained(c, b)| <= maxBytes
  }

  datatype Push = Stored | Full | Invalid

  function PushResult(c: Codec, b: Buffer, maxBytes: nat, e: Entry): Push
    requires b.compacted <= |b.history|
  {
    if b.full then Full
    else if e.sequence != |b.history| + 1 then Invalid
    else if |Retained(c, b)| + |Rec(c, e)| > maxBytes then Full
    else Stored
  }

  function Pushed(c: Codec, b: Buffer, maxBytes: nat, e: Entry): Buffer
    requires b.compacted <= |b.history|
  {
    match PushResult(c, b, maxBytes, e)
    case Stored => b.(history := b.history + [e], since := b.since + |Rec(c, e)|)
    case Full => b.(full := true)
    case Invalid => b
  }

  /** None when the acknowledgement names a record the buffer has not accepted yet. */
  function Acknowledged(b: Buffer, maxBytes: nat, sequence: nat): Option<Buffer> {
    if sequence > |b.history| then None
    else if sequence <= b.acked then Some(b)
    else if sequence == |b.history| || b.since >= (if maxBytes > 1 then maxBytes else 1) / 2
            || sequence - b.compacted >= COMPACTION_SEQUENCE_THRESHOLD then
      Some(b.(acked := sequence, compacted := sequence, since := 0, full := false))
    else Some(b.(acked := sequence, full := false))
  }

  /** The records a reconnecting agent sends again. */
  function Unacknowledged(b: Buffer): seq<Entry>
    requires b.acked <= |b.history|
  {
    b.history[b.acked..]
  }

  lemma NumberedGrows(es: seq<Entry>, e: Entry, first: nat)
    requires Numbered(es, first) && e.sequence == first + |es|
    ensures Numbered(es + [e], first)
  {
  }

  lemma PushKeeps(c: Codec, b: Buffer, maxBytes: nat, e: Entry)
    requires Kept(c, b, maxBytes)
    ensures Kept(c, Pushed(c, b, maxBytes, e), maxBytes)
    ensures PushResult(c, b, maxBytes, e) == Stored ==>
              Retained(c, Pushed(c, b, maxBytes, e)) == Retained(c, b) + Rec(c, e)
    ensures PushResult(c, b, maxBytes, e) != Stored ==>
              Pushed(c, b, maxBytes, e).history == b.history && Retained(c, Pushed(c, b, maxBytes, e)) == Retained(c, b)
  {
    hide Log, Rec;
    if PushResult(c, b, maxBytes, e) == Stored {
      NumberedGrows(b.history, e, 1);
      assert (b.history + [e])[b.compacted..] == b.history[b.compacted..] + [e];
      LogConcat(c, b.history[b.compacted..], [e]);
      LogOne(c, e);
    }
  }

  /** Whether the next record finds room: the buffer has refused none since the last new acknowledgement, and the line
      fits behind the bytes in the file. */
  predicate HasRoom(c: Codec, b: Buffer, maxBytes: nat, e: Entry)
    requires b.compacted <= |b.history|
  {
    !b.full && |Log(c, b.history[b.compacted..])| + |c.enc(e)| + 1 <= maxBytes
  }

  /** The next record is stored exactly if it finds room, and a refusal blocks the buffer; a record with any other
      number changes nothing but may find the buffer blocked. */
  lemma PushExact(c: Codec, b: Buffer, maxBytes: nat, e: Entry)
    requires b.compacted <= |b.history|
    ensures var next := Pushed(c, b, maxBytes, e);
            if e.sequence == |b.history| + 1 && HasRoom(c, b, maxBytes, e)
            then next.history == b.history + [e] && !next.full
            else next.history == b.history && (next.full <==> b.full || e.sequence == |b.history| + 1)
    ensures var next := Pushed(c, b, maxBytes, e);
            && next.acked == b.acked && next.compacted == b.compacted
            && next.since == b.since + if next.history == b.history then 0 else |c.enc(e)| + 1
  {
    hide Log;
  }

  /** A new acknowledgement unblocks the buffer, and one for the last record empties the file; an old one changes
      nothing. The file is compacted exactly if nothing is outstanding, half of its limit was written since the last
      time, or 256 records can go. */
  lemma AckExact(c: Codec, b: Buffer, maxBytes: nat, sequence: nat)
    requires Kept(c, b, maxBytes) && sequence <= |b.history|
    ensures var next := Acknowledged(b, maxBytes, sequence).value;
            if sequence > b.acked
            then !next.full && (sequence == |b.history| ==> Log(c, b.history[next.compacted..]) == [])
                 && (next.compacted == sequence <==> sequence == |b.history| || 2 * b.since + 1 >= maxBytes || sequence >= b.compacted + 256)
                 && (next.compacted != sequence ==> next.compacted == b.compacted && next.since == b.since)
            else next == b
  {
    hide Numbered;
    if sequence > b.acked && sequence == |b.history| {
      assert b.history[sequence..] == [];
    }
  }

  lemma AckKeeps(c: Codec, b: Buffer, maxBytes: nat, sequence: nat)
    requires Kept(c, b, maxBytes) && sequence <= |b.history|
    ensures Kept(c, Acknowledged(b, maxBytes, sequence).value, maxBytes)
    ensures var next := Acknowledged(b, maxBytes, sequence).value;
            && next.history == b.history
            && next.acked == if sequence > b.acked then sequence else b.acked
  {
    var next := Acknowledged(b, maxBytes, sequence).value;
    if next.compacted != b.compacted {
      CompactionShrinks(c, b.history, b.compacted, sequence);
    }
  }

  lemma Suffix(c: Codec, es: seq<Entry>, n: nat)
    requires n <= |es|
    ensures |Log(c, es[n..])| <= |Log(c, es)|
  {
    LogSplit(c, es, n);
  }

  lemma CompactionShrinks(c: Codec, history: seq<Entry>, compacted: nat, acked: nat)
    requires compacted <= acked <= |history|
    ensures history[compacted..][acked - compacted..] == history[acked..]
    ensures |Log(c, history[acked..])| <= |Log(c, history[compacted..])|
  {
    Suffix(c, history[compacted..], acked - compacted);
    assert history[compacted..][acked - compacted..] == history[acked..];
  }

  /** What a compaction that keeps the records from `skip` on has copied after reading i of them. */
  ghost function Copied(es: seq<Entry>, skip: nat, i: nat): seq<Entry>
    requires i <= |es|
  {
    if i <= skip then [] else es[skip..i]
  }

  lemma CopyOne(c: Codec, es: seq<Entry>, skip: nat, i: nat)
    requires i < |es|
    ensures Log(c, Copied(es, skip, i + 1)) == Log(c, Copied(es, skip, i)) + (if i >= skip then Rec(c, es[i]) else [])
  {
    hide Log, Rec;
    if i >= skip {
      assert Copied(es, skip, i + 1) == Copied(es, skip, i) + [es[i]];
      LogConcat(c, Copied(es, skip, i), [es[i]]);
      LogOne(c, es[i]);
    }
  }

  lemma CopiedAll(es: seq<Entry>, skip: nat)
    requires skip <= |es|
    ensures Copied(es, skip, |es|) == es[skip..]
  {
  }

  /** One turn of a reader over a log that holds the records after number `before`. */
  lemma ReadOne(c: Codec, es: seq<Entry>, before: nat, i: nat)
    requires Sound(c) && Numbered(es, before + 1) && i < |es|
    ensures var file, at, next := Log(c, es), Offset(c, es, i), Offset(c, es, i + 1);
            && at < next <= |file| && (i + 1 < |es| <==> next < |file|)
            && LineEnd(file, at) + 1 == next
            && c.dec(file[at..LineEnd(file, at)]) == Some(es[i])
    ensures es[i].sequence == before + 1 + i
  {
    RecordAt(c, es, i);
    OffsetGrows(c, es, i + 1, |es|);
  }

  lemma ReadStart(c: Codec, es: seq<Entry>)
    ensures Offset(c, es, 0) == 0
    ensures 0 < |es| <==> 0 < |Log(c, es)|
  {
    OffsetGrows(c, es, 0, |es|);
    assert Log(c, es[..0]) == [];
  }

  lemma CopyTurn(c: Codec, file: Bytes, es: seq<Entry>, before: nat, acknowledged: nat, i: nat)
    requires Sound(c) && Numbered(es, before + 1) && i < |es| && file == Log(c, es) && before <= acknowledged
    ensures var at, next := Offset(c, es, i), Offset(c, es, i + 1);
            && at < next <= |file| && (i + 1 < |es| <==> next < |file|)
            && LineEnd(file, at) + 1 == next
            && c.dec(file[at..LineEnd(file, at)]).Some?
            && var entry := c.dec(file[at..LineEnd(file, at)]).value;
               Log(c, Copied(es, acknowledged - before, i + 1))
                 == Log(c, Copied(es, acknowledged - before, i)) + (if entry.sequence > acknowledged then Rec(c, entry) else [])
  {
    hide Log, Sound, Rec, Numbered, Offset, Copied, LineEnd;
    ReadOne(c, es, before, i);
    CopyOne(c, es, acknowledged - before, i);
  }

  /** The loop of a compaction: the lines of the records after the acknowledged one. */
  method CopyUnacknowledged(c: Codec, file: Bytes, acknowledged: nat, ghost es: seq<Entry>, ghost before: nat) returns (copy: Bytes)
    requires Sound(c) && Numbered(es, before + 1) && file == Log(c, es)
    requires before <= acknowledged <= before + |es|
    ensures copy == Log(c, es[acknowledged - before..])
  {
    ghost var skip, i := acknowledged - before, 0;
    var at := 0;
    copy := [];
    ReadStart(c, es);
    assert Log(c, Copied(es, skip, 0)) == [];
    hide *;
    while at < |file|
      invariant 0 <= i <= |es| && at == Offset(c, es, i) <= |file| && (i < |es| <==> at < |file|)
      invariant copy == Log(c, Copied(es, skip, i))
      decreases |file| - at
    {
      CopyTurn(c, file, es, before, acknowledged, i);
      var end := LineEnd(file, at);
      var entry := c.dec(file[at..end]).value;
      if entry.sequence > acknowledged {
        copy := copy + Rec(c, entry);
      }
      at := end + 1;
      i := i + 1;
    }
    CopiedAll(es, skip);
  }

  /** The loop of a replay: the records after the acknowledged one. */
  method ReadUnacknowledged(c: Codec, file: Bytes, acknowledged: nat, ghost es: seq<Entry>, ghost before: nat) returns (sent: seq<Entry>)
    requires Sound(c) && Numbered(es, before + 1) && file == Log(c, es)
    requires before <= acknowledged <= before + |es|
    ensures sent == es[acknowledged - before..]
  {
    ghost var skip, i := acknowledged - before, 0;
    var at := 0;
    sent := [];
    ReadStart(c, es);
    hide Log, Sound, Rec, Numbered, Offset, LineEnd;
    while at < |file|
      invariant 0 <= i <= |es| && at == Offset(c, es, i) <= |file| && (i < |es| <==> at < |file|)
      invariant sent == Copied(es, skip, i)
      decreases |file| - at
    {
      ReadOne(c, es, before, i);
      var end := LineEnd(file, at);
      var entry := c.dec(file[at..end]).value;
      if entry.sequence > acknowledged {
        sent := sent + [entry];
      }
      at := end + 1;
      i := i + 1;
    }
    CopiedAll(es, skip);
  }

  class LogBuffer {
    const codec: Codec
    const maxBytes: nat
    var file: Bytes
    var fileBytes: nat
    var lastAppended: nat
    var lastCompacted: nat
    var acknowledged: nat
    var bytesSinceCompaction: nat
    var full: bool
    ghost var history: seq<Entry>

    ghost function View(): Buffer
      reads this
    {
      Buffer(history, lastCompacted, acknowledged, bytesSinceCompaction, full)
    }

    /** The fields and the file stand for the view; the gap to the last compaction is not bounded here. */
    ghost predicate Represents()
      reads this
    {
      && Sound(codec) && maxBytes > 0
      && lastCompacted <= acknowledged <= lastAppended == |history|
      && Numbered(history, 1)
      && file == Retained(codec, View()) && |file| == fileBytes <= maxBytes
    }

    ghost predicate Valid()
      reads this
    {
      Represents() && Kept(codec, View(), maxBytes)
    }

    constructor (codec: Codec, maxBytes: nat)
      requires Sound(codec) && maxBytes > 0
      ensures Valid() && View() == EMPTY && this.codec == codec && this.maxBytes == maxBytes
    {
      this.codec, this.maxBytes := codec, maxBytes;
      file, fileBytes, lastAppended, lastCompacted, acknowledged, bytesSinceCompaction, full := [], 0, 0, 0, 0, 0, false;
      history := [];
    }

    method Append(entry: Entry) returns (result: Push)
      requires Valid()
      requires lastAppended > 0 || entry.sequence <= 1
      modifies this
      ensures Valid()
      ensures entry.sequence == old(lastAppended) + 1 ==>
                if !old(full) && old(|file|) + |codec.enc(entry)| + 1 <= maxBytes
                then result == Stored && history == old(history) + [entry] && file == old(file) + codec.enc(entry) + [NEWLINE] && !full
                else result == Full && full
      ensures entry.sequence != old(lastAppended) + 1 ==> result == (if old(full) then Full else Invalid) && full == old(full)
      ensures result != Stored ==> history == old(history) && file == old(file)
      ensures acknowledged == old(acknowledged) && lastCompacted == old(lastCompacted)
      ensures result == PushResult(codec, old(View()), maxBytes, entry)
      ensures View() == Pushed(codec, old(View()), maxBytes, entry)
    {
      PushKeeps(codec, View(), maxBytes, entry);
      assert lastAppended == 0 ==> history == [];
      hide Log, Sound, Kept;
      if full {
        return Full;
      }
      var bytes := |Rec(codec, entry)|;
      if entry.sequence == 0 || (lastAppended > 0 && entry.sequence != lastAppended + 1) {
        return Invalid;
      }
      if fileBytes + bytes > maxBytes {
        full := true;
        return Full;
      }
      file := file + Rec(codec, entry);
      fileBytes := fileBytes + bytes;
      bytesSinceCompaction := bytesSinceCompaction + bytes;
      lastAppended := entry.sequence;
      history := history + [entry];
      result := Stored;
    }

    /** An acknowledged prefix can only be non-empty while the file is: with an empty file every record is
        already acknowledged. */
    lemma EmptyFileIsAcknowledged(sequence: nat)
      requires Valid() && file == [] && sequence <= lastAppended
      ensures sequence <= acknowledged
    {
      ReadStart(codec, history[lastCompacted..]);
    }

    method Acknowledge(sequence: nat) returns (accepted: bool)
      requires Valid()
      modifies this
      ensures Valid()
      ensures accepted <==> sequence <= old(lastAppended)
      ensures history == old(history) && acknowledged == if accepted && sequence > old(acknowledged) then sequence else old(acknowledged)
      ensures full == (old(full) && !(accepted && sequence > old(acknowledged)))
      ensures accepted && sequence > old(acknowledged) && sequence == old(lastAppended) ==> file == []
      ensures accepted == Acknowledged(old(View()), maxBytes, sequence).Some?
      ensures View() == if accepted then Acknowledged(old(View()), maxBytes, sequence).value else old(View())
    {
      hide Log, Rec, Sound, Kept, Numbered;
      if sequence > lastAppended {
        return false;
      }
      if sequence <= acknowledged {
        return true;
      }
      AckKeeps(codec, View(), maxBytes, sequence);
      AckExact(codec, View(), maxBytes, sequence);
      var sequenceThresholdReached :=
        lastAppended - sequence == 0
        || bytesSinceCompaction >= (if maxBytes > 1 then maxBytes else 1) / 2
        || sequence - lastCompacted >= COMPACTION_SEQUENCE_THRESHOLD;
      acknowledged := sequence;
      if sequenceThresholdReached {
        Compact();
      }
      full := false;
      accepted := true;
    }

    /** Rewrites the file with the records after the acknowledged one. */
    method Compact()
      requires Represents()
      modifies this
      ensures Represents()
      ensures View() == old(View()).(compacted := acknowledged, since := 0)
    {
      ghost var es := history[lastCompacted..];
      assert Numbered(es, lastCompacted + 1);
      CompactionShrinks(codec, history, lastCompacted, acknowledged);
      hide Log, Sound, Numbered, Kept;
      file := CopyUnacknowledged(codec, file, acknowledged, es, lastCompacted);
      fileBytes := |file|;
      bytesSinceCompaction := 0;
      lastCompacted := acknowledged;
    }

    /** The reader over the file, filtered as a replay filters it. */
    method Replay() returns (sent: seq<Entry>)
      requires Valid()
      ensures sent == Unacknowledged(View())
    {
      ghost var es := history[lastCompacted..];
      assert es[acknowledged - lastCompacted..] == history[acknowledged..];
      hide Log, Sound;
      sent := ReadUnacknowledged(codec, file, acknowledged, es, lastCompacted);
    }
  }

  /** The task's sequence counter beside its buffer: a number is consumed exactly when its record is stored. */
  method AppendLogAndAdvance(buffer: LogBuffer, nextSequence: nat, entry: Entry) returns (result: Push, next: nat)
    requires buffer.Valid() && nextSequence == buffer.lastAppended + 1
    modifies buffer
    ensures buffer.Valid() && next == buffer.lastAppended + 1
    ensures result == Stored <==> buffer.history == old(buffer.history) + [entry]
    ensures result == Stored <==> next == nextSequence + 1
    ensures result != Stored ==> next == nextSequence && buffer.history == old(buffer.history) && buffer.file == old(buffer.file)
    ensures entry.sequence != nextSequence <==> result == Invalid
    ensures result == Stored <==>
              entry.sequence == nextSequence && !old(buffer.full) && old(|buffer.file|) + |buffer.codec.enc(entry)| + 1 <= buffer.maxBytes
    ensures entry.sequence == nextSequence ==> buffer.View() == Pushed(buffer.codec, old(buffer.View()), buffer.maxBytes, entry)
  {
    if entry.sequence != nextSequence {
      return Invalid, nextSequence;
    }
    PushKeeps(buffer.codec, buffer.View(), buffer.maxBytes, entry);
    result := buffer.Append(entry);
    next := if result == Stored then nextSequence + 1 else nextSequence;
  }
}
