/** The server's handling of one log message from the agent, over the storage object of the task. */
module TaskLogs {
  import opened Options
  import opened Utf8
  import opened Ndjson
  import opened TaskLogStorage
  import Files = TaskLogFile
  import opened LogDelivery

  /** Whatever the object caches, its file on disk recovers to exactly the records it holds. */
  lemma DiskHolds(storage: Files.TaskLogFile)
    requires storage.Valid()
    ensures Scan(storage.codec, storage.file, 0, 0) == StateOf(storage.codec, storage.entries)
    ensures Repaired(storage.codec, storage.file) == Log(storage.codec, storage.entries)
  {
    TornEndIsDropped(storage.codec, storage.entries, storage.torn);
  }

  lemma ObjectHolds(storage: Files.TaskLogFile)
    requires storage.Valid()
    ensures Numbered(storage.entries, 1) && storage.file == Log(storage.codec, storage.entries) + storage.torn
    ensures storage.torn == [] ==> storage.file == Log(storage.codec, storage.entries)
    ensures storage.Clean() ==> storage.torn == []
  {
  }

  /** The file recovers to these records. */
  ghost predicate Holds(c: Codec, file: Bytes, stored: seq<Entry>) {
    Scan(c, file, 0, 0) == StateOf(c, stored) && Repaired(c, file) == Log(c, stored)
  }

  /** A message for a record that is not the next one, or while the task's row cannot be corrected: nothing is
      stored, and nothing broadcast. */
  lemma HandleStale(c: Codec, file: Bytes, stored: seq<Entry>, log: Entry, masked: string, x: Outcome)
    requires Holds(c, file, stored) && ByteLen(log.chunk) <= MAX_TASK_LOG_CHUNK_BYTES
    requires !x.aligned || log.sequence != |stored| + 1
    ensures Handle(c, file, stored, log, masked, x) == Handling(Log(c, stored), stored, if x.aligned then Some(|stored|) else None, None)
  {
  }

  /** 64 KiB and 2 KiB more for a line, 1 GiB for the file. */
  predicate LineFits(c: Codec, stored: seq<Entry>, e: Entry) {
    |Rec(c, e)| <= 67_584 && |Log(c, stored)| + |Rec(c, e)| <= 1_073_741_824
  }

  lemma HandleNext(c: Codec, file: Bytes, stored: seq<Entry>, log: Entry, masked: string, x: Outcome)
    requires Holds(c, file, stored) && ByteLen(log.chunk) <= MAX_TASK_LOG_CHUNK_BYTES
    requires x.aligned && log.sequence == |stored| + 1
    ensures var e := Masked(log, masked);
            var all := stored + [e];
            Handle(c, file, stored, log, masked, x) ==
              if !LineFits(c, stored, e) then Handling(Log(c, stored), stored, None, None)
              else if x.written < |Rec(c, e)| then Handling(Log(c, stored) + Rec(c, e)[..x.written], stored, None, None)
              else if !x.confirmed then Handling(Log(c, all), all, None, None)
              else Handling(Log(c, all), all, Some(log.sequence), Some(Message(|Log(c, stored)|, |Log(c, all)|, e)))
  {
    hide Scan, Log, Rec, ByteLen;
    LogConcat(c, stored, [Masked(log, masked)]);
    LogOne(c, Masked(log, masked));
  }

  /** The next record gets stored without ever being broadcast exactly when its whole line is written, but the file
      not synced or the row not updated. */
  lemma StoredUnheard(c: Codec, file: Bytes, stored: seq<Entry>, log: Entry, masked: string, x: Outcome)
    requires Holds(c, file, stored) && log.sequence == |stored| + 1
    ensures var h := Handle(c, file, stored, log, masked, x);
            var e := Masked(log, masked);
            h.stored != stored && h.broadcast.None? <==>
              && ByteLen(log.chunk) <= 65_536 && x.aligned && LineFits(c, stored, e)
              && x.written >= |Rec(c, e)| && !x.confirmed
  {
    hide Scan, Log, Rec, ByteLen, Repaired;
    if ByteLen(log.chunk) <= MAX_TASK_LOG_CHUNK_BYTES {
      if x.aligned {
        HandleNext(c, file, stored, log, masked, x);
      } else {
        HandleStale(c, file, stored, log, masked, x);
      }
    }
  }

  /** Whatever is sent again for a stored record, with whatever outcome, stores nothing and is not broadcast. */
  lemma ResendIsUnheard(c: Codec, file: Bytes, stored: seq<Entry>, log: Entry, masked: string, x: Outcome)
    requires Holds(c, file, stored) && log.sequence <= |stored|
    ensures var h := Handle(c, file, stored, log, masked, x);
            h.stored == stored && h.broadcast.None?
  {
    hide Scan, Log, Rec, ByteLen, Repaired;
    if ByteLen(log.chunk) <= MAX_TASK_LOG_CHUNK_BYTES {
      HandleStale(c, file, stored, log, masked, x);
    }
  }

  lemma TooLong(c: Codec, file: Bytes, stored: seq<Entry>, log: Entry, masked: string, x: Outcome)
    requires ByteLen(log.chunk) > MAX_TASK_LOG_CHUNK_BYTES
    ensures Handle(c, file, stored, log, masked, x) == Handling(file, stored, None, None)
  {
  }

  /** `cursor` is the state recorded in the task's row, and `rowCorrected` whether it can be corrected when it
      differs from the file's. `accepts` and `synced` are what the file system does with the write, and `rowUpdated`
      is whether the row can be updated after it. */
  method AppendFromAgent(storage: Files.TaskLogFile, log: Entry, masked: string, cursor: FileState, rowCorrected: bool,
                         accepts: nat -> nat, synced: bool, rowUpdated: bool)
    returns (ack: Option<nat>, broadcast: Option<Message>, ghost x: Outcome)
    requires storage.Valid()
    modifies storage
    ensures storage.Valid()
    ensures Handling(storage.file, storage.entries, ack, broadcast)
            == Handle(storage.codec, old(storage.file), old(storage.entries), log, masked, x)
    ensures x.aligned == (rowCorrected || cursor == StateOf(storage.codec, old(storage.entries)))
    ensures x.confirmed == (synced && rowUpdated)
    ensures (forall n :: accepts(n) > 0) ==> x.written >= |Rec(storage.codec, Masked(log, masked))|
  {
    hide *;
    DiskHolds(storage);
    ghost var file, stored := storage.file, storage.entries;
    ghost var entry := Masked(log, masked);
    HoldsIs(storage.codec, file, stored);
    x := Outcome(rowCorrected || cursor == StateOf(storage.codec, stored), |Rec(storage.codec, entry)|, synced && rowUpdated);
    if ByteLen(log.chunk) > MAX_TASK_LOG_CHUNK_BYTES {
      TooLong(storage.codec, file, stored, log, masked, x);
      return None, None, x;
    }
    var state := storage.GetState(Some(cursor));
    ObjectHolds(storage);
    StateIs(storage.codec, stored);
    if state != cursor && !rowCorrected {
      HandleStale(storage.codec, file, stored, log, masked, x);
      return None, None, x;
    }
    if log.sequence <= state.lastSequence {
      HandleStale(storage.codec, file, stored, log, masked, x);
      return Some(state.lastSequence), None, x;
    }
    if log.sequence > state.lastSequence + 1 {
      HandleStale(storage.codec, file, stored, log, masked, x);
      return Some(state.lastSequence), None, x;
    }
    DiskHolds(storage);
    ghost var read := storage.file;
    HoldsIs(storage.codec, read, stored);
    ack, broadcast, x := AppendNext(storage, log, masked, state.size, accepts, synced, rowUpdated);
    HandleNext(storage.codec, read, stored, log, masked, x);
    HandleNext(storage.codec, file, stored, log, masked, x);
  }

  /** The append of the next record, the update of the row, and the broadcast. */
  method AppendNext(storage: Files.TaskLogFile, log: Entry, masked: string, size: nat, accepts: nat -> nat, synced: bool, rowUpdated: bool)
    returns (ack: Option<nat>, broadcast: Option<Message>, ghost x: Outcome)
    requires storage.Valid() && storage.Clean() && log.sequence == |storage.entries| + 1
    requires size == |Log(storage.codec, storage.entries)| && ByteLen(log.chunk) <= MAX_TASK_LOG_CHUNK_BYTES
    modifies storage
    ensures storage.Valid()
    ensures Handling(storage.file, storage.entries, ack, broadcast)
            == Handle(storage.codec, old(storage.file), old(storage.entries), log, masked, x)
    ensures x.aligned && x.confirmed == (synced && rowUpdated)
    ensures (forall n :: accepts(n) > 0) ==> x.written >= |Rec(storage.codec, Masked(log, masked))|
  {
    hide *;
    DiskHolds(storage);
    ObjectHolds(storage);
    ghost var file, stored := storage.file, storage.entries;
    HoldsIs(storage.codec, file, stored);
    var entry := Masked(log, masked);
    MaskedSequence(log, masked);
    var appended := storage.Append(entry, accepts, synced);
    ObjectHolds(storage);
    ghost var line := Rec(storage.codec, entry);
    LineFitsIs(storage.codec, stored, entry);
    x := Outcome(true, if storage.entries == stored && LineFits(storage.codec, stored, entry) then |storage.torn| else |line|, synced && rowUpdated);
    assert storage.torn <= line ==> storage.torn == line[..|storage.torn|];
    HandleNext(storage.codec, file, stored, log, masked, x);
    ack, broadcast := None, None;
    if appended.Appended? && rowUpdated {
      ack := Some(log.sequence);
      broadcast := Some(Message(size, appended.size, entry));
    }
  }

  lemma HoldsIs(c: Codec, file: Bytes, stored: seq<Entry>)
    ensures Holds(c, file, stored) <==> Scan(c, file, 0, 0) == StateOf(c, stored) && Repaired(c, file) == Log(c, stored)
  {
  }

  lemma LineFitsIs(c: Codec, stored: seq<Entry>, e: Entry)
    ensures LineFits(c, stored, e) <==>
              |Rec(c, e)| <= MAX_TASK_LOG_CHUNK_BYTES + 2_048 && |Log(c, stored)| + |Rec(c, e)| <= MAX_TASK_LOG_FILE_BYTES
  {
  }

  lemma StateIs(c: Codec, es: seq<Entry>)
    ensures StateOf(c, es) == FileState(|Log(c, es)|, |es|)
  {
  }

  lemma MaskedSequence(log: Entry, masked: string)
    ensures Masked(log, masked).sequence == log.sequence
  {
  }
}
