/** Log delivery of one lease: the agent's buffer, the messages in both directions, and the server's file.
    Messages stay in the sets once sent, so a run may lose, repeat and reorder them freely. */
module LogDelivery {
  import opened Options
  import opened Utf8
  import opened Ndjson
  import opened TaskLogStorage
  import opened LogBuffer

  datatype State = State(
    buffer: Buffer,
    /** The server's file, and the records it holds. */
    file: Bytes,
    stored: seq<Entry>,
    logs: set<Entry>,
    acks: set<nat>)

  datatype Event =
    | Output(entry: Entry)
    /** The server handles a log message. `masked` is the chunk its redactor makes of it, and `answered` says whether
        the acknowledgement goes out. */
    | Deliver(log: Entry, masked: string, x: Outcome, answered: bool)
    | TakeAck(sequence: nat)
    /** The agent connects again: the server repairs its file and reports the last record of it. */
    | Hello
    | Replay

  /** How the steps of an append turn out. `aligned`: the task's row agreed with the file, or was corrected. The
      write stops after `written` bytes (a failed write or a crash). `confirmed`: the file was synced and the row
      updated after it. */
  datatype Outcome = Outcome(aligned: bool, written: nat, confirmed: bool)

  const START := State(EMPTY, [], [], {}, {})

  function Masked(e: Entry, chunk: string): Entry {
    e.(chunk := chunk)
  }

  /** The size limits of the server's file: a longer line or file is refused. */
  predicate Fits(c: Codec, log: Entry, masked: string, size: nat) {
    var line := |Rec(c, Masked(log, masked))|;
    line <= MAX_TASK_LOG_CHUNK_BYTES + 2_048 && size + line <= MAX_TASK_LOG_FILE_BYTES
  }

  /** The server's file after it re-read it. */
  function Repaired(c: Codec, file: Bytes): Bytes {
    file[..Scan(c, file, 0, 0).size]
  }

  /** The file and its records, the answer to the agent, and the event for the subscribers. */
  datatype Handling = Handling(file: Bytes, stored: seq<Entry>, ack: Option<nat>, broadcast: Option<Message>)

  /** What the server makes of a log message: only the next record is appended; every other message that is not
      refused is answered with the last record there is. */
  function Handle(c: Codec, file: Bytes, stored: seq<Entry>, log: Entry, masked: string, x: Outcome): Handling {
    if ByteLen(log.chunk) > MAX_TASK_LOG_CHUNK_BYTES then Handling(file, stored, None, None)
    else
      var last := Scan(c, file, 0, 0).lastSequence;
      var repaired := Repaired(c, file);
      var line := Rec(c, Masked(log, masked));
      if !x.aligned then Handling(repaired, stored, None, None)
      else if log.sequence != last + 1 then Handling(repaired, stored, Some(last), None)
      else if !Fits(c, log, masked, |repaired|) then Handling(repaired, stored, None, None)
      else if x.written < |line| then Handling(repaired + line[..x.written], stored, None, None)
      else
        var appended := Handling(repaired + line, stored + [Masked(log, masked)], None, None);
        if !x.confirmed then appended
        else appended.(ack := Some(log.sequence), broadcast := Some(Message(|repaired|, |repaired| + |line|, Masked(log, masked))))
  }

  function Step(c: Codec, maxBytes: nat, s: State, event: Event): State
    requires s.buffer.compacted <= s.buffer.acked <= |s.buffer.history|
  {
    match event
    case Output(e) =>
      if e.sequence != |s.buffer.history| + 1 then s
      else
        var next := s.(buffer := Pushed(c, s.buffer, maxBytes, e));
        if PushResult(c, s.buffer, maxBytes, e) == Stored then next.(logs := s.logs + {e}) else next
    case Deliver(log, masked, x, answered) =>
      if log !in s.logs then s
      else
        var handled := Handle(c, s.file, s.stored, log, masked, x);
        var acks := if answered && handled.ack.Some? then s.acks + {handled.ack.value} else s.acks;
        s.(file := handled.file, stored := handled.stored, acks := acks)
    case TakeAck(n) =>
      if n !in s.acks || Acknowledged(s.buffer, maxBytes, n).None? then s
      else s.(buffer := Acknowledged(s.buffer, maxBytes, n).value)
    case Hello =>
      s.(file := Repaired(c, s.file), acks := s.acks + {Scan(c, s.file, 0, 0).lastSequence})
    case Replay =>
      s.(logs := s.logs + set i | s.buffer.acked <= i < |s.buffer.history| :: s.buffer.history[i])
  }

  // --- Safety ---

  /** The server's record is the agent's, up to the masked chunk. */
  ghost predicate SameRecord(stored: Entry, sent: Entry) {
    stored == Masked(sent, stored.chunk)
  }

  /** The server holds exactly the first records of the agent's history, and its file says so. */
  ghost predicate Persisted(c: Codec, file: Bytes, stored: seq<Entry>, history: seq<Entry>) {
    && |stored| <= |history|
    && (forall i :: 0 <= i < |stored| ==> SameRecord(stored[i], history[i]))
    && Scan(c, file, 0, 0) == StateOf(c, stored)
    && Repaired(c, file) == Log(c, stored)
  }

  ghost predicate LogsAreHistory(logs: set<Entry>, history: seq<Entry>) {
    forall e :: e in logs ==> 1 <= e.sequence <= |history| && history[e.sequence - 1] == e
  }

  /** Acknowledged is at most persisted, persisted is at most appended, and no message claims more. */
  ghost predicate Safe(c: Codec, maxBytes: nat, s: State) {
    && Kept(c, s.buffer, maxBytes)
    && Persisted(c, s.file, s.stored, s.buffer.history)
    && LogsAreHistory(s.logs, s.buffer.history)
    && (forall n :: n in s.acks ==> n <= |s.stored|)
    && s.buffer.acked <= |s.stored|
  }

  lemma StartIsSafe(c: Codec, maxBytes: nat)
    ensures Safe(c, maxBytes, START)
  {
    assert EMPTY.history[0..] == [];
    assert Log(c, []) == [];
    assert Scan(c, [], 0, 0) == FileState(0, 0);
  }

  lemma OutputKeepsSafe(c: Codec, maxBytes: nat, s: State, e: Entry)
    requires Safe(c, maxBytes, s)
    ensures Safe(c, maxBytes, Step(c, maxBytes, s, Output(e)))
  {
    PushKeeps(c, s.buffer, maxBytes, e);
    PushedHistory(c, s.buffer, maxBytes, e);
    hide Kept, Scan, Log, Rec, Retained, Pushed, PushResult, Repaired, StateOf;
  }

  lemma PushedHistory(c: Codec, b: Buffer, maxBytes: nat, e: Entry)
    requires b.compacted <= |b.history|
    ensures var next := Pushed(c, b, maxBytes, e);
            && next.acked == b.acked
            && next.history == if PushResult(c, b, maxBytes, e) == Stored then b.history + [e] else b.history
    ensures PushResult(c, b, maxBytes, e) == Stored ==> e.sequence == |b.history| + 1
  {
    hide Retained, Rec;
  }

  lemma StoredIsNumbered(stored: seq<Entry>, history: seq<Entry>)
    requires |stored| <= |history| && Numbered(history, 1)
    requires forall i :: 0 <= i < |stored| ==> SameRecord(stored[i], history[i])
    ensures Numbered(stored, 1)
  {
    forall i | 0 <= i < |stored| ensures stored[i].sequence == 1 + i {
      assert SameRecord(stored[i], history[i]);
    }
  }

  /** A write of any length leaves the old records or the new ones. */
  lemma WriteKeepsPersisted(c: Codec, stored: seq<Entry>, history: seq<Entry>, e: Entry, written: nat)
    requires Sound(c) && |stored| < |history| && Numbered(history, 1)
    requires forall i :: 0 <= i < |stored| ==> SameRecord(stored[i], history[i])
    requires SameRecord(e, history[|stored|])
    ensures var line := Rec(c, e);
            if written < |line| then Persisted(c, Log(c, stored) + line[..written], stored, history)
            else Persisted(c, Log(c, stored) + line, stored + [e], history)
  {
    var line := Rec(c, e);
    forall i | 0 <= i < |stored + [e]| ensures SameRecord((stored + [e])[i], history[i]) {
    }
    StoredIsNumbered(stored + [e], history);
    hide Scan, Log, Rec, Sound;
    var k := if written < |line| then written else |line|;
    assert line[..|line|] == line;
    CrashKeepsLog(c, stored, e, k);
  }

  lemma RepairKeepsPersisted(c: Codec, file: Bytes, stored: seq<Entry>, history: seq<Entry>)
    requires Persisted(c, file, stored, history)
    ensures Persisted(c, Repaired(c, file), stored, history)
  {
    RecoveryIsIdempotent(c, file);
    hide Scan, Log;
    var size := Scan(c, file, 0, 0).size;
    assert file[..size][..size] == file[..size];
  }

  lemma DeliverKeepsSafe(c: Codec, maxBytes: nat, s: State, log: Entry, masked: string, x: Outcome, answered: bool)
    requires Sound(c) && Safe(c, maxBytes, s)
    ensures Safe(c, maxBytes, Step(c, maxBytes, s, Deliver(log, masked, x, answered)))
  {
    hide Scan, Log, Rec, Sound, Retained;
    RepairKeepsPersisted(c, s.file, s.stored, s.buffer.history);
    if log in s.logs && log.sequence == |s.stored| + 1 {
      WriteKeepsPersisted(c, s.stored, s.buffer.history, Masked(log, masked), x.written);
    }
  }

  /** No acknowledgement in flight is rejected as naming a future record. */
  lemma NoAckIsRejected(c: Codec, maxBytes: nat, s: State, n: nat)
    requires Safe(c, maxBytes, s) && n in s.acks
    ensures Acknowledged(s.buffer, maxBytes, n).Some?
    ensures Step(c, maxBytes, s, TakeAck(n)).buffer.acked == if n > s.buffer.acked then n else s.buffer.acked
  {
    hide Scan, Log, Rec, Retained;
    AckKeeps(c, s.buffer, maxBytes, n);
  }

  /** Acknowledgements that were lost are made up for by a reconnect: after it the agent knows of every persisted
      record. */
  lemma HelloCatchesUp(c: Codec, maxBytes: nat, s: State)
    requires Safe(c, maxBytes, s)
    ensures var t := Step(c, maxBytes, Step(c, maxBytes, s, Hello), TakeAck(|s.stored|));
            && t.buffer.acked == |s.stored| && t.buffer.history == s.buffer.history && t.stored == s.stored
            && (s.buffer.acked < |s.stored| ==> !t.buffer.full)
  {
    AckKeeps(c, s.buffer, maxBytes, |s.stored|);
    hide Scan, Log, Rec, Retained, Kept, Repaired;
  }

  lemma TakeAckKeepsSafe(c: Codec, maxBytes: nat, s: State, n: nat)
    requires Safe(c, maxBytes, s)
    ensures Safe(c, maxBytes, Step(c, maxBytes, s, TakeAck(n)))
  {
    hide Scan, Log, Rec, Retained;
    if n in s.acks {
      AckKeeps(c, s.buffer, maxBytes, n);
      hide Kept, Persisted, LogsAreHistory, Acknowledged;
    }
  }

  lemma HelloKeepsSafe(c: Codec, maxBytes: nat, s: State)
    requires Safe(c, maxBytes, s)
    ensures Safe(c, maxBytes, Step(c, maxBytes, s, Hello))
  {
    hide Scan, Log, Rec, Retained, Kept;
    RepairKeepsPersisted(c, s.file, s.stored, s.buffer.history);
  }

  lemma ReplayKeepsSafe(c: Codec, maxBytes: nat, s: State)
    requires Safe(c, maxBytes, s)
    ensures Safe(c, maxBytes, Step(c, maxBytes, s, Replay))
  {
    hide Scan, Log, Rec, Retained, Persisted;
  }

  lemma StepKeepsSafe(c: Codec, maxBytes: nat, s: State, event: Event)
    requires Sound(c) && Safe(c, maxBytes, s)
    ensures Safe(c, maxBytes, Step(c, maxBytes, s, event))
  {
    hide Step, Safe;
    match event
    case Output(e) => OutputKeepsSafe(c, maxBytes, s, e);
    case Deliver(log, masked, x, answered) => DeliverKeepsSafe(c, maxBytes, s, log, masked, x, answered);
    case TakeAck(n) => TakeAckKeepsSafe(c, maxBytes, s, n);
    case Hello => HelloKeepsSafe(c, maxBytes, s);
    case Replay => ReplayKeepsSafe(c, maxBytes, s);
  }

  /** The state after a run from s. */
  function Run(c: Codec, maxBytes: nat, s: State, events: seq<Event>): (t: State)
    requires s.buffer.compacted <= s.buffer.acked <= |s.buffer.history|
    ensures t.buffer.compacted <= t.buffer.acked <= |t.buffer.history|
    decreases |events|
  {
    if events == [] then s else Run(c, maxBytes, Step(c, maxBytes, s, events[0]), events[1..])
  }

  /** Every interleaving of output, delivery, loss, repetition, acknowledgement, crash and replay is safe. */
  lemma {:induction false} RunKeepsSafe(c: Codec, maxBytes: nat, s: State, events: seq<Event>)
    requires Sound(c) && Safe(c, maxBytes, s)
    ensures Safe(c, maxBytes, Run(c, maxBytes, s, events))
    decreases |events|
  {
    hide Safe, Step;
    SafeIsOrdered(c, maxBytes, s);
    if events != [] {
      StepKeepsSafe(c, maxBytes, s, events[0]);
      SafeIsOrdered(c, maxBytes, Step(c, maxBytes, s, events[0]));
      RunKeepsSafe(c, maxBytes, Step(c, maxBytes, s, events[0]), events[1..]);
    }
  }

  lemma SafeIsOrdered(c: Codec, maxBytes: nat, s: State)
    requires Safe(c, maxBytes, s)
    ensures s.buffer.compacted <= s.buffer.acked <= |s.stored| <= |s.buffer.history|
  {
  }

  lemma RunsAreSafe(c: Codec, maxBytes: nat, events: seq<Event>)
    requires Sound(c)
    ensures Safe(c, maxBytes, Run(c, maxBytes, START, events))
  {
    StartIsSafe(c, maxBytes);
    RunKeepsSafe(c, maxBytes, START, events);
  }

  /** The agent still holds every record after the last persisted one: in its file, and in its next replay. */
  lemma AgentHoldsTheRest(c: Codec, maxBytes: nat, s: State)
    requires Safe(c, maxBytes, s)
    ensures var b, n := s.buffer, |s.stored|;
            && b.compacted <= b.acked <= n <= |b.history|
            && Retained(c, b) == Log(c, b.history[b.compacted..n]) + Log(c, b.history[n..])
            && Unacknowledged(b) == b.history[b.acked..n] + b.history[n..]
  {
    hide Scan, Log, Rec;
    var b, n := s.buffer, |s.stored|;
    assert b.history[b.compacted..] == b.history[b.compacted..n] + b.history[n..];
    LogConcat(c, b.history[b.compacted..n], b.history[n..]);
  }

  // --- A replay without loss ---

  /** Nothing goes wrong. */
  const SMOOTH := Outcome(true, LINE_LIMIT, true)

  /** The first n unacknowledged records arrive in order, are written in full, confirmed and answered. */
  function Arrivals(b: Buffer, mask: Entry -> string, n: nat): seq<Event>
    requires b.acked + n <= |b.history|
  {
    if n == 0 then [] else Arrivals(b, mask, n - 1) + [Deliver(b.history[b.acked + n - 1], mask(b.history[b.acked + n - 1]), SMOOTH, true)]
  }

  /** No line the server accepts is longer. */
  const LINE_LIMIT: nat := MAX_TASK_LOG_CHUNK_BYTES + 2_048

  function MaskedAll(es: seq<Entry>, mask: Entry -> string): seq<Entry> {
    seq(|es|, i requires 0 <= i < |es| => Masked(es[i], mask(es[i])))
  }

  /** The outstanding records stay within the server's limits, one by one and together. */
  ghost predicate RestFits(c: Codec, s: State, mask: Entry -> string)
    requires s.buffer.acked <= |s.stored| <= |s.buffer.history|
  {
    var history, n := s.buffer.history, |s.stored|;
    && (forall i :: s.buffer.acked <= i < |history| ==> ByteLen(history[i].chunk) <= MAX_TASK_LOG_CHUNK_BYTES)
    && (forall i :: n <= i < |history| ==> |Rec(c, Masked(history[i], mask(history[i])))| <= LINE_LIMIT)
    && |Log(c, s.stored + MaskedAll(history[n..], mask))| <= MAX_TASK_LOG_FILE_BYTES
  }

  lemma {:induction false} RunSnoc(c: Codec, maxBytes: nat, s: State, events: seq<Event>, last: Event)
    requires s.buffer.compacted <= s.buffer.acked <= |s.buffer.history|
    ensures Run(c, maxBytes, s, events + [last]) == Step(c, maxBytes, Run(c, maxBytes, s, events), last)
    decreases |events|
  {
    if events == [] {
      assert events + [last] == [last] && [last][1..] == [];
    } else {
      assert (events + [last])[1..] == events[1..] + [last];
      RunSnoc(c, maxBytes, Step(c, maxBytes, s, events[0]), events[1..], last);
    }
  }

  lemma PrefixIsShorter(c: Codec, es: seq<Entry>, n: nat)
    requires n <= |es|
    ensures |Log(c, es[..n])| <= |Log(c, es)|
  {
    LogSplit(c, es, n);
  }

  /** The next record after the persisted ones is stored and acknowledged. */
  lemma NextIsStored(c: Codec, maxBytes: nat, s: State, masked: string)
    requires Safe(c, maxBytes, s) && |s.stored| < |s.buffer.history| && s.buffer.history[|s.stored|] in s.logs
    requires var log := s.buffer.history[|s.stored|];
             ByteLen(log.chunk) <= MAX_TASK_LOG_CHUNK_BYTES && |Rec(c, Masked(log, masked))| <= LINE_LIMIT
             && |Log(c, s.stored + [Masked(log, masked)])| <= MAX_TASK_LOG_FILE_BYTES
    ensures var log := s.buffer.history[|s.stored|];
            var t := Step(c, maxBytes, s, Deliver(log, masked, SMOOTH, true));
            && t.stored == s.stored + [Masked(log, masked)] && |s.stored| + 1 in t.acks
            && t.buffer == s.buffer && t.logs == s.logs
  {
    hide Scan, Log, Rec, Retained;
    var log := s.buffer.history[|s.stored|];
    LogConcat(c, s.stored, [Masked(log, masked)]);
    LogOne(c, Masked(log, masked));
  }

  lemma RepeatIsAnswered(c: Codec, maxBytes: nat, s: State, log: Entry, masked: string)
    requires Safe(c, maxBytes, s) && log in s.logs && log.sequence <= |s.stored| && ByteLen(log.chunk) <= MAX_TASK_LOG_CHUNK_BYTES
    ensures var t := Step(c, maxBytes, s, Deliver(log, masked, SMOOTH, true));
            t.stored == s.stored && |s.stored| in t.acks && t.buffer == s.buffer && t.logs == s.logs
  {
    hide Scan, Log, Rec, Retained, Kept;
  }

  lemma MaskedPrefix(es: seq<Entry>, mask: Entry -> string, n: nat)
    requires n < |es|
    ensures MaskedAll(es[..n + 1], mask) == MaskedAll(es[..n], mask) + [Masked(es[n], mask(es[n]))]
    ensures MaskedAll(es[..n + 1], mask) == MaskedAll(es, mask)[..n + 1]
  {
  }

  ghost function Reached(s: State, n: nat): nat {
    if |s.stored| > s.buffer.acked + n then |s.stored| else s.buffer.acked + n
  }

  /** After n arrivals the server holds the records up to the last of them, and said so. */
  lemma {:induction false} ArrivalsAreStored(c: Codec, maxBytes: nat, s: State, mask: Entry -> string, n: nat)
    requires Sound(c) && Safe(c, maxBytes, s) && s.buffer.acked + n <= |s.buffer.history| && RestFits(c, s, mask)
    requires forall i :: s.buffer.acked <= i < |s.buffer.history| ==> s.buffer.history[i] in s.logs
    ensures var t := Run(c, maxBytes, s, Arrivals(s.buffer, mask, n));
            && Safe(c, maxBytes, t) && t.buffer == s.buffer && t.logs == s.logs
            && |s.stored| <= Reached(s, n) <= |s.buffer.history|
            && t.stored == s.stored + MaskedAll(s.buffer.history[|s.stored|..Reached(s, n)], mask)
            && (n > 0 ==> Reached(s, n) in t.acks)
  {
    var history, p := s.buffer.history, |s.stored|;
    hide Step, Safe, Scan, Log, Rec, Kept;
    SafeIsOrdered(c, maxBytes, s);
    if n == 0 {
      assert history[p..p] == [];
    } else {
      ArrivalsAreStored(c, maxBytes, s, mask, n - 1);
      var t := Run(c, maxBytes, s, Arrivals(s.buffer, mask, n - 1));
      var log := history[s.buffer.acked + n - 1];
      var event := Deliver(log, mask(log), SMOOTH, true);
      RunSnoc(c, maxBytes, s, Arrivals(s.buffer, mask, n - 1), event);
      StepKeepsSafe(c, maxBytes, t, event);
      ArrivalIsStored(c, maxBytes, s, t, mask, n);
    }
  }

  lemma ArrivalIsStored(c: Codec, maxBytes: nat, s: State, t: State, mask: Entry -> string, n: nat)
    requires Safe(c, maxBytes, s) && 0 < n && s.buffer.acked + n <= |s.buffer.history| && RestFits(c, s, mask)
    requires s.buffer.history[s.buffer.acked + n - 1] in s.logs
    requires Safe(c, maxBytes, t) && t.buffer == s.buffer && t.logs == s.logs
    requires t.stored == s.stored + MaskedAll(s.buffer.history[|s.stored|..Reached(s, n - 1)], mask)
    ensures var log := s.buffer.history[s.buffer.acked + n - 1];
            var u := Step(c, maxBytes, t, Deliver(log, mask(log), SMOOTH, true));
            && u.buffer == s.buffer && u.logs == s.logs
            && u.stored == s.stored + MaskedAll(s.buffer.history[|s.stored|..Reached(s, n)], mask)
            && Reached(s, n) in u.acks
  {
    hide *;
    var history, p, q := s.buffer.history, |s.stored|, s.buffer.acked + n;
    var log := history[q - 1];
    SafeIsNumbered(c, maxBytes, s, q - 1);
    SafeIsOrdered(c, maxBytes, s);
    RestFitsChunk(c, s, mask, q);
    ReachedIs(s, n);
    ReachedIs(s, n - 1);
    NothingMasked(history, p, mask);
    if p >= q {
      RepeatIsAnswered(c, maxBytes, t, log, mask(log));
    } else {
      RestFitsNext(c, s, mask, q);
      NextIsStored(c, maxBytes, t, mask(log));
    }
  }

  lemma ReachedIs(s: State, n: nat)
    ensures Reached(s, n) == if |s.stored| > s.buffer.acked + n then |s.stored| else s.buffer.acked + n
  {
  }

  lemma NothingMasked(history: seq<Entry>, p: nat, mask: Entry -> string)
    requires p <= |history|
    ensures MaskedAll(history[p..p], mask) == []
  {
  }

  lemma RestFitsChunk(c: Codec, s: State, mask: Entry -> string, q: nat)
    requires s.buffer.acked <= |s.stored| <= |s.buffer.history| && RestFits(c, s, mask)
    requires s.buffer.acked < q <= |s.buffer.history|
    ensures ByteLen(s.buffer.history[q - 1].chunk) <= MAX_TASK_LOG_CHUNK_BYTES
  {
  }

  lemma SafeIsNumbered(c: Codec, maxBytes: nat, s: State, i: nat)
    requires Safe(c, maxBytes, s) && i < |s.buffer.history|
    ensures s.buffer.history[i].sequence == i + 1
  {
    hide Scan, Log, Rec, Retained, Persisted, LogsAreHistory;
  }

  lemma RestFitsNext(c: Codec, s: State, mask: Entry -> string, q: nat)
    requires s.buffer.acked <= |s.stored| < q <= |s.buffer.history| && RestFits(c, s, mask)
    ensures var history, p := s.buffer.history, |s.stored|;
            var log := history[q - 1];
            var before := s.stored + MaskedAll(history[p..q - 1], mask);
            && |before| == q - 1
            && before + [Masked(log, mask(log))] == s.stored + MaskedAll(history[p..q], mask)
            && |Log(c, before + [Masked(log, mask(log))])| <= MAX_TASK_LOG_FILE_BYTES
            && |Rec(c, Masked(log, mask(log)))| <= LINE_LIMIT
  {
    hide Log, Rec;
    var history, p := s.buffer.history, |s.stored|;
    var rest := history[p..];
    assert history[p..q - 1] == rest[..q - 1 - p] && history[p..q] == rest[..q - p];
    MaskedPrefix(rest, mask, q - 1 - p);
    assert s.stored + MaskedAll(rest[..q - p], mask) == (s.stored + MaskedAll(rest, mask))[..q];
    PrefixIsShorter(c, s.stored + MaskedAll(rest, mask), q);
  }

  /** A replay whose messages all arrive brings the server up to the agent's last record, and the
      acknowledgement that follows empties the window. */
  lemma ReplayCatchesUp(c: Codec, maxBytes: nat, s: State, mask: Entry -> string)
    requires Sound(c) && Safe(c, maxBytes, s) && RestFits(c, s, mask)
    ensures var b := s.buffer;
            var events := [Replay] + Arrivals(b, mask, |b.history| - b.acked) + [TakeAck(|b.history|)];
            var t := Run(c, maxBytes, s, events);
            && t.buffer.history == b.history
            && t.buffer.acked == |t.stored| == |b.history|
            && t.stored == s.stored + MaskedAll(b.history[|s.stored|..], mask)
            && t.buffer.compacted == |b.history| && (t.buffer.full <==> b.full && b.acked == |b.history|)
  {
    hide *;
    var b := s.buffer;
    SafeIsOrdered(c, maxBytes, s);
    var n := |b.history| - b.acked;
    var arrivals := Arrivals(b, mask, n);
    var r := Step(c, maxBytes, s, Replay);
    ReplayKeepsSafe(c, maxBytes, s);
    ReplaySends(c, maxBytes, s);
    RestFitsOf(c, s, r, mask);
    ReachedIs(r, n);
    ArrivalsAreStored(c, maxBytes, r, mask, n);
    CaughtUp(c, maxBytes, s, r, arrivals);
    assert b.history[|s.stored|..|b.history|] == b.history[|s.stored|..];
    MaskedLength(b.history[|s.stored|..], mask);
    LastAckEmptiesWindow(c, maxBytes, Run(c, maxBytes, r, arrivals));
  }

  lemma MaskedLength(es: seq<Entry>, mask: Entry -> string)
    ensures |MaskedAll(es, mask)| == |es|
  {
  }

  lemma RestFitsOf(c: Codec, s: State, r: State, mask: Entry -> string)
    requires s.buffer.acked <= |s.stored| <= |s.buffer.history| && RestFits(c, s, mask)
    requires r.buffer == s.buffer && r.stored == s.stored
    ensures RestFits(c, r, mask)
  {
  }

  lemma CaughtUp(c: Codec, maxBytes: nat, s: State, r: State, arrivals: seq<Event>)
    requires s.buffer.compacted <= s.buffer.acked <= |s.buffer.history| && r == Step(c, maxBytes, s, Replay)
    ensures var last := TakeAck(|s.buffer.history|);
            Run(c, maxBytes, s, [Replay] + arrivals + [last]) == Step(c, maxBytes, Run(c, maxBytes, r, arrivals), last)
  {
    hide Step;
    assert ([Replay] + arrivals)[1..] == arrivals;
    RunSnoc(c, maxBytes, s, [Replay] + arrivals, TakeAck(|s.buffer.history|));
  }

  lemma ReplaySends(c: Codec, maxBytes: nat, s: State)
    requires Safe(c, maxBytes, s)
    ensures var r := Step(c, maxBytes, s, Replay);
            && r == s.(logs := r.logs)
            && forall i :: s.buffer.acked <= i < |s.buffer.history| ==> s.buffer.history[i] in r.logs
  {
    hide Scan, Log, Rec, Kept, Persisted;
  }

  lemma LastAckEmptiesWindow(c: Codec, maxBytes: nat, t: State)
    requires Safe(c, maxBytes, t) && |t.stored| == |t.buffer.history|
    requires t.buffer.acked < |t.buffer.history| ==> |t.buffer.history| in t.acks
    ensures var u := Step(c, maxBytes, t, TakeAck(|t.buffer.history|));
            && u.buffer.history == t.buffer.history && u.buffer.acked == |u.stored| && u.stored == t.stored
            && u.buffer.compacted == |u.buffer.history|
            && (u.buffer.full <==> t.buffer.full && t.buffer.acked == |t.buffer.history|)
  {
    hide Scan, Log, Rec, Persisted, Retained;
  }
}
