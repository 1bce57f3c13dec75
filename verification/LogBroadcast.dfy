/** Which records the server broadcasts, derived from the calls that append them, and what a subscriber then sees. */
module LogBroadcast {
  import opened Options
  import opened Ndjson
  import opened TaskLogStorage
  import opened LogDelivery
  import opened TaskLogs
  import opened LogSubscription
  import opened Utf8

  /** A log message is handled, or the file is read again after a restart or for a history page. */
  datatype Op = Append(log: Entry, masked: string, x: Outcome) | Reread

  /** The file with its records, whether each of them was broadcast, and all that was broadcast. */
  datatype Book = Book(file: Bytes, stored: seq<Entry>, heard: seq<bool>, sent: seq<Message>)

  const BLANK := Book([], [], [], [])

  function Act(c: Codec, b: Book, op: Op): Book {
    match op
    case Reread => b.(file := Repaired(c, b.file))
    case Append(log, masked, x) =>
      var h := Handle(c, b.file, b.stored, log, masked, x);
      Book(h.file, h.stored,
           if |h.stored| > |b.stored| then b.heard + [h.broadcast.Some?] else b.heard,
           if h.broadcast.Some? then b.sent + [h.broadcast.value] else b.sent)
  }

  function Acts(c: Codec, b: Book, ops: seq<Op>): Book
    decreases |ops|
  {
    if ops == [] then b else Acts(c, Act(c, b, ops[0]), ops[1..])
  }

  ghost predicate BookOk(c: Codec, b: Book) {
    Holds(c, b.file, b.stored) && Numbered(b.stored, 1) && |b.heard| == |b.stored|
  }

  /** The log as the subscription sees it; past its end it is never read. */
  function FeedOf(c: Codec, b: Book): Feed {
    Feed(c, (i: nat) => if i < |b.stored| then b.stored[i] else Entry(i + 1, Stdout, "", ""), (i: nat) => i < |b.heard| && b.heard[i])
  }

  /** Every call that stored a record had its file synced and the row updated. */
  ghost predicate AllConfirmed(c: Codec, b: Book, ops: seq<Op>)
    decreases |ops|
  {
    ops == []
    || ((|Act(c, b, ops[0]).stored| > |b.stored| ==> ops[0].x.confirmed) && AllConfirmed(c, Act(c, b, ops[0]), ops[1..]))
  }

  // --- One call ---

  /** The record of a call that stores it: the next one, broadcast exactly when confirmed. */
  ghost predicate Grows(c: Codec, b: Book, next: Book, op: Op) {
    && op.Append? && |b.stored| < |next.stored| && next.stored == b.stored + [next.stored[|b.stored|]]
    && next.heard == b.heard + [op.x.confirmed]
    && next.sent == b.sent + if op.x.confirmed
                             then [Message(|Log(c, b.stored)|, |Log(c, next.stored)|, next.stored[|b.stored|])] else []
  }

  ghost predicate Same(b: Book, next: Book) {
    next == b.(file := next.file)
  }

  lemma BlankIsOk(c: Codec)
    ensures BookOk(c, BLANK)
  {
    assert Log(c, []) == [];
    assert Scan(c, [], 0, 0) == FileState(0, 0);
  }

  lemma RereadHolds(c: Codec, b: Book)
    requires BookOk(c, b)
    ensures BookOk(c, Act(c, b, Reread))
  {
    RecoveryIsIdempotent(c, b.file);
    hide Scan, Log;
    var size := Scan(c, b.file, 0, 0).size;
    assert b.file[..size][..size] == b.file[..size];
  }

  lemma LogHolds(c: Codec, stored: seq<Entry>)
    requires Sound(c) && Numbered(stored, 1)
    ensures Holds(c, Log(c, stored), stored)
  {
    NothingTorn(c);
    TornEndIsDropped(c, stored, []);
    hide Scan, Log, Torn, Sound;
    assert Log(c, stored) + [] == Log(c, stored);
  }

  lemma NextIsNumbered(stored: seq<Entry>, e: Entry)
    requires Numbered(stored, 1) && e.sequence == |stored| + 1
    ensures Numbered(stored + [e], 1)
  {
  }

  lemma PartHolds(c: Codec, stored: seq<Entry>, e: Entry, k: nat)
    requires Sound(c) && Numbered(stored + [e], 1) && k < |Rec(c, e)|
    ensures Holds(c, Log(c, stored) + Rec(c, e)[..k], stored)
  {
    CrashKeepsLog(c, stored, e, k);
    hide Scan, Log, Rec, Sound;
  }

  /** A call stores nothing and broadcasts nothing, or stores the next record and broadcasts it if confirmed. */
  lemma HandleHolds(c: Codec, file: Bytes, stored: seq<Entry>, log: Entry, masked: string, x: Outcome)
    requires Sound(c) && Holds(c, file, stored) && Numbered(stored, 1)
    ensures var h := Handle(c, file, stored, log, masked, x);
            var e := Masked(log, masked);
            && Holds(c, h.file, h.stored) && Numbered(h.stored, 1)
            && ((h.stored == stored && h.broadcast.None?)
                || (h.stored == stored + [e]
                    && h.broadcast == if x.confirmed then Some(Message(|Log(c, stored)|, |Log(c, h.stored)|, e)) else None))
  {
    hide Scan, Log, Rec, Sound, Holds, Handle, LineFits, Numbered;
    var e := Masked(log, masked);
    LogHolds(c, stored);
    if ByteLen(log.chunk) > MAX_TASK_LOG_CHUNK_BYTES {
      TooLong(c, file, stored, log, masked, x);
    } else if !x.aligned || log.sequence != |stored| + 1 {
      HandleStale(c, file, stored, log, masked, x);
    } else {
      HandleNext(c, file, stored, log, masked, x);
      NextIsNumbered(stored, e);
      LogHolds(c, stored + [e]);
      if x.written < |Rec(c, e)| {
        PartHolds(c, stored, e, x.written);
      }
    }
  }

  lemma AppendActs(c: Codec, b: Book, log: Entry, masked: string, x: Outcome)
    requires Sound(c) && BookOk(c, b)
    ensures var next := Act(c, b, Append(log, masked, x));
            BookOk(c, next) && (Same(b, next) || Grows(c, b, next, Append(log, masked, x)))
  {
    hide Log, Sound, Holds, Handle, Numbered;
    HandleHolds(c, b.file, b.stored, log, masked, x);
  }

  lemma ActKeeps(c: Codec, b: Book, op: Op)
    requires Sound(c) && BookOk(c, b)
    ensures BookOk(c, Act(c, b, op)) && (Same(b, Act(c, b, op)) || Grows(c, b, Act(c, b, op), op))
  {
    hide BookOk, Grows, Sound, Handle, Repaired;
    match op
    case Reread => RereadHolds(c, b);
    case Append(log, masked, x) => AppendActs(c, b, log, masked, x);
  }

  // --- Any number of calls ---

  /** The records of b, and what was heard of them, are a beginning of those of `next`. */
  ghost predicate Extends(b: Book, next: Book) {
    b.stored <= next.stored && b.heard <= next.heard
  }

  lemma ActExtends(c: Codec, b: Book, op: Op)
    requires Sound(c) && BookOk(c, b)
    ensures Extends(b, Act(c, b, op))
  {
    ActKeeps(c, b, op);
    hide Act, BookOk, Log;
  }

  lemma {:induction false} ActsKeep(c: Codec, b: Book, ops: seq<Op>)
    requires Sound(c) && BookOk(c, b)
    ensures BookOk(c, Acts(c, b, ops)) && Extends(b, Acts(c, b, ops))
    decreases |ops|
  {
    hide Act, BookOk, Sound;
    if ops != [] {
      var next := Act(c, b, ops[0]);
      ActKeeps(c, b, ops[0]);
      ActExtends(c, b, ops[0]);
      ActsKeep(c, next, ops[1..]);
      ExtendsOn(b, next, Acts(c, next, ops[1..]));
    }
  }

  lemma ExtendsOn(a: Book, b: Book, d: Book)
    requires Extends(a, b) && Extends(b, d)
    ensures Extends(a, d)
  {
    assert d.stored[..|a.stored|] == d.stored[..|b.stored|][..|a.stored|];
    assert d.heard[..|a.heard|] == d.heard[..|b.heard|][..|a.heard|];
  }

  lemma {:induction false} ActsConcat(c: Codec, b: Book, ops: seq<Op>, more: seq<Op>)
    ensures Acts(c, b, ops + more) == Acts(c, Acts(c, b, ops), more)
    decreases |ops|
  {
    hide Act;
    if ops == [] {
      assert ops + more == more;
    } else {
      assert (ops + more)[1..] == ops[1..] + more;
      ActsConcat(c, Act(c, b, ops[0]), ops[1..], more);
    }
  }

  lemma FeedIsWellformed(c: Codec, b: Book)
    requires Sound(c) && BookOk(c, b)
    ensures Wellformed(FeedOf(c, b))
  {
    hide Holds, Sound;
  }

  lemma RecordsOf(c: Codec, b: Book, n: nat)
    requires n <= |b.stored|
    ensures Records(FeedOf(c, b), n) == b.stored[..n]
  {
  }

  lemma MessageOfFeed(c: Codec, b: Book, i: nat)
    requires i < |b.stored|
    ensures MessageOf(FeedOf(c, b), i) == Message(|Log(c, b.stored[..i])|, |Log(c, b.stored[..i + 1])|, b.stored[i])
  {
    RecordsOf(c, b, i);
    RecordsOf(c, b, i + 1);
    hide Log, Records;
  }

  /** What was broadcast of the first records does not change when more follow. */
  lemma {:induction false} BroadcastsExtend(c: Codec, b: Book, next: Book, from: nat, end: nat)
    requires from <= end <= |b.stored| && |b.heard| == |b.stored| && Extends(b, next)
    ensures Broadcasts(FeedOf(c, next), from, end) == Broadcasts(FeedOf(c, b), from, end)
    decreases end
  {
    if from < end {
      BroadcastsExtend(c, b, next, from, end - 1);
      MessageOfFeed(c, b, end - 1);
      MessageOfFeed(c, next, end - 1);
      assert next.stored[..end] == b.stored[..end] && next.stored[..end - 1] == b.stored[..end - 1];
      assert next.stored[end - 1] == b.stored[end - 1] && next.heard[end - 1] == b.heard[end - 1];
      hide MessageOf, Log;
    }
  }

  /** One call broadcasts what the feed says. */
  lemma ActEmits(c: Codec, b: Book, op: Op)
    requires Sound(c) && BookOk(c, b)
    ensures var next := Act(c, b, op);
            |b.stored| <= |next.stored| && next.sent == b.sent + Broadcasts(FeedOf(c, next), |b.stored|, |next.stored|)
  {
    var next := Act(c, b, op);
    ActKeeps(c, b, op);
    var n := |b.stored|;
    NoBroadcasts(FeedOf(c, next), n);
    if Grows(c, b, next, op) {
      assert next.stored[..n] == b.stored && next.stored[..n + 1] == next.stored;
      MessageOfFeed(c, next, n);
      BroadcastsStep(FeedOf(c, next), n, n + 1);
      hide Act, Log, MessageOf, Broadcasts, BookOk;
    } else {
      hide Act, Log, MessageOf, Broadcasts, BookOk;
      assert next.sent == b.sent + [];
    }
  }

  /** The events sent during a run of calls are the broadcasts of the records stored in it. */
  lemma {:induction false} ActsEmit(c: Codec, b: Book, ops: seq<Op>)
    requires Sound(c) && BookOk(c, b)
    ensures var end := Acts(c, b, ops);
            |b.stored| <= |end.stored| && end.sent == b.sent + Broadcasts(FeedOf(c, end), |b.stored|, |end.stored|)
    decreases |ops|
  {
    hide Act, BookOk, Sound, FeedOf, Broadcasts;
    if ops == [] {
      NoBroadcasts(FeedOf(c, b), |b.stored|);
      assert b.sent + [] == b.sent;
    } else {
      var next := Act(c, b, ops[0]);
      var end := Acts(c, next, ops[1..]);
      ActKeeps(c, b, ops[0]);
      ActEmits(c, b, ops[0]);
      ActsEmit(c, next, ops[1..]);
      ActsKeep(c, next, ops[1..]);
      HeardLength(c, next);
      BroadcastsExtend(c, next, end, |b.stored|, |next.stored|);
      BroadcastsSplit(FeedOf(c, end), |b.stored|, |next.stored|, |end.stored|);
    }
  }

  lemma HeardLength(c: Codec, b: Book)
    requires BookOk(c, b)
    ensures |b.heard| == |b.stored|
  {
  }

  ghost predicate AllHeard(b: Book, from: nat) {
    forall i :: from <= i < |b.heard| ==> b.heard[i]
  }

  /** Every record stored in a run was broadcast exactly if every call that stored one was confirmed. */
  lemma {:induction false} HeardWhenConfirmed(c: Codec, b: Book, ops: seq<Op>)
    requires Sound(c) && BookOk(c, b)
    ensures AllHeard(Acts(c, b, ops), |b.heard|) <==> AllConfirmed(c, b, ops)
    decreases |ops|
  {
    hide Act, BookOk, Sound;
    if ops != [] {
      var next := Act(c, b, ops[0]);
      var end := Acts(c, next, ops[1..]);
      ActKeeps(c, b, ops[0]);
      ActsKeep(c, next, ops[1..]);
      HeardWhenConfirmed(c, next, ops[1..]);
      HeardLength(c, b);
      HeardLength(c, next);
      HeardFrom(b, next, end);
      HeardOfOne(c, b, ops[0]);
    }
  }

  lemma HeardOfOne(c: Codec, b: Book, op: Op)
    requires Sound(c) && BookOk(c, b)
    ensures var next := Act(c, b, op);
            && |b.heard| <= |next.heard| <= |b.heard| + 1
            && (AllHeard(next, |b.heard|) <==> (|next.stored| > |b.stored| ==> op.x.confirmed))
            && (|next.stored| > |b.stored| ==> op.Append?)
  {
    ActKeeps(c, b, op);
    var next := Act(c, b, op);
    hide Act, Log, BookOk;
    if Grows(c, b, next, op) {
      assert next.heard[|b.heard|] == op.x.confirmed;
    }
  }

  lemma HeardFrom(b: Book, next: Book, end: Book)
    requires next.heard <= end.heard && |b.heard| <= |next.heard| <= |b.heard| + 1
    ensures AllHeard(end, |b.heard|) <==> AllHeard(next, |b.heard|) && AllHeard(end, |next.heard|)
  {
    assert forall i :: 0 <= i < |next.heard| ==> end.heard[i] == next.heard[i];
  }

  // --- What the client of a subscription sees ---

  /** A client subscribes from record `start` on, after the calls `before`. It gets the history up to the size its first
      page read found, then the events queued while it read (the calls `meanwhile`), and then every live event (the
      calls `later`). It gets each record exactly once and in order if and only if every call after that first page
      read that stored a record had its file synced and the task's row updated. */
  lemma ExactlyOnceInOrder(c: Codec, before: seq<Op>, meanwhile: seq<Op>, later: seq<Op>, start: nat)
    requires Sound(c) && start <= |Acts(c, BLANK, before).stored|
    ensures var read := Acts(c, BLANK, before);
            var live := Acts(c, read, meanwhile);
            var end := Acts(c, live, later);
            var feed := FeedOf(c, end);
            && Wellformed(feed) && |read.stored| <= |live.stored| <= |end.stored| && live.sent <= end.sent
            && (Messages(feed, start, |read.stored|) + Broadcasts(feed, |read.stored|, |live.stored|) + end.sent[|live.sent|..]
                  == Messages(feed, start, |end.stored|)
                <==> AllConfirmed(c, read, meanwhile + later))
  {
    hide *;
    var read := Acts(c, BLANK, before);
    var live := Acts(c, read, meanwhile);
    var end := Acts(c, live, later);
    BlankIsOk(c);
    ActsKeep(c, BLANK, before);
    ActsKeep(c, read, meanwhile);
    ActsKeep(c, live, later);
    ActsEmit(c, read, meanwhile);
    ActsEmit(c, live, later);
    FeedIsWellformed(c, end);
    ActsConcat(c, read, meanwhile, later);
    HeardWhenConfirmed(c, read, meanwhile + later);
    HeardLength(c, read);
    HeardLength(c, end);
    AnnouncedAreHeard(c, end, |read.stored|);
    SeenWhenAnnounced(FeedOf(c, end), start, |read.stored|, |live.stored|, |end.stored|);
    assert end.sent[|live.sent|..] == Broadcasts(FeedOf(c, end), |live.stored|, |end.stored|);
  }

  lemma AnnouncedAreHeard(c: Codec, b: Book, from: nat)
    requires |b.heard| == |b.stored|
    ensures AllHeard(b, from) <==> forall i :: from <= i < |b.stored| ==> FeedOf(c, b).announced(i)
  {
    forall i | from <= i < |b.stored| ensures FeedOf(c, b).announced(i) == b.heard[i] {
    }
  }

  /** A record whose append is not confirmed is stored, and whoever follows the log from its start on never sees
      it, although the agent sends it again. */
  lemma RecordIsMissed(c: Codec, log: Entry, masked: string, again: Outcome)
    requires Sound(c) && log.sequence == 1 && ByteLen(log.chunk) <= MAX_TASK_LOG_CHUNK_BYTES && LineFits(c, [], Masked(log, masked))
    ensures var unconfirmed := Outcome(true, |Rec(c, Masked(log, masked))|, false);
            var end := Acts(c, BLANK, [Append(log, masked, unconfirmed), Append(log, masked, again)]);
            end.stored == [Masked(log, masked)] && end.sent == []
  {
    hide Handle, Log, Rec, LineFits, Sound, Holds, Scan, ByteLen;
    var unconfirmed := Outcome(true, |Rec(c, Masked(log, masked))|, false);
    var first, second := Append(log, masked, unconfirmed), Append(log, masked, again);
    BlankIsOk(c);
    HandleNext(c, [], [], log, masked, unconfirmed);
    assert [] + [Masked(log, masked)] == [Masked(log, masked)];
    var stored := Act(c, BLANK, first);
    ActKeeps(c, BLANK, first);
    ResendIsUnheard(c, stored.file, stored.stored, log, masked, again);
    assert [first, second][1..] == [second] && [second][1..] == [];
    assert Acts(c, stored, [second]) == Acts(c, Act(c, stored, second), []);
  }
}
