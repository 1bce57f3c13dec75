/** The hand-off of a log subscription from history pages to live events. */
module LogSubscription {
  import opened Options
  import opened Ndjson
  import Files = TaskLogFile

  /** The log over time: its records, numbered from 1, and whether record i was broadcast when it was appended.
      (An append that fails after its line reached the file is never broadcast.) */
  datatype Feed = Feed(codec: Codec, record: nat -> Entry, announced: nat -> bool)

  const PAGE_BYTES := 0x10_0000

  ghost predicate Wellformed(s: Feed) {
    Sound(s.codec) && forall i: nat {:trigger s.record(i)} :: s.record(i).sequence == i + 1
  }

  /** The first n records. */
  function Records(s: Feed, n: nat): seq<Entry> {
    seq(n, i requires 0 <= i < n => s.record(i))
  }

  function At(s: Feed, n: nat): nat {
    |Log(s.codec, Records(s, n))|
  }

  function MessageOf(s: Feed, i: nat): Message {
    Message(At(s, i), At(s, i + 1), s.record(i))
  }

  /** The messages of records from..end. */
  function Messages(s: Feed, from: nat, end: nat): seq<Message>
    requires from <= end
  {
    seq(end - from, i requires 0 <= i < end - from => MessageOf(s, from + i))
  }

  /** Those of them that were broadcast. */
  function Broadcasts(s: Feed, from: nat, end: nat): seq<Message>
    requires from <= end
  {
    if from == end then []
    else Broadcasts(s, from, end - 1) + if s.announced(end - 1) then [MessageOf(s, end - 1)] else []
  }

  lemma RecordsPrefix(s: Feed, i: nat, n: nat)
    requires i <= n
    ensures Records(s, n)[..i] == Records(s, i)
    ensures Offset(s.codec, Records(s, n), i) == At(s, i)
  {
  }

  lemma AtGrows(s: Feed, i: nat, j: nat)
    requires i <= j
    ensures At(s, i) <= At(s, j) && (i < j ==> At(s, i) < At(s, j))
  {
    RecordsPrefix(s, i, j);
    RecordsPrefix(s, j, j);
    OffsetGrows(s.codec, Records(s, j), i, j);
  }

  lemma AtNext(s: Feed, i: nat)
    ensures At(s, i + 1) == At(s, i) + |s.codec.enc(s.record(i))| + 1
  {
    assert Records(s, i + 1) == Records(s, i) + [s.record(i)];
    LogConcat(s.codec, Records(s, i), [s.record(i)]);
    LogOne(s.codec, s.record(i));
  }

  lemma RecordsNumbered(s: Feed, n: nat)
    requires Wellformed(s)
    ensures Numbered(Records(s, n), 1)
  {
  }

  /** A page read while the log has n records. */
  function ReadHistory(s: Feed, n: nat, offset: nat): Files.ReadResult {
    Files.ReadPage(s.codec, Log(s.codec, Records(s, n)), offset, PAGE_BYTES)
  }

  lemma PageAt(s: Feed, i: nat, n: nat) returns (j: nat)
    requires Wellformed(s) && i <= n
    ensures i <= j <= n && (i < n ==> i < j)
    ensures ReadHistory(s, n, At(s, i)) == Files.Read(Records(s, n)[i..j], At(s, j), At(s, n), j == n)
  {
    assert PAGE_BYTES > 0;
    hide *;
    RecordsNumbered(s, n);
    RecordsLength(s, n);
    SoundFeed(s);
    RecordsPrefix(s, i, n);
    j := Files.ReadFromRecord(s.codec, Records(s, n), i, PAGE_BYTES);
    RecordsPrefix(s, j, n);
    AtIs(s, n);
    ReadHistoryIs(s, n, At(s, i));
  }

  lemma ReadHistoryIs(s: Feed, n: nat, offset: nat)
    ensures ReadHistory(s, n, offset) == Files.ReadPage(s.codec, Log(s.codec, Records(s, n)), offset, PAGE_BYTES)
  {
  }

  lemma RecordsLength(s: Feed, n: nat)
    ensures |Records(s, n)| == n
  {
  }

  lemma AtIs(s: Feed, n: nat)
    ensures At(s, n) == |Log(s.codec, Records(s, n))|
  {
  }

  lemma SoundFeed(s: Feed)
    requires Wellformed(s)
    ensures Sound(s.codec)
  {
  }

  lemma PageEntry(s: Feed, i: nat, j: nat, n: nat, k: nat)
    requires i + k < j <= n
    ensures |Records(s, n)[i..j]| == j - i && Records(s, n)[i..j][k] == s.record(i + k)
  {
  }

  lemma MessageIs(s: Feed, i: nat)
    ensures MessageOf(s, i) == Message(At(s, i), At(s, i + 1), s.record(i))
  {
  }

  lemma MessagesGrow(s: Feed, from: nat, end: nat)
    requires from <= end
    ensures Messages(s, from, from) == []
    ensures Messages(s, from, end + 1) == Messages(s, from, end) + [MessageOf(s, end)]
  {
  }

  /** A read at an offset is accepted exactly when a record starts or the log ends there. */
  lemma BoundaryAt(s: Feed, n: nat, offset: nat)
    requires Wellformed(s)
    ensures ReadHistory(s, n, offset).Read? <==>
            exists i :: 0 <= i <= n && offset == At(s, i)
  {
    RecordsNumbered(s, n);
    Files.ReadReturnsRecords(s.codec, Records(s, n), offset, PAGE_BYTES);
    forall i | 0 <= i <= n ensures Offset(s.codec, Records(s, n), i) == At(s, i) && |Log(s.codec, Records(s, n)[..i])| == At(s, i) {
      RecordsPrefix(s, i, n);
    }
    hide Log, Records, Sound;
  }

  /** The loop over one page: its messages up to the target. */
  method SendPage(s: Feed, entries: seq<Entry>, before: seq<Message>, at: nat, targetOffset: nat,
                  ghost start: nat, ghost i: nat, ghost j: nat, ghost n: nat, ghost target: nat)
    returns (sent: seq<Message>, cursor: nat)
    requires start <= i <= j <= n && i <= target <= n && entries == Records(s, n)[i..j] && |Records(s, n)| == n
    requires at == At(s, i) && targetOffset == At(s, target) && before == Messages(s, start, i)
    ensures var m := if j < target then j else target;
            sent == Messages(s, start, m) && cursor == At(s, m)
  {
    hide *;
    sent, cursor := before, at;
    var k := 0;
    AtGrows(s, i, target);
    while k < |entries| && cursor < targetOffset
      invariant 0 <= k <= j - i && i + k <= target
      invariant cursor == At(s, i + k) <= targetOffset
      invariant sent == Messages(s, start, i + k)
      decreases |entries| - k
    {
      PageEntry(s, i, j, n, k);
      AtNext(s, i + k);
      var nextOffset := cursor + |s.codec.enc(entries[k])| + 1;
      MessageIs(s, i + k);
      MessagesGrow(s, start, i + k);
      sent := sent + [Message(cursor, nextOffset, entries[k])];
      cursor := nextOffset;
      k := k + 1;
      if i + k < target {
        AtGrows(s, i + k, target);
      }
    }
    AtGrows(s, i + k, target);
    ghost var m := if j < target then j else target;
    assert i + k == m;
  }

  /** The page loop. At its k-th page read the log holds counts(k) records; the messages up to the size the
      first page reported are sent, whatever was appended meanwhile. */
  method SendHistory(s: Feed, counts: nat -> nat, offset: nat, ghost start: nat) returns (sent: seq<Message>, cursor: nat, pages: nat)
    requires Wellformed(s) && offset == At(s, start) && start <= counts(0)
    requires forall i, j :: 0 <= i <= j ==> counts(i) <= counts(j)
    ensures sent == Messages(s, start, counts(0)) && cursor == At(s, counts(0)) && pages >= 1
  {
    hide *;
    ghost var i, n := start, counts(0);
    ghost var j := PageAt(s, i, n);
    var page := ReadHistory(s, counts(0), offset);
    var targetOffset := page.size;
    pages := 1;
    sent, cursor := [], offset;
    MessagesGrow(s, start, start);
    AtGrows(s, start, counts(0));
    RecordsLength(s, n);
    while cursor < targetOffset
      invariant start <= i <= counts(0) <= n && i <= j <= n && (i < n ==> i < j)
      invariant pages >= 1 && |Records(s, n)| == n
      invariant cursor == At(s, i) <= targetOffset == At(s, counts(0))
      invariant page == Files.Read(Records(s, n)[i..j], At(s, j), At(s, n), j == n)
      invariant sent == Messages(s, start, i)
      decreases counts(0) - i
    {
      AtGrows(s, i, counts(0));
      sent, cursor := SendPage(s, page.entries, sent, cursor, targetOffset, start, i, j, n, counts(0));
      i := if j < counts(0) then j else counts(0);
      if cursor >= targetOffset {
        break;
      }
      AtGrows(s, i, counts(0));
      n := counts(pages);
      RecordsLength(s, n);
      j := PageAt(s, i, n);
      // At a record boundary short of the target a page is never empty, so the reader's check that it
      // advanced cannot fail.
      page := ReadHistory(s, counts(pages), cursor);
      pages := pages + 1;
    }
    AtGrows(s, i, counts(0));
    assert i == counts(0);
  }

  // --- The events queued meanwhile ---

  /** What is sent of queued events, and the cursor after them: an event the pages covered already is dropped. */
  function Flushed(queued: seq<Message>, at: nat): (seq<Message>, nat) {
    if queued == [] then ([], at)
    else
      var before := Flushed(queued[..|queued| - 1], at);
      var event := queued[|queued| - 1];
      if event.offset >= before.1 && event.nextOffset > before.1 then (before.0 + [event], event.nextOffset) else before
  }

  /** With a queue that starts at or before the target, exactly the broadcasts from the target on are sent. */
  lemma {:induction false} QueueContinuesHistory(s: Feed, subscribedAt: nat, target: nat, total: nat)
    requires subscribedAt <= target && subscribedAt <= total
    ensures var flushed := Flushed(Broadcasts(s, subscribedAt, total), At(s, target));
            && flushed.0 == (if total <= target then [] else Broadcasts(s, target, total))
            && At(s, target) <= flushed.1 <= At(s, if total <= target then target else total)
    decreases total
  {
    hide *;
    BroadcastsStep(s, subscribedAt, total);
    if subscribedAt == total {
      FlushedNothing(At(s, target));
      NoBroadcasts(s, target);
    } else {
      var i := total - 1;
      QueueContinuesHistory(s, subscribedAt, target, i);
      AtGrows(s, i, total);
      FlushedOne(Broadcasts(s, subscribedAt, i), MessageOf(s, i), At(s, target));
      MessageIs(s, i);
      NoBroadcasts(s, target);
      if i < target {
        AtGrows(s, i, target);
        AtGrows(s, total, target);
      } else {
        BroadcastsStep(s, target, total);
        AtGrows(s, target, i);
      }
    }
  }

  lemma BroadcastsStep(s: Feed, from: nat, end: nat)
    requires from <= end
    ensures Broadcasts(s, from, end) ==
              if from == end then []
              else Broadcasts(s, from, end - 1) + if s.announced(end - 1) then [MessageOf(s, end - 1)] else []
    ensures from < end && !s.announced(end - 1) ==> Broadcasts(s, from, end) == Broadcasts(s, from, end - 1)
  {
    hide MessageOf;
  }

  lemma FlushedNothing(at: nat)
    ensures Flushed([], at) == ([], at)
  {
  }

  lemma FlushedOne(queued: seq<Message>, event: Message, at: nat)
    ensures var before := Flushed(queued, at);
            Flushed(queued + [event], at) ==
              if event.offset >= before.1 && event.nextOffset > before.1 then (before.0 + [event], event.nextOffset) else before
  {
    assert (queued + [event])[..|queued|] == queued;
  }

  method FlushQueue(queued: seq<Message>, at: nat) returns (sent: seq<Message>)
    ensures sent == Flushed(queued, at).0
  {
    sent := [];
    var cursor := at;
    for k := 0 to |queued|
      invariant (sent, cursor) == Flushed(queued[..k], at)
    {
      var event := queued[k];
      assert queued[..k + 1][..k] == queued[..k];
      if event.offset >= cursor && event.nextOffset > cursor {
        sent := sent + [event];
        cursor := event.nextOffset;
      }
    }
    assert queued[..|queued|] == queued;
  }

  /** A subscription from `offset`. The listener is in place before the first page read; record `subscribedAt` is
      the first it hears of, if that is broadcast. None: the subscription is rejected. */
  method Subscribe(s: Feed, counts: nat -> nat, subscribedAt: nat, offset: int)
    returns (result: Option<seq<Message>>, ghost total: nat)
    requires Wellformed(s) && subscribedAt <= counts(0)
    requires forall i, j :: 0 <= i <= j ==> counts(i) <= counts(j)
    ensures result.Some? <==> exists i :: 0 <= i <= counts(0) && offset == At(s, i)
    ensures result.Some? ==> counts(0) <= total
    ensures result.Some? ==> forall i | 0 <= i <= counts(0) && offset == At(s, i) ::
                               result.value == Messages(s, i, counts(0)) + Broadcasts(s, counts(0), total)
  {
    hide *;
    result, total := None, counts(0);
    if offset < 0 {
      return;
    }
    BoundaryAt(s, counts(0), offset);
    if ReadHistory(s, counts(0), offset).Rejected? {
      return;
    }
    ghost var start :| 0 <= start <= counts(0) && offset == At(s, start);
    forall i | 0 <= i <= counts(0) && offset == At(s, i) ensures i == start {
      AtDiffers(s, i, start);
    }
    var history, cursor, pages := SendHistory(s, counts, offset, start);
    var queued := Broadcasts(s, subscribedAt, counts(pages));
    total := counts(pages);
    var flushed := FlushQueue(queued, cursor);
    QueueContinuesHistory(s, subscribedAt, counts(0), total);
    NoBroadcasts(s, total);
    result := Some(history + flushed);
  }

  lemma NoBroadcasts(s: Feed, n: nat)
    ensures Broadcasts(s, n, n) == []
  {
  }

  lemma AtDiffers(s: Feed, i: nat, j: nat)
    requires At(s, i) == At(s, j)
    ensures i == j
  {
    if i <= j {
      AtGrows(s, i, j);
    } else {
      AtGrows(s, j, i);
    }
  }

  // --- What the client sees ---

  lemma {:induction false} BroadcastsSplit(s: Feed, from: nat, mid: nat, end: nat)
    requires from <= mid <= end
    ensures Broadcasts(s, from, mid) + Broadcasts(s, mid, end) == Broadcasts(s, from, end)
    decreases end
  {
    if mid < end {
      BroadcastsSplit(s, from, mid, end - 1);
    } else {
      assert Broadcasts(s, from, mid) + [] == Broadcasts(s, from, mid);
    }
  }

  lemma {:induction false} AllBroadcast(s: Feed, from: nat, end: nat)
    requires from <= end
    ensures |Broadcasts(s, from, end)| <= end - from
    ensures |Broadcasts(s, from, end)| == end - from <==> forall i :: from <= i < end ==> s.announced(i)
    ensures |Broadcasts(s, from, end)| == end - from ==> Broadcasts(s, from, end) == Messages(s, from, end)
    decreases end
  {
    if from < end {
      AllBroadcast(s, from, end - 1);
      MessagesGrow(s, from, end - 1);
    }
  }

  /** History up to the target and the broadcasts after it are every record from `start` on, once and in order,
      if and only if every record from the target on was broadcast. */
  lemma SeenWhenAnnounced(s: Feed, start: nat, target: nat, total: nat, until: nat)
    requires start <= target <= total <= until
    ensures var seen := Messages(s, start, target) + Broadcasts(s, target, total) + Broadcasts(s, total, until);
            seen == Messages(s, start, until) <==> forall i :: target <= i < until ==> s.announced(i)
  {
    hide *;
    BroadcastsSplit(s, target, total, until);
    AllBroadcast(s, target, until);
    MessagesSplit(s, start, target, until);
    var history, after := Messages(s, start, target), Broadcasts(s, target, until);
    assert history + Broadcasts(s, target, total) + Broadcasts(s, total, until) == history + after;
  }

  lemma MessagesSplit(s: Feed, from: nat, mid: nat, end: nat)
    requires from <= mid <= end
    ensures |Messages(s, from, mid)| == mid - from && |Messages(s, from, end)| == end - from
    ensures Messages(s, from, mid) + Messages(s, mid, end) == Messages(s, from, end)
  {
    hide MessageOf;
  }

  lemma MessageAt(s: Feed, from: nat, end: nat, i: nat)
    requires i < end - from
    ensures |Messages(s, from, end)| == end - from
    ensures Messages(s, from, end)[i] == Message(At(s, from + i), At(s, from + i + 1), s.record(from + i))
  {
    hide At;
    assert Messages(s, from, end)[i] == MessageOf(s, from + i);
  }

  /** The messages of a range are contiguous: each starts where the previous one ended. */
  lemma MessagesAreContiguous(s: Feed, from: nat, end: nat, i: nat)
    requires i + 1 < end - from
    ensures |Messages(s, from, end)| == end - from
    ensures Messages(s, from, end)[i].nextOffset == Messages(s, from, end)[i + 1].offset
    ensures Messages(s, from, end)[i].offset < Messages(s, from, end)[i + 1].offset
  {
    hide *;
    MessageAt(s, from, end, i);
    MessageAt(s, from, end, i + 1);
    var k := from + i;
    assert from + (i + 1) == k + 1;
    AtGrows(s, k, k + 1);
  }
}
