/** Which of the records a task puts out the agent keeps, over the runs of the log protocol. */
module LogRetention {
  import opened Options
  import opened Ndjson
  import opened LogBuffer
  import opened LogDelivery

  /** The event puts out the next record. */
  predicate Next(s: State, event: Event) {
    event.Output? && event.entry.sequence == |s.buffer.history| + 1
  }

  predicate Fits(c: Codec, maxBytes: nat, s: State, event: Event)
    requires s.buffer.compacted <= |s.buffer.history|
  {
    Next(s, event) && HasRoom(c, s.buffer, maxBytes, event.entry)
  }

  /** A new acknowledgement of those under way. */
  predicate Acknowledges(s: State, event: Event) {
    event.TakeAck? && event.sequence in s.acks && event.sequence > s.buffer.acked
  }

  /** One event adds a record exactly if it is the next one and finds room. */
  lemma StepKeepsWhatFits(c: Codec, maxBytes: nat, s: State, event: Event)
    requires Safe(c, maxBytes, s)
    ensures Step(c, maxBytes, s, event).buffer.history
            == s.buffer.history + if Fits(c, maxBytes, s, event) then [event.entry] else []
  {
    SafeIsOrdered(c, maxBytes, s);
    hide Log, Persisted, LogsAreHistory, Handle, Repaired, Pushed, Acknowledged;
    if event.Output? {
      PushExact(c, s.buffer, maxBytes, event.entry);
    } else if event.TakeAck? && event.sequence in s.acks {
      AckKeeps(c, s.buffer, maxBytes, event.sequence);
      NoAckIsRejected(c, maxBytes, s, event.sequence);
    }
  }

  /** The buffer gets blocked exactly by a next record that finds no room, and stays so exactly until a new
      acknowledgement. */
  lemma BlockedExactly(c: Codec, maxBytes: nat, s: State, event: Event)
    requires Safe(c, maxBytes, s)
    ensures Step(c, maxBytes, s, event).buffer.full
            <==> (Next(s, event) && !Fits(c, maxBytes, s, event)) || (s.buffer.full && !Acknowledges(s, event))
  {
    SafeIsOrdered(c, maxBytes, s);
    hide Log, Persisted, LogsAreHistory, Handle, Repaired, Pushed, Acknowledged;
    if event.Output? {
      PushExact(c, s.buffer, maxBytes, event.entry);
    } else if event.TakeAck? && event.sequence in s.acks {
      AckExact(c, s.buffer, maxBytes, event.sequence);
      NoAckIsRejected(c, maxBytes, s, event.sequence);
    }
  }

  /** The records that found room, in order. */
  function Fitting(c: Codec, maxBytes: nat, s: State, events: seq<Event>): seq<Entry>
    requires s.buffer.compacted <= s.buffer.acked <= |s.buffer.history|
    decreases |events|
  {
    if events == [] then []
    else
      (if Fits(c, maxBytes, s, events[0]) then [events[0].entry] else [])
      + Fitting(c, maxBytes, Step(c, maxBytes, s, events[0]), events[1..])
  }

  lemma Associate(a: seq<Entry>, b: seq<Entry>, d: seq<Entry>)
    ensures a + (b + d) == a + b + d
  {
  }

  /** Over every run the agent keeps exactly the records that found room, none twice and none in another order. */
  lemma {:induction false} HistoryIsWhatFitted(c: Codec, maxBytes: nat, s: State, events: seq<Event>)
    requires Sound(c) && Safe(c, maxBytes, s)
    ensures s.buffer.compacted <= s.buffer.acked <= |s.buffer.history|
    ensures Run(c, maxBytes, s, events).buffer.history == s.buffer.history + Fitting(c, maxBytes, s, events)
    decreases |events|
  {
    SafeIsOrdered(c, maxBytes, s);
    hide Safe, Step, Fits, Sound;
    if events == [] {
      assert s.buffer.history + [] == s.buffer.history;
    } else {
      StepKeepsSafe(c, maxBytes, s, events[0]);
      StepKeepsWhatFits(c, maxBytes, s, events[0]);
      var next := Step(c, maxBytes, s, events[0]);
      HistoryIsWhatFitted(c, maxBytes, next, events[1..]);
      Associate(s.buffer.history, if Fits(c, maxBytes, s, events[0]) then [events[0].entry] else [], Fitting(c, maxBytes, next, events[1..]));
    }
  }

  // --- A buffer that stays blocked ---

  /** Blocked with nothing outstanding: no acknowledgement can come that unblocks it. */
  ghost predicate Stuck(s: State) {
    s.buffer.full && s.buffer.acked == |s.buffer.history|
  }

  /** It gets stuck exactly when nothing is outstanding and the next record alone is larger than the whole buffer. */
  lemma StuckExactly(c: Codec, maxBytes: nat, s: State, event: Event)
    requires Sound(c) && Safe(c, maxBytes, s)
    ensures Stuck(Step(c, maxBytes, s, event)) <==>
              Stuck(s) || (Next(s, event) && s.buffer.acked == |s.buffer.history| && |c.enc(event.entry)| + 1 > maxBytes)
  {
    StepKeepsSafe(c, maxBytes, s, event);
    BlockedExactly(c, maxBytes, s, event);
    StepKeepsWhatFits(c, maxBytes, s, event);
    StepAcks(c, maxBytes, s, event);
    NothingRetained(c, maxBytes, s);
    hide *;
    StuckIs(s);
    StuckIs(Step(c, maxBytes, s, event));
    RoomIs(c, maxBytes, s, event);
  }

  lemma StuckIs(s: State)
    ensures Stuck(s) <==> s.buffer.full && s.buffer.acked == |s.buffer.history|
  {
  }

  lemma RoomIs(c: Codec, maxBytes: nat, s: State, event: Event)
    requires s.buffer.compacted <= |s.buffer.history|
    ensures Next(s, event) ==>
              (Fits(c, maxBytes, s, event) <==>
                 !s.buffer.full && |Log(c, s.buffer.history[s.buffer.compacted..])| + |c.enc(event.entry)| + 1 <= maxBytes)
    ensures Fits(c, maxBytes, s, event) ==> Next(s, event)
    ensures Next(s, event) ==> !Acknowledges(s, event)
    ensures Acknowledges(s, event) ==> event.sequence > s.buffer.acked
  {
  }

  /** With nothing outstanding the file is empty. */
  lemma NothingRetained(c: Codec, maxBytes: nat, s: State)
    requires Safe(c, maxBytes, s)
    ensures s.buffer.compacted <= s.buffer.acked <= |s.buffer.history|
    ensures s.buffer.acked == |s.buffer.history| ==> Log(c, s.buffer.history[s.buffer.compacted..]) == []
  {
    hide Persisted, LogsAreHistory, Numbered;
    if s.buffer.acked == |s.buffer.history| {
      assert s.buffer.history[s.buffer.compacted..] == [];
    }
  }

  /** Only acknowledgements move the acknowledged number. */
  lemma StepAcks(c: Codec, maxBytes: nat, s: State, event: Event)
    requires Safe(c, maxBytes, s)
    ensures Step(c, maxBytes, s, event).buffer.acked == if Acknowledges(s, event) then event.sequence else s.buffer.acked
  {
    SafeIsOrdered(c, maxBytes, s);
    hide Log, Persisted, LogsAreHistory, Handle, Repaired, Pushed, Acknowledged;
    if event.Output? {
      PushExact(c, s.buffer, maxBytes, event.entry);
    } else if event.TakeAck? && event.sequence in s.acks {
      NoAckIsRejected(c, maxBytes, s, event.sequence);
    }
  }

  /** Once stuck, the agent keeps no further record of the task, whatever happens. */
  lemma {:induction false} StuckForever(c: Codec, maxBytes: nat, s: State, events: seq<Event>)
    requires Sound(c) && Safe(c, maxBytes, s) && Stuck(s)
    ensures s.buffer.compacted <= s.buffer.acked <= |s.buffer.history|
    ensures Run(c, maxBytes, s, events).buffer.history == s.buffer.history && Stuck(Run(c, maxBytes, s, events))
    decreases |events|
  {
    SafeIsOrdered(c, maxBytes, s);
    hide Safe, Step, Sound, Stuck;
    if events != [] {
      StepKeepsSafe(c, maxBytes, s, events[0]);
      StuckExactly(c, maxBytes, s, events[0]);
      StuckKeepsHistory(c, maxBytes, s, events[0]);
      StuckForever(c, maxBytes, Step(c, maxBytes, s, events[0]), events[1..]);
    }
  }

  lemma StuckKeepsHistory(c: Codec, maxBytes: nat, s: State, event: Event)
    requires Safe(c, maxBytes, s) && Stuck(s)
    ensures Step(c, maxBytes, s, event).buffer.history == s.buffer.history
  {
    StepKeepsWhatFits(c, maxBytes, s, event);
    hide Step, Safe;
    assert s.buffer.history + [] == s.buffer.history;
  }

  /** After a replay without loss the next record that fits into an empty buffer is stored, unless the buffer was stuck
      before. */
  lemma CaughtUpHasRoom(c: Codec, maxBytes: nat, s: State, mask: Entry -> string, e: Entry)
    requires Sound(c) && Safe(c, maxBytes, s) && RestFits(c, s, mask)
    requires e.sequence == |s.buffer.history| + 1
    ensures var b := s.buffer;
            var caughtUp := Run(c, maxBytes, s, [Replay] + Arrivals(b, mask, |b.history| - b.acked) + [TakeAck(|b.history|)]);
            Step(c, maxBytes, caughtUp, Output(e)).buffer.history
            == b.history + if |c.enc(e)| + 1 <= maxBytes && !Stuck(s) then [e] else []
  {
    hide *;
    var b := s.buffer;
    SafeIsOrdered(c, maxBytes, s);
    ReplayCatchesUp(c, maxBytes, s, mask);
    var events := [Replay] + Arrivals(b, mask, |b.history| - b.acked) + [TakeAck(|b.history|)];
    RunKeepsSafe(c, maxBytes, s, events);
    var t := Run(c, maxBytes, s, events);
    StepKeepsWhatFits(c, maxBytes, t, Output(e));
    NothingRetained(c, maxBytes, t);
    StuckIs(s);
    NextIs(t, e);
    RoomIs(c, maxBytes, t, Output(e));
  }

  lemma NextIs(s: State, e: Entry)
    ensures Next(s, Output(e)) <==> e.sequence == |s.buffer.history| + 1
  {
  }
}
