/** What a claim answers, decided by the queue alone. */
module ClaimAnswers {
  import opened Options
  import opened TaskStatus
  import opened TaskRows
  import opened TaskClaim

  /** The queued tasks of the agent, or the requested one of them, that come before t. */
  function Ahead(db: Db, agentId: AgentId, wanted: Option<TaskId>, t: TaskId): set<TaskId>
    requires t in db.tasks
  {
    set id | id in db.tasks && db.tasks[id].agentId == agentId && db.tasks[id].status == QUEUED
             && (wanted.Some? ==> id == wanted.value)
             && (db.tasks[id].createdAt < db.tasks[t].createdAt || (db.tasks[id].createdAt == db.tasks[t].createdAt && id < t))
  }

  /** The task fails at its dispatch. */
  predicate Hopeless(db: Db, id: TaskId, x: ClaimContext)
    requires id in db.tasks
  {
    id in x.invalid || (id in x.unencodable && !(db.tasks[id].interactive && !x.capable))
  }

  ghost predicate AllHopeless(db: Db, ids: set<TaskId>, x: ClaimContext) {
    forall id :: id in ids ==> id in db.tasks && Hopeless(db, id, x)
  }

  /** t is queued for this claim, and the claim gets to it: fewer than 32 tasks are ahead, and all of them fail. */
  ghost predicate InReach(db: Db, agentId: AgentId, wanted: Option<TaskId>, x: ClaimContext, t: TaskId) {
    && t in db.tasks && db.tasks[t].agentId == agentId && db.tasks[t].status == QUEUED && (wanted.Some? ==> t == wanted.value)
    && AllHopeless(db, Ahead(db, agentId, wanted, t), x) && |Ahead(db, agentId, wanted, t)| < 32
  }

  /** The claim gets to it and does not fail it. */
  ghost predicate Reached(db: Db, agentId: AgentId, wanted: Option<TaskId>, x: ClaimContext, t: TaskId) {
    InReach(db, agentId, wanted, x, t) && !Hopeless(db, t, x)
  }

  /** The agent may claim: connected, enabled, online and without a task. */
  predicate MayClaim(db: Db, agentId: AgentId, ready: bool) {
    ready && agentId in db.agents && db.agents[agentId].enabled && db.agents[agentId].status == ONLINE
    && db.agents[agentId].activeTaskId.None?
  }

  // --- From the loop to the queue ---

  lemma FailedAreAhead(db: Db, agentId: AgentId, wanted: Option<TaskId>, failed: seq<TaskId>, t: TaskId)
    requires FailedInOrder(db, agentId, wanted, failed) && Candidate(db, agentId, wanted, t) && t !in failed
    ensures forall id :: id in failed ==> id in Ahead(db, agentId, wanted, t)
    ensures |failed| <= |Ahead(db, agentId, wanted, t)|
  {
    forall i | 0 <= i < |failed| ensures failed[i] in Ahead(db, agentId, wanted, t) {
      assert FirstBut(db, agentId, wanted, failed[..i], failed[i]);
      assert t !in failed[..i];
    }
    forall i, j | 0 <= i < j < |failed| ensures failed[i] != failed[j] {
      assert FirstBut(db, agentId, wanted, failed[..j], failed[j]);
      assert failed[..j][i] == failed[i];
    }
    Distinct(failed, Ahead(db, agentId, wanted, t));
  }

  lemma {:induction false} Distinct(ids: seq<TaskId>, s: set<TaskId>)
    requires (forall i :: 0 <= i < |ids| ==> ids[i] in s) && forall i, j :: 0 <= i < j < |ids| ==> ids[i] != ids[j]
    ensures |ids| <= |s|
  {
    if ids != [] {
      var last := ids[|ids| - 1];
      Distinct(ids[..|ids| - 1], s - {last});
    }
  }

  /** Where the loop stops behind its failed tasks, everything ahead has failed. */
  lemma AheadAreFailed(db: Db, agentId: AgentId, wanted: Option<TaskId>, failed: seq<TaskId>, t: TaskId)
    requires FailedInOrder(db, agentId, wanted, failed) && FirstBut(db, agentId, wanted, failed, t)
    ensures forall id :: id in Ahead(db, agentId, wanted, t) ==> id in failed
    ensures |Ahead(db, agentId, wanted, t)| == |failed|
  {
    FailedAreAhead(db, agentId, wanted, failed, t);
    var ahead := Ahead(db, agentId, wanted, t);
    forall id | id in ahead ensures id in failed {
      assert Candidate(db, agentId, wanted, id);
      assert !Before(db, t, id);
    }
    Covered(failed, ahead);
  }

  lemma {:induction false} Covered(ids: seq<TaskId>, s: set<TaskId>)
    requires forall id :: id in s ==> id in ids
    ensures |s| <= |ids|
  {
    if ids != [] {
      var rest, last := ids[..|ids| - 1], ids[|ids| - 1];
      assert ids == rest + [last];
      Covered(rest, s - {last});
    } else {
      assert s == {};
    }
  }

  /** All queued tasks the claim may take. */
  function Queue(db: Db, agentId: AgentId, wanted: Option<TaskId>): set<TaskId> {
    set id | id in db.tasks && db.tasks[id].agentId == agentId && db.tasks[id].status == QUEUED && (wanted.Some? ==> id == wanted.value)
  }

  /** Only one task is ever reached: what is ahead of the other one would have to fail. */
  lemma ReachedOnce(db: Db, agentId: AgentId, wanted: Option<TaskId>, x: ClaimContext, s: TaskId, t: TaskId)
    requires Reached(db, agentId, wanted, x, s) && Reached(db, agentId, wanted, x, t)
    ensures s == t
  {
    AheadIs(db, agentId, wanted, s, t);
    AheadIs(db, agentId, wanted, t, s);
    hide Ahead;
  }

  lemma AheadIs(db: Db, agentId: AgentId, wanted: Option<TaskId>, s: TaskId, t: TaskId)
    requires Candidate(db, agentId, wanted, s) && Candidate(db, agentId, wanted, t)
    ensures s in Ahead(db, agentId, wanted, t) <==> Before(db, s, t)
  {
  }

  lemma FailedAreHopeless(db: Db, after: Db, x: ClaimContext, failed: seq<TaskId>, other: Option<TaskId>)
    requires Rows(db, after, x, failed, other)
    ensures forall id :: id in failed ==> id in db.tasks && Hopeless(db, id, x)
  {
    hide FailedDispatch;
  }

  /** The task at which the loop stopped is the one that is reached. */
  lemma StopsAtReached(db: Db, agentId: AgentId, wanted: Option<TaskId>, x: ClaimContext, r: ClaimTx, o: TaskId)
    requires agentId in db.agents && Fifo(db, agentId, wanted, x, MAX_CLAIM_VALIDATION_SKIPS, r, Some(o))
    ensures Reached(db, agentId, wanted, x, o)
    ensures r.result == if db.tasks[o].interactive && !x.capable then Nothing else Assigned(o)
  {
    AheadAreFailed(db, agentId, wanted, r.failed, o);
    FailedAreHopeless(db, r.db, x, r.failed, Some(o));
    hide FailedDispatch, Dispatched, Moved, FailedInOrder, Rows, Ahead;
  }

  /** The loop stopped nowhere: everything failed, or 32 tasks did. */
  lemma StopsNowhere(db: Db, agentId: AgentId, wanted: Option<TaskId>, x: ClaimContext, r: ClaimTx, t: TaskId)
    requires agentId in db.agents && Fifo(db, agentId, wanted, x, MAX_CLAIM_VALIDATION_SKIPS, r, None)
    ensures !Reached(db, agentId, wanted, x, t)
    ensures r.result == Nothing || r.result == Notify
    ensures r.result == Nothing <==> AllHopeless(db, Queue(db, agentId, wanted), x) && |Queue(db, agentId, wanted)| < 32
  {
    FailedAreHopeless(db, r.db, x, r.failed, None);
    hide FailedDispatch, Dispatched, Moved, Rows;
    if Candidate(db, agentId, wanted, t) && t !in r.failed && r.result == Notify {
      FailedAreAhead(db, agentId, wanted, r.failed, t);
    }
    QueueCount(db, agentId, wanted, r.failed);
  }

  lemma QueueCount(db: Db, agentId: AgentId, wanted: Option<TaskId>, failed: seq<TaskId>)
    requires FailedInOrder(db, agentId, wanted, failed)
    ensures |failed| <= |Queue(db, agentId, wanted)|
    ensures (forall id :: Candidate(db, agentId, wanted, id) ==> id in failed) ==> |Queue(db, agentId, wanted)| <= |failed|
  {
    forall i | 0 <= i < |failed| ensures failed[i] in Queue(db, agentId, wanted) {
      assert FirstBut(db, agentId, wanted, failed[..i], failed[i]);
    }
    forall i, j | 0 <= i < j < |failed| ensures failed[i] != failed[j] {
      assert FirstBut(db, agentId, wanted, failed[..j], failed[j]);
      assert failed[..j][i] == failed[i];
    }
    Distinct(failed, Queue(db, agentId, wanted));
    if forall id :: Candidate(db, agentId, wanted, id) ==> id in failed {
      forall id | id in Queue(db, agentId, wanted) ensures id in failed {
        assert Candidate(db, agentId, wanted, id);
      }
      Covered(failed, Queue(db, agentId, wanted));
    }
  }

  /** What a claim answers. Of an agent that may claim it is never refused: it assigns a task exactly if that task is
      reached and the agent can run it, and answers nothing exactly if the task reached is beyond the agent, or if
      fewer than 32 tasks are queued and all of them fail; else it only notifies. */
  lemma ClaimIsDecided(db: Db, agentId: AgentId, requested: Option<WireId>, x: ClaimContext, ready: bool, t: TaskId)
    requires requested.Some? ==> requested.value.Uuid?
    ensures var answer := Claim(db, agentId, requested, x, ready).result;
            var wanted := if requested.Some? then Some(requested.value.id) else None;
            if MayClaim(db, agentId, ready) then
              && !answer.Refused?
              && (answer == Assigned(t) <==> Reached(db, agentId, wanted, x, t) && (db.tasks[t].interactive ==> x.capable))
              && (Reached(db, agentId, wanted, x, t) && db.tasks[t].interactive && !x.capable ==> answer == Nothing)
              && (answer == Nothing ==>
                    (exists o :: Reached(db, agentId, wanted, x, o) && db.tasks[o].interactive && !x.capable)
                    || (AllHopeless(db, Queue(db, agentId, wanted), x) && |Queue(db, agentId, wanted)| < 32))
              && (AllHopeless(db, Queue(db, agentId, wanted), x) && |Queue(db, agentId, wanted)| < 32 ==> answer == Nothing)
            else (answer == Nothing || answer.Refused?) && Claim(db, agentId, requested, x, ready).db == db
  {
    if MayClaim(db, agentId, ready) {
      var wanted := if requested.Some? then Some(requested.value.id) else None;
      hide ClaimLoop, Fifo, Reached, AllHopeless, Queue;
      var r := ClaimLoop(db, agentId, wanted, x, MAX_CLAIM_VALIDATION_SKIPS);
      var other := ClaimLoopIsFifo(db, agentId, wanted, x, MAX_CLAIM_VALIDATION_SKIPS);
      if other.Some? {
        StopsAtReached(db, agentId, wanted, x, r, other.value);
        ReachedIsQueued(db, agentId, wanted, x, other.value);
        if Reached(db, agentId, wanted, x, t) {
          ReachedOnce(db, agentId, wanted, x, t, other.value);
        }
      } else {
        StopsNowhere(db, agentId, wanted, x, r, t);
      }
    }
  }

  lemma ReachedIsQueued(db: Db, agentId: AgentId, wanted: Option<TaskId>, x: ClaimContext, t: TaskId)
    requires Reached(db, agentId, wanted, x, t)
    ensures t in Queue(db, agentId, wanted) && t in db.tasks && !AllHopeless(db, Queue(db, agentId, wanted), x)
  {
  }

  // --- What becomes of any row ---

  lemma FifoFails(db: Db, agentId: AgentId, wanted: Option<TaskId>, x: ClaimContext, r: ClaimTx, other: Option<TaskId>)
    requires agentId in db.agents && Fifo(db, agentId, wanted, x, MAX_CLAIM_VALIDATION_SKIPS, r, other)
    ensures FailedInOrder(db, agentId, wanted, r.failed) && Rows(db, r.db, x, r.failed, other) && |r.failed| <= 32
  {
    hide FailedInOrder, Rows, FirstBut, Dispatched;
  }

  lemma FirstButReaches(db: Db, agentId: AgentId, wanted: Option<TaskId>, x: ClaimContext, failed: seq<TaskId>, t: TaskId)
    requires FailedInOrder(db, agentId, wanted, failed) && FirstBut(db, agentId, wanted, failed, t) && |failed| < 32
    requires forall id :: id in failed ==> id in db.tasks && Hopeless(db, id, x)
    ensures InReach(db, agentId, wanted, x, t)
  {
    AheadAreFailed(db, agentId, wanted, failed, t);
    hide FailedInOrder, Ahead, Hopeless;
  }

  lemma FailedIsInReach(db: Db, agentId: AgentId, wanted: Option<TaskId>, x: ClaimContext, r: ClaimTx, other: Option<TaskId>, t: TaskId)
    requires agentId in db.agents && Fifo(db, agentId, wanted, x, MAX_CLAIM_VALIDATION_SKIPS, r, other) && t in r.failed
    ensures InReach(db, agentId, wanted, x, t) && Hopeless(db, t, x)
  {
    hide *;
    var i :| 0 <= i < |r.failed| && r.failed[i] == t;
    FifoFails(db, agentId, wanted, x, r, other);
    FailedAreHopeless(db, r.db, x, r.failed, other);
    PrefixInOrder(db, agentId, wanted, r.failed, i);
    assert forall id :: id in r.failed[..i] ==> id in r.failed;
    FirstButReaches(db, agentId, wanted, x, r.failed[..i], t);
  }

  lemma PrefixInOrder(db: Db, agentId: AgentId, wanted: Option<TaskId>, failed: seq<TaskId>, i: nat)
    requires FailedInOrder(db, agentId, wanted, failed) && i < |failed|
    ensures FailedInOrder(db, agentId, wanted, failed[..i]) && FirstBut(db, agentId, wanted, failed[..i], failed[i])
  {
    forall j | 0 <= j < i ensures FirstBut(db, agentId, wanted, failed[..i][..j], failed[..i][j]) {
      assert failed[..i][..j] == failed[..j];
    }
  }

  lemma HopelessIsFailed(db: Db, agentId: AgentId, wanted: Option<TaskId>, x: ClaimContext, r: ClaimTx, other: Option<TaskId>, t: TaskId)
    requires agentId in db.agents && Fifo(db, agentId, wanted, x, MAX_CLAIM_VALIDATION_SKIPS, r, other)
    requires InReach(db, agentId, wanted, x, t) && Hopeless(db, t, x)
    ensures t in r.failed
  {
    if t !in r.failed {
      FailedAreAhead(db, agentId, wanted, r.failed, t);
      if other.Some? {
        StopsAtReached(db, agentId, wanted, x, r, other.value);
        AheadAreFailed(db, agentId, wanted, r.failed, other.value);
        AheadIs(db, agentId, wanted, other.value, t);
        AheadIs(db, agentId, wanted, t, other.value);
      }
      hide Rows, FailedInOrder, Ahead;
    }
  }

  /** The row of a task after a claim: of those in reach, the hopeless ones have failed, and the other one is dispatched
      under the new lease, or waits for a more capable agent; every other row is as it was. */
  lemma ClaimEffect(db: Db, agentId: AgentId, requested: Option<WireId>, x: ClaimContext, ready: bool, id: TaskId)
    requires id in db.tasks
    ensures var t, after := db.tasks[id], Claim(db, agentId, requested, x, ready).db;
            var inReach := MayClaim(db, agentId, ready) && (requested.Some? ==> requested.value.Uuid?)
                           && InReach(db, agentId, if requested.Some? && requested.value.Uuid? then Some(requested.value.id) else None, x, id);
            && id in after.tasks
            && after.tasks[id] == if !inReach then t
                                  else if Hopeless(db, id, x) then FailedDispatch(t, x.now)
                                  else if t.interactive && !x.capable then Moved(t, WAITING_AGENT, x.now)
                                  else Dispatched(t, x)
  {
    if MayClaim(db, agentId, ready) && (requested.Some? ==> requested.value.Uuid?) {
      var wanted := if requested.Some? then Some(requested.value.id) else None;
      LoopEffect(db, agentId, wanted, x, id);
    }
    hide ClaimLoop, InReach, Hopeless, FailedDispatch, Dispatched, Moved;
  }

  lemma LoopEffect(db: Db, agentId: AgentId, wanted: Option<TaskId>, x: ClaimContext, id: TaskId)
    requires id in db.tasks && agentId in db.agents
    ensures var t, after := db.tasks[id], ClaimLoop(db, agentId, wanted, x, MAX_CLAIM_VALIDATION_SKIPS).db;
            && id in after.tasks
            && after.tasks[id] == if !InReach(db, agentId, wanted, x, id) then t
                                  else if Hopeless(db, id, x) then FailedDispatch(t, x.now)
                                  else if t.interactive && !x.capable then Moved(t, WAITING_AGENT, x.now)
                                  else Dispatched(t, x)
  {
    hide ClaimLoop, InReach, Hopeless, FailedDispatch, Dispatched, Moved, FailedInOrder, AllHopeless, Queue;
    var r := ClaimLoop(db, agentId, wanted, x, MAX_CLAIM_VALIDATION_SKIPS);
    var other := ClaimLoopIsFifo(db, agentId, wanted, x, MAX_CLAIM_VALIDATION_SKIPS);
    if id in r.failed {
      FailedIsInReach(db, agentId, wanted, x, r, other, id);
    } else if InReach(db, agentId, wanted, x, id) && Hopeless(db, id, x) {
      HopelessIsFailed(db, agentId, wanted, x, r, other, id);
    }
    if other.Some? {
      StopsAtReached(db, agentId, wanted, x, r, other.value);
      if Reached(db, agentId, wanted, x, id) {
        ReachedOnce(db, agentId, wanted, x, id, other.value);
      }
    } else {
      StopsNowhere(db, agentId, wanted, x, r, id);
    }
  }
}
