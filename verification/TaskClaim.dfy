/** Claiming the next task of an agent: first in, first out, past the tasks that can no longer be dispatched. */
module TaskClaim {
  import opened Options
  import opened TaskStatus
  import opened TaskRows

  const MAX_CLAIM_VALIDATION_SKIPS := 32

  /** The facts a claim reads beside the rows: which tasks fail validation (project, template, form), which fail to
      encode as a message, the agent's capability, and the lease it would issue. */
  datatype ClaimContext = ClaimContext(
    invalid: set<TaskId>, unencodable: set<TaskId>, capable: bool, token: Token, expiresAt: Time, now: Time)

  datatype ClaimResult =
    | Assigned(id: TaskId)
    /** Too many tasks were skipped; the agent is told that more are available. */
    | Notify
    /** Nothing to do, or the next task waits for a more capable agent. */
    | Nothing
    | Refused(error: ApiError)

  datatype ClaimTx = ClaimTx(db: Db, result: ClaimResult, failed: seq<TaskId>)

  predicate Candidate(db: Db, agentId: AgentId, requested: Option<TaskId>, id: TaskId) {
    id in db.tasks && db.tasks[id].agentId == agentId && db.tasks[id].status == QUEUED
    && (requested.Some? ==> id == requested.value)
  }

  /** The order of the queue: creation time, then id. */
  predicate Before(db: Db, a: TaskId, b: TaskId)
    requires a in db.tasks && b in db.tasks
  {
    db.tasks[a].createdAt < db.tasks[b].createdAt || (db.tasks[a].createdAt == db.tasks[b].createdAt && a < b)
  }

  predicate Dispatchable(t: Task, id: TaskId, x: ClaimContext) {
    id !in x.invalid && id !in x.unencodable && (t.interactive ==> x.capable)
  }

  /** A task the claim fails: it is invalid, or the agent could run it but its message cannot be encoded. */
  predicate Failing(t: Task, id: TaskId, x: ClaimContext) {
    id in x.invalid || (id in x.unencodable && (t.interactive ==> x.capable))
  }

  /** A failed dispatch passes through DISPATCHED; it never held a lease. */
  function FailedDispatch(t: Task, now: Time): Task {
    Unleased(Moved(Moved(t, DISPATCHED, now), FAILED, now))
  }

  function Dispatched(t: Task, x: ClaimContext): Task {
    Moved(t, DISPATCHED, x.now).(
      leaseHash := Some(x.token), leaseExpiresAt := Some(x.expiresAt),
      logLeaseHash := Some(x.token), logLeaseExpiresAt := Some(x.expiresAt + LOG_LEASE_WINDOW_MS))
  }

  ghost predicate First(db: Db, agentId: AgentId, requested: Option<TaskId>, id: TaskId) {
    Candidate(db, agentId, requested, id)
    && forall other :: Candidate(db, agentId, requested, other) && other != id ==> Before(db, id, other)
  }

  /** The outcome of the skip loop with `attempts` left, as a relation: `first` picks the next candidate. */
  ghost function ClaimLoop(db: Db, agentId: AgentId, requested: Option<TaskId>, x: ClaimContext, attempts: nat): ClaimTx
    requires agentId in db.agents
    decreases attempts
  {
    if attempts == 0 then ClaimTx(db, Notify, [])
    else if !exists id :: First(db, agentId, requested, id) then ClaimTx(db, Nothing, [])
    else
      var id :| First(db, agentId, requested, id);
      var t := db.tasks[id];
      if Failing(t, id, x) then
        var rest := ClaimLoop(Put(db, id, FailedDispatch(t, x.now)), agentId, requested, x, attempts - 1);
        rest.(failed := [id] + rest.failed)
      else if t.interactive && !x.capable then ClaimTx(Put(db, id, Moved(t, WAITING_AGENT, x.now)), Nothing, [])
      else ClaimTx(Point(Put(db, id, Dispatched(t, x)), agentId, Some(id)), Assigned(id), [])
  }

  ghost function Claim(db: Db, agentId: AgentId, requested: Option<WireId>, x: ClaimContext, ready: bool): ClaimTx {
    if !ready then ClaimTx(db, Refused(AGENT_OFFLINE), [])
    else if requested.Some? && requested.value.Malformed? then ClaimTx(db, Nothing, [])
    else if agentId !in db.agents then ClaimTx(db, Refused(RESOURCE_NOT_FOUND), [])
    else if !db.agents[agentId].enabled then ClaimTx(db, Refused(AGENT_DISABLED), [])
    else if db.agents[agentId].status != ONLINE then ClaimTx(db, Refused(AGENT_OFFLINE), [])
    else if db.agents[agentId].activeTaskId.Some? then ClaimTx(db, Nothing, [])
    else
      var id := if requested.Some? then Some(requested.value.id) else None;
      ClaimLoop(db, agentId, id, x, MAX_CLAIM_VALIDATION_SKIPS)
  }

  // --- First in, first out ---

  /** The candidates that are not in `failed`, up to and including none of them before `id`. */
  ghost predicate FirstBut(db: Db, agentId: AgentId, requested: Option<TaskId>, failed: seq<TaskId>, id: TaskId) {
    Candidate(db, agentId, requested, id) && id !in failed
    && forall other :: Candidate(db, agentId, requested, other) && other != id && other !in failed ==> Before(db, id, other)
  }

  /** Each failed task was the first candidate after the ones failed before it. */
  ghost predicate FailedInOrder(db: Db, agentId: AgentId, requested: Option<TaskId>, failed: seq<TaskId>) {
    forall i :: 0 <= i < |failed| ==> FirstBut(db, agentId, requested, failed[..i], failed[i])
  }

  /** Each failed task could not be dispatched, and its row says so; every row not failed and not `other` is
      as before. */
  ghost predicate Rows(before: Db, after: Db, x: ClaimContext, failed: seq<TaskId>, other: Option<TaskId>) {
    && after.tasks.Keys == before.tasks.Keys
    && (forall id :: id in failed ==>
          id in before.tasks && after.tasks[id] == FailedDispatch(before.tasks[id], x.now) && Failing(before.tasks[id], id, x))
    && (forall id :: id in before.tasks && id !in failed && other != Some(id) ==> after.tasks[id] == before.tasks[id])
  }

  /** The outcome of a claim that passed the entry checks. */
  ghost predicate Fifo(db: Db, agentId: AgentId, requested: Option<TaskId>, x: ClaimContext, attempts: nat, r: ClaimTx, other: Option<TaskId>)
    requires agentId in db.agents
  {
    && FailedInOrder(db, agentId, requested, r.failed)
    && Rows(db, r.db, x, r.failed, other)
    && (if r.result == Notify then |r.failed| == attempts && other.None? else |r.failed| < attempts)
    && (r.result == Nothing && other.None? ==> forall id :: Candidate(db, agentId, requested, id) ==> id in r.failed)
    && (other.Some? ==> other.value in db.tasks && FirstBut(db, agentId, requested, r.failed, other.value))
    && match r.result
       case Assigned(id) =>
         && other == Some(id) && Dispatchable(db.tasks[id], id, x)
         && r.db == Point(r.db.(agents := db.agents), agentId, Some(id))
         && id in r.db.tasks && r.db.tasks[id] == Dispatched(db.tasks[id], x)
       case Nothing =>
         && r.db.agents == db.agents
         && (other.Some? ==> db.tasks[other.value].interactive && !x.capable && other.value !in x.invalid
                             && other.value in r.db.tasks && r.db.tasks[other.value] == Moved(db.tasks[other.value], WAITING_AGENT, x.now))
       case Notify => r.db.agents == db.agents
       case Refused(_) => false
  }

  lemma FailedIsNoCandidate(db: Db, agentId: AgentId, requested: Option<TaskId>, id: TaskId, now: Time, other: TaskId)
    requires Candidate(db, agentId, requested, id)
    ensures var next := Put(db, id, FailedDispatch(db.tasks[id], now));
            && next.agents == db.agents
            && (Candidate(next, agentId, requested, other) <==> Candidate(db, agentId, requested, other) && other != id)
            && (other in db.tasks ==> next.tasks[other].createdAt == db.tasks[other].createdAt)
  {
  }

  /** A task that comes first once `id` failed comes first after `id`. */
  lemma FirstAfterFailure(db: Db, agentId: AgentId, requested: Option<TaskId>, id: TaskId, now: Time, failed: seq<TaskId>, next: TaskId)
    requires Candidate(db, agentId, requested, id)
    requires FirstBut(Put(db, id, FailedDispatch(db.tasks[id], now)), agentId, requested, failed, next)
    ensures FirstBut(db, agentId, requested, [id] + failed, next)
  {
  }

  lemma FailedInOrderStep(db: Db, agentId: AgentId, requested: Option<TaskId>, id: TaskId, now: Time, failed: seq<TaskId>)
    requires First(db, agentId, requested, id)
    requires FailedInOrder(Put(db, id, FailedDispatch(db.tasks[id], now)), agentId, requested, failed)
    ensures FailedInOrder(db, agentId, requested, [id] + failed)
  {
    var all := [id] + failed;
    forall i | 0 <= i < |all| ensures FirstBut(db, agentId, requested, all[..i], all[i]) {
      if i > 0 {
        assert all[..i] == [id] + failed[..i - 1];
        FirstAfterFailure(db, agentId, requested, id, now, failed[..i - 1], failed[i - 1]);
      }
    }
  }

  lemma RowsStep(db: Db, after: Db, agentId: AgentId, requested: Option<TaskId>, id: TaskId, x: ClaimContext, failed: seq<TaskId>, other: Option<TaskId>)
    requires id in db.tasks && Failing(db.tasks[id], id, x)
    requires Rows(Put(db, id, FailedDispatch(db.tasks[id], x.now)), after, x, failed, other)
    requires id !in failed && other != Some(id)
    ensures Rows(db, after, x, [id] + failed, other)
  {
  }

  lemma FailedAreCandidates(db: Db, agentId: AgentId, requested: Option<TaskId>, failed: seq<TaskId>, id: TaskId)
    requires FailedInOrder(db, agentId, requested, failed) && id in failed
    ensures Candidate(db, agentId, requested, id)
  {
  }

  lemma FifoStep(db: Db, agentId: AgentId, requested: Option<TaskId>, id: TaskId, x: ClaimContext, attempts: nat, rest: ClaimTx, other: Option<TaskId>)
    requires agentId in db.agents && First(db, agentId, requested, id) && Failing(db.tasks[id], id, x)
    requires Fifo(Put(db, id, FailedDispatch(db.tasks[id], x.now)), agentId, requested, x, attempts, rest, other)
    ensures Fifo(db, agentId, requested, x, attempts + 1, rest.(failed := [id] + rest.failed), other)
  {
    var next := Put(db, id, FailedDispatch(db.tasks[id], x.now));
    forall i | i in rest.failed ensures i != id {
      FailedAreCandidates(next, agentId, requested, rest.failed, i);
      FailedIsNoCandidate(db, agentId, requested, id, x.now, i);
    }
    FailedInOrderStep(db, agentId, requested, id, x.now, rest.failed);
    if other.Some? {
      FirstAfterFailure(db, agentId, requested, id, x.now, rest.failed, other.value);
    }
    RowsStep(db, rest.db, agentId, requested, id, x, rest.failed, other);
    forall i | Candidate(db, agentId, requested, i) && i != id ensures Candidate(next, agentId, requested, i) {
      FailedIsNoCandidate(db, agentId, requested, id, x.now, i);
    }
    hide FailedInOrder, Rows, FirstBut, FailedDispatch, Dispatched, Moved;
  }

  /** One turn of the loop, when there is a first candidate. */
  lemma ClaimTurn(db: Db, agentId: AgentId, requested: Option<TaskId>, x: ClaimContext, attempts: nat, id: TaskId)
    requires agentId in db.agents && attempts > 0 && First(db, agentId, requested, id)
    ensures var t := db.tasks[id];
            ClaimLoop(db, agentId, requested, x, attempts) ==
              if Failing(t, id, x) then
                var rest := ClaimLoop(Put(db, id, FailedDispatch(t, x.now)), agentId, requested, x, attempts - 1);
                rest.(failed := [id] + rest.failed)
              else if t.interactive && !x.capable then ClaimTx(Put(db, id, Moved(t, WAITING_AGENT, x.now)), Nothing, [])
              else ClaimTx(Point(Put(db, id, Dispatched(t, x)), agentId, Some(id)), Assigned(id), [])
  {
  }

  /** Of the ids in `ids` that are candidates, one comes first. */
  lemma {:induction false} FirstOf(db: Db, agentId: AgentId, requested: Option<TaskId>, ids: set<TaskId>, one: TaskId) returns (first: TaskId)
    requires one in ids && Candidate(db, agentId, requested, one)
    ensures first in ids && Candidate(db, agentId, requested, first)
    ensures forall other :: other in ids && Candidate(db, agentId, requested, other) && other != first ==> Before(db, first, other)
    decreases |ids|
  {
    if exists other :: other in ids - {one} && Candidate(db, agentId, requested, other) {
      var other :| other in ids - {one} && Candidate(db, agentId, requested, other);
      first := FirstOf(db, agentId, requested, ids - {one}, other);
      if Before(db, one, first) {
        first := one;
      }
    } else {
      first := one;
    }
  }

  lemma FirstExists(db: Db, agentId: AgentId, requested: Option<TaskId>, one: TaskId)
    requires Candidate(db, agentId, requested, one)
    ensures exists id :: First(db, agentId, requested, id)
  {
    var first := FirstOf(db, agentId, requested, db.tasks.Keys, one);
    assert First(db, agentId, requested, first);
  }

  /** A claim serves the queue in order: the failed tasks are the first ones and none can be dispatched, the assigned
      or waiting one is the next, and nothing else changes. */
  lemma {:induction false} ClaimLoopIsFifo(db: Db, agentId: AgentId, requested: Option<TaskId>, x: ClaimContext, attempts: nat) returns (other: Option<TaskId>)
    requires agentId in db.agents
    ensures Fifo(db, agentId, requested, x, attempts, ClaimLoop(db, agentId, requested, x, attempts), other)
    decreases attempts
  {
    hide *;
    other := None;
    if attempts == 0 || !exists id :: First(db, agentId, requested, id) {
      NoTurnIsFifo(db, agentId, requested, x, attempts);
    } else {
      var id :| First(db, agentId, requested, id);
      ClaimTurn(db, agentId, requested, x, attempts, id);
      FirstIsKnown(db, agentId, requested, id);
      var t := db.tasks[id];
      if Failing(t, id, x) {
        var next := Put(db, id, FailedDispatch(t, x.now));
        PutKeepsAgents(db, id, FailedDispatch(t, x.now));
        other := ClaimLoopIsFifo(next, agentId, requested, x, attempts - 1);
        FifoStep(db, agentId, requested, id, x, attempts - 1, ClaimLoop(next, agentId, requested, x, attempts - 1), other);
      } else {
        other := Some(id);
        NextIsFifo(db, agentId, requested, id, x, attempts);
      }
    }
  }

  lemma FirstIsKnown(db: Db, agentId: AgentId, requested: Option<TaskId>, id: TaskId)
    requires First(db, agentId, requested, id)
    ensures id in db.tasks
  {
  }

  lemma NoTurnIsFifo(db: Db, agentId: AgentId, requested: Option<TaskId>, x: ClaimContext, attempts: nat)
    requires agentId in db.agents
    requires attempts == 0 || !exists id :: First(db, agentId, requested, id)
    ensures Fifo(db, agentId, requested, x, attempts, ClaimLoop(db, agentId, requested, x, attempts), None)
  {
    hide First, Candidate;
    if attempts > 0 {
      forall id ensures !Candidate(db, agentId, requested, id) {
        if Candidate(db, agentId, requested, id) {
          FirstExists(db, agentId, requested, id);
        }
      }
    }
  }

  lemma PutKeepsAgents(db: Db, id: TaskId, row: Task)
    ensures Put(db, id, row).agents == db.agents
  {
  }

  lemma NextIsFifo(db: Db, agentId: AgentId, requested: Option<TaskId>, id: TaskId, x: ClaimContext, attempts: nat)
    requires agentId in db.agents && attempts > 0 && First(db, agentId, requested, id)
    requires !Failing(db.tasks[id], id, x)
    ensures var t := db.tasks[id];
            Fifo(db, agentId, requested, x, attempts,
                 if t.interactive && !x.capable then ClaimTx(Put(db, id, Moved(t, WAITING_AGENT, x.now)), Nothing, [])
                 else ClaimTx(Point(Put(db, id, Dispatched(t, x)), agentId, Some(id)), Assigned(id), []), Some(id))
  {
  }

  /** An assigned task comes first among those that were not failed, everything ahead of it was failed, and no other
      row changed; a notification means that the attempts are used up. */
  ghost predicate FirstServed(db: Db, agentId: AgentId, wanted: Option<TaskId>, x: ClaimContext, r: ClaimTx) {
    && (r.result.Notify? ==> |r.failed| == MAX_CLAIM_VALIDATION_SKIPS)
    && (forall id :: id in r.failed ==>
          Candidate(db, agentId, wanted, id) && id in r.db.tasks && r.db.tasks[id] == FailedDispatch(db.tasks[id], x.now)
          && Failing(db.tasks[id], id, x))
    && (r.result.Assigned? ==>
          var t := r.result.id;
          && Candidate(db, agentId, wanted, t) && t !in r.failed && Dispatchable(db.tasks[t], t, x)
          && |r.failed| < MAX_CLAIM_VALIDATION_SKIPS
          && (forall id :: Candidate(db, agentId, wanted, id) && Before(db, id, t) ==> id in r.failed)
          && (forall id :: id in r.failed ==> Before(db, id, t))
          && t in r.db.tasks && r.db.tasks[t] == Dispatched(db.tasks[t], x)
          && r.db.tasks.Keys == db.tasks.Keys
          && (forall id :: id in db.tasks && id != t && id !in r.failed ==> r.db.tasks[id] == db.tasks[id])
          && agentId in db.agents && r.db.agents == db.agents[agentId := db.agents[agentId].(activeTaskId := Some(t))])
  }

  lemma FifoServesFirst(db: Db, agentId: AgentId, wanted: Option<TaskId>, x: ClaimContext, r: ClaimTx, other: Option<TaskId>)
    requires agentId in db.agents && Fifo(db, agentId, wanted, x, MAX_CLAIM_VALIDATION_SKIPS, r, other)
    ensures FirstServed(db, agentId, wanted, x, r)
  {
    hide FailedDispatch, Dispatched, Moved;
    forall id | id in r.failed ensures Candidate(db, agentId, wanted, id) {
      FailedAreCandidates(db, agentId, wanted, r.failed, id);
    }
    if r.result.Assigned? {
      forall id | id in r.failed ensures Before(db, id, r.result.id) {
        FailedBefore(db, agentId, wanted, r.failed, id, r.result.id);
      }
    }
  }

  /** If a claim assigns a task, every queued task before it was failed by this claim, at most 31 were, and the row
      of every other task is as it was; if it only notifies, exactly 32 were failed. */
  lemma ClaimIsFifo(db: Db, agentId: AgentId, requested: Option<WireId>, x: ClaimContext, ready: bool)
    ensures var wanted := if requested.Some? && requested.value.Uuid? then Some(requested.value.id) else None;
            FirstServed(db, agentId, wanted, x, Claim(db, agentId, requested, x, ready))
  {
    var wanted := if requested.Some? && requested.value.Uuid? then Some(requested.value.id) else None;
    hide ClaimLoop, Fifo, FailedDispatch, Dispatched, Candidate;
    if agentId in db.agents {
      var other := ClaimLoopIsFifo(db, agentId, wanted, x, MAX_CLAIM_VALIDATION_SKIPS);
      FifoServesFirst(db, agentId, wanted, x, ClaimLoop(db, agentId, wanted, x, MAX_CLAIM_VALIDATION_SKIPS), other);
    }
  }

  lemma FailedBefore(db: Db, agentId: AgentId, requested: Option<TaskId>, failed: seq<TaskId>, id: TaskId, next: TaskId)
    requires FailedInOrder(db, agentId, requested, failed) && id in failed && FirstBut(db, agentId, requested, failed, next)
    ensures id in db.tasks && next in db.tasks && Before(db, id, next)
  {
  }
}
