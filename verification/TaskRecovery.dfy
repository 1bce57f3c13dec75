/** What follows a disconnect: recovery restores the phase that was lost, or the slot is released in bounded time. */
module TaskRecovery {
  import opened Options
  import opened TaskStatus
  import opened TaskRows
  import opened TaskClaim
  import opened TaskInvariants
  import opened TaskRuns
  import opened TaskEvolution
  import opened TaskStamps

  // --- Restoring the phase ---

  /** Two rows that differ in nothing but their history and the time of their last update. */
  ghost predicate SameButHistory(a: Task, b: Task) {
    b == a.(history := b.history, updatedAt := b.updatedAt)
  }

  /** An agent that loses its connection in some phase and reports that same phase under its lease before the
      deadline gets RESUME, and the row is what it was. */
  lemma DisconnectThenResume(db: Db, agentId: AgentId, id: TaskId, token: Token, capable: bool, window: nat, lostAt: Time, now: Time)
    requires DbOk(db) && Active(db, agentId, id) && ExecutionPhase(db.tasks[id].status)
    requires db.agents[agentId].enabled && (db.tasks[id].interactive ==> capable)
    requires db.tasks[id].leaseHash == Some(token) && now < db.tasks[id].leaseExpiresAt.value && now < lostAt + window
    ensures var t := db.tasks[id];
            var lost := DisconnectTask(db, agentId, id, window, lostAt);
            var hello := Hello(lost, agentId, Some(CurrentTask(Uuid(id), token, t.status)), capable, now);
            && id in lost.tasks && lost.tasks[id].status == AGENT_LOST && lost.agents == db.agents
            && hello.decision == Some(Decision(id, RESUME(t.status)))
            && id in hello.db.tasks && SameButHistory(t, hello.db.tasks[id])
            && Active(hello.db, agentId, id)
  {
    RowIsOk(db, id);
    var t := db.tasks[id];
    assert t.recoveryStatus.None? && t.agentLostAt.None? && t.recoveryDeadlineAt.None? && t.leaseExpiresAt.Some?;
    hide DbOk, RowOk;
    var lost := DisconnectTask(db, agentId, id, window, lostAt);
    assert lost == Put(db, id, Lost(t, lostAt, window));
    hide DisconnectTask;
    LostResumes(lost, agentId, id, token, t.status, capable, now);
  }

  lemma LostResumes(db: Db, agentId: AgentId, id: TaskId, token: Token, phase: Status, capable: bool, now: Time)
    requires Active(db, agentId, id) && db.agents[agentId].enabled && (db.tasks[id].interactive ==> capable)
    requires db.tasks[id].status == AGENT_LOST && db.tasks[id].recoveryStatus == Some(phase) && ExecutionPhase(phase)
    requires db.tasks[id].leaseHash == Some(token) && db.tasks[id].leaseExpiresAt.Some? && now < db.tasks[id].leaseExpiresAt.value
    requires db.tasks[id].recoveryDeadlineAt.Some? && now < db.tasks[id].recoveryDeadlineAt.value
    ensures var hello := Hello(db, agentId, Some(CurrentTask(Uuid(id), token, phase)), capable, now);
            && hello.decision == Some(Decision(id, RESUME(phase)))
            && id in hello.db.tasks && hello.db.tasks[id] == Recovered(Moved(db.tasks[id], phase, now))
            && Active(hello.db, agentId, id)
  {
  }

  /** The other way round: RESUME is only ever answered in the phase the row held before it was lost, or holds
      still; under the token and before expiry of its lease; never to a task that is being canceled. */
  lemma ResumeOnlyRestores(db: Db, agentId: AgentId, current: Option<CurrentTask>, capable: bool, now: Time)
    requires DbOk(db)
    ensures var hello := Hello(db, agentId, current, capable, now);
            hello.decision.Some? && hello.decision.value.action.RESUME? ==>
              Restores(db, hello.db.tasks, agentId, current, hello.decision.value.taskId, hello.decision.value.action.status, now)
  {
    hide FailOrphan, Resume, DbOk, Restores;
    if current.Some? && current.value.taskId.Uuid? && Resumable(db, agentId, current.value.taskId.id, now) {
      DecisionRestores(db, agentId, current.value.taskId.id, current, capable, now);
    }
    if current.None? && agentId in db.agents && db.agents[agentId].activeTaskId.Some? {
      var id := db.agents[agentId].activeTaskId.value;
      if Resumable(db, agentId, id, now) {
        NothingReported(db, agentId, id, capable, now);
      }
    }
  }

  lemma DecisionRestores(db: Db, agentId: AgentId, id: TaskId, current: Option<CurrentTask>, capable: bool, now: Time)
    requires DbOk(db) && Resumable(db, agentId, id, now) && current.Some? && current.value.taskId == Uuid(id)
    ensures var decided := Resume(db, FailOrphan(db, agentId, id, now), agentId, id, current, capable, now);
            decided.decision.Some? && decided.decision.value.action.RESUME? ==>
              decided.decision.value.taskId == id
              && Restores(db, decided.db.tasks, agentId, current, id, decided.decision.value.action.status, now)
  {
    RowIsOk(db, id);
    hide FailOrphan, DbOk;
  }

  lemma NothingReported(db: Db, agentId: AgentId, id: TaskId, capable: bool, now: Time)
    requires Resumable(db, agentId, id, now)
    ensures Resume(db, FailOrphan(db, agentId, id, now), agentId, id, None, capable, now).decision.None?
  {
  }

  /** The reported task, under its live lease, in the phase it held or holds. */
  ghost predicate Restores(db: Db, after: map<TaskId, Task>, agentId: AgentId, current: Option<CurrentTask>, id: TaskId, phase: Status, now: Time) {
    && current.Some? && current.value.taskId == Uuid(id) && current.value.status == phase && ExecutionPhase(phase)
    && id in db.tasks && db.tasks[id].agentId == agentId
    && LiveToken(db.tasks[id]) == Some(current.value.token)
    && db.tasks[id].leaseExpiresAt.Some? && now < db.tasks[id].leaseExpiresAt.value
    && (db.tasks[id].status == phase || (db.tasks[id].status == AGENT_LOST && db.tasks[id].recoveryStatus == Some(phase)))
    && id in after && after[id].status == phase && LiveToken(after[id]) == Some(current.value.token)
  }

  // --- Bounded release ---

  /** Where a task of an agent that disconnected at `lostAt` may be: waiting, finished, or lost or canceling with
      a deadline that has been set. */
  ghost predicate ParkedRow(t: Task, lostAt: Time, window: nat) {
    || t.status == WAITING_AGENT
    || Terminal(t.status)
    || (t.status == AGENT_LOST && t.recoveryDeadlineAt.Some? && t.recoveryDeadlineAt.value <= lostAt + window)
    || (t.status == CANCELING && t.cancelRequestedAt.Some? && t.cancelRequestedAt.value <= lostAt)
  }

  ghost predicate Settled(t: Task) {
    t.status == WAITING_AGENT || Terminal(t.status)
  }

  /** The agent has no active task, and every task of it waits or is finished. */
  ghost predicate Released(db: Db, agentId: AgentId) {
    && agentId in db.agents && db.agents[agentId].activeTaskId.None?
    && forall id :: id in db.tasks && db.tasks[id].agentId == agentId ==> Settled(db.tasks[id])
  }

  ghost predicate Parked(db: Db, agentId: AgentId, lostAt: Time, window: nat) {
    && agentId in db.agents && db.agents[agentId].status != ONLINE
    && forall id :: id in db.tasks && db.tasks[id].agentId == agentId ==> ParkedRow(db.tasks[id], lostAt, window)
  }

  /** Events that neither reconnect the agent nor request a cancellation of one of its tasks. Without a
      connection the agent is not ready, and its reports cannot arrive. */
  ghost predicate Quiet(db: Db, agentId: AgentId, e: Event) {
    match e
    case HelloEvent(a, _, _, _) => a != agentId
    case CreateEvent(_, a, _, ready, _) => a == agentId ==> !ready
    case EnableEvent(a, _, connected) => a == agentId ==> !connected
    case LivenessEvent(a, online) => a == agentId ==> !online
    case CanceledEvent(a, _, _, ready, _) => a == agentId ==> !ready
    case CancelEvent(taskId, _) => taskId.Uuid? && taskId.id in db.tasks ==> db.tasks[taskId.id].agentId != agentId
    case _ => true
  }

  // --- What a quiet event can do to a parked task: leave it, or fail it ---

  ghost predicate LeftOrFailed(db: Db, next: Db, id: TaskId)
    requires id in db.tasks
  {
    id in next.tasks && (next.tasks[id] == db.tasks[id] || next.tasks[id].status == FAILED)
  }

  ghost predicate Offline(db: Db, agentId: AgentId) {
    agentId in db.agents && db.agents[agentId].status != ONLINE
  }

  lemma ClaimLeaves(db: Db, agentId: AgentId, requested: Option<WireId>, x: ClaimContext, ready: bool, id: TaskId)
    requires id in db.tasks && db.tasks[id].status != QUEUED
    ensures LeftOrFailed(db, Claim(db, agentId, requested, x, ready).db, id)
  {
    hide ClaimLoop;
    if agentId in db.agents {
      var wanted := if requested.Some? && requested.value.Uuid? then Some(requested.value.id) else None;
      ClaimLoopLeaves(db, agentId, wanted, x, MAX_CLAIM_VALIDATION_SKIPS, id);
    }
  }

  lemma {:induction false} ClaimLoopLeaves(db: Db, agentId: AgentId, requested: Option<TaskId>, x: ClaimContext, attempts: nat, id: TaskId)
    requires agentId in db.agents && id in db.tasks && db.tasks[id].status != QUEUED
    ensures var next := ClaimLoop(db, agentId, requested, x, attempts).db;
            id in next.tasks && next.tasks[id] == db.tasks[id]
    decreases attempts
  {
    hide First;
    if attempts > 0 && exists first :: First(db, agentId, requested, first) {
      var first :| First(db, agentId, requested, first);
      hide ClaimLoop;
      ClaimTurn(db, agentId, requested, x, attempts, first);
      CandidateIsKnown(db, agentId, requested, first);
      hide FailedDispatch, Dispatched, Moved;
      ClaimLoopLeaves(Put(db, first, FailedDispatch(db.tasks[first], x.now)), agentId, requested, x, attempts - 1, id);
    }
  }

  lemma ReportsLeave(db: Db, window: nat, e: Event, agentId: AgentId, id: TaskId, lostAt: Time)
    requires Offline(db, agentId) && id in db.tasks && db.tasks[id].agentId == agentId && ParkedRow(db.tasks[id], lostAt, window)
    requires e.AcceptEvent? || e.StatusEvent? || e.FailedEvent? || e.CanceledEvent? || e.CompletedEvent? || e.RejectedEvent?
    requires Quiet(db, agentId, e)
    ensures LeftOrFailed(db, Step(db, window, e), id)
  {
    hide Moved, WithCommit, CommitAgrees, TotalSize, AllUploaded, LogLeaseHeld;
  }

  lemma OthersLeave(db: Db, window: nat, e: Event, agentId: AgentId, id: TaskId, lostAt: Time)
    requires Offline(db, agentId) && id in db.tasks && db.tasks[id].agentId == agentId && ParkedRow(db.tasks[id], lostAt, window)
    requires e.CreateEvent? || e.ReadyEvent? || e.DisconnectEvent? || e.InterruptEvent? || e.CancelEvent? || e.ScanDispatchEvent?
             || e.ScanCancellationEvent? || e.ScanRecoveryEvent? || e.AgentEvent? || e.EnableEvent? || e.LivenessEvent?
    requires Quiet(db, agentId, e)
    ensures LeftOrFailed(db, Step(db, window, e), id)
  {
    hide Queued, BackToWaiting, Lost, CanceledEarly, Canceling, NewTask;
  }

  lemma HelloLeaves(db: Db, other: AgentId, current: Option<CurrentTask>, capable: bool, now: Time, id: TaskId)
    requires id in db.tasks && db.tasks[id].agentId != other
    ensures LeftOrFailed(db, Hello(db, other, current, capable, now).db, id)
  {
    hide Moved, Orphaned, Recovered, Kept;
  }

  lemma QuietLeaves(db: Db, window: nat, e: Event, agentId: AgentId, id: TaskId, lostAt: Time)
    requires Offline(db, agentId) && id in db.tasks && db.tasks[id].agentId == agentId && ParkedRow(db.tasks[id], lostAt, window)
    requires Quiet(db, agentId, e)
    ensures LeftOrFailed(db, Step(db, window, e), id)
  {
    match e {
      case HelloEvent(other, current, capable, now) =>
        hide Hello, LeftOrFailed;
        HelloLeaves(db, other, current, capable, now, id);
      case ClaimEvent(other, requested, x, ready) =>
        hide Claim, LeftOrFailed;
        ClaimLeaves(db, other, requested, x, ready, id);
      case AcceptEvent(_, _, _, _, _) => ReportsLeave(db, window, e, agentId, id, lostAt);
      case StatusEvent(_, _, _, _, _, _, _) => ReportsLeave(db, window, e, agentId, id, lostAt);
      case FailedEvent(_, _, _, _, _, _) => ReportsLeave(db, window, e, agentId, id, lostAt);
      case CanceledEvent(_, _, _, _, _) => ReportsLeave(db, window, e, agentId, id, lostAt);
      case CompletedEvent(_, _, _, _, _, _, _, _, _, _) => ReportsLeave(db, window, e, agentId, id, lostAt);
      case RejectedEvent(_, _, _, _) => ReportsLeave(db, window, e, agentId, id, lostAt);
      case _ => OthersLeave(db, window, e, agentId, id, lostAt);
    }
  }

  lemma {:induction false} ClaimLoopKeepsAgentStatus(db: Db, other: AgentId, requested: Option<TaskId>, x: ClaimContext, attempts: nat, agentId: AgentId)
    requires agentId in db.agents && other in db.agents
    ensures var next := ClaimLoop(db, other, requested, x, attempts).db;
            agentId in next.agents && next.agents[agentId].status == db.agents[agentId].status
            && forall id :: id in next.tasks ==> id in db.tasks
    decreases attempts
  {
    hide First;
    if attempts > 0 && exists id :: First(db, other, requested, id) {
      var id :| First(db, other, requested, id);
      hide ClaimLoop;
      ClaimTurn(db, other, requested, x, attempts, id);
      CandidateIsKnown(db, other, requested, id);
      hide FailedDispatch, Dispatched, Moved;
      ClaimLoopKeepsAgentStatus(Put(db, id, FailedDispatch(db.tasks[id], x.now)), other, requested, x, attempts - 1, agentId);
    }
  }

  lemma ClaimKeepsAgentStatus(db: Db, other: AgentId, requested: Option<WireId>, x: ClaimContext, ready: bool, agentId: AgentId)
    requires agentId in db.agents
    ensures var next := Claim(db, other, requested, x, ready).db;
            agentId in next.agents && next.agents[agentId].status == db.agents[agentId].status
            && forall id :: id in next.tasks ==> id in db.tasks
  {
    hide ClaimLoop;
    if other in db.agents {
      var wanted := if requested.Some? && requested.value.Uuid? then Some(requested.value.id) else None;
      ClaimLoopKeepsAgentStatus(db, other, wanted, x, MAX_CLAIM_VALIDATION_SKIPS, agentId);
    }
  }

  lemma HelloKeepsAgentStatus(db: Db, other: AgentId, current: Option<CurrentTask>, capable: bool, now: Time, agentId: AgentId)
    requires agentId in db.agents && other != agentId
    ensures var next := Hello(db, other, current, capable, now).db;
            agentId in next.agents && next.agents[agentId].status == db.agents[agentId].status
            && forall id :: id in next.tasks ==> id in db.tasks
  {
    hide Moved, Orphaned, Recovered, Kept;
  }

  /** The agent stays offline, and a task that is new for it waits. */
  ghost predicate StaysOffline(db: Db, next: Db, agentId: AgentId) {
    && Offline(next, agentId)
    && forall id :: id in next.tasks && id !in db.tasks && next.tasks[id].agentId == agentId ==> next.tasks[id].status == WAITING_AGENT
  }

  lemma ReportsStayOffline(db: Db, window: nat, e: Event, agentId: AgentId)
    requires Offline(db, agentId)
    requires e.AcceptEvent? || e.StatusEvent? || e.FailedEvent? || e.CanceledEvent? || e.CompletedEvent? || e.RejectedEvent?
    ensures StaysOffline(db, Step(db, window, e), agentId)
  {
    hide Moved, WithCommit, CommitAgrees, TotalSize, AllUploaded, LogLeaseHeld, Unleased;
  }

  lemma OthersStayOffline(db: Db, window: nat, e: Event, agentId: AgentId)
    requires Offline(db, agentId) && Quiet(db, agentId, e)
    requires e.ReadyEvent? || e.DisconnectEvent? || e.InterruptEvent? || e.CancelEvent? || e.ScanDispatchEvent?
             || e.ScanCancellationEvent? || e.ScanRecoveryEvent? || e.AgentEvent? || e.EnableEvent? || e.LivenessEvent?
    ensures StaysOffline(db, Step(db, window, e), agentId)
  {
    hide Moved, Queued, BackToWaiting, Lost, CanceledEarly, Canceling, Orphaned, Unconfirmed, Unleased;
  }

  /** A quiet event leaves the agent offline, and a task it creates for the agent waits. */
  lemma QuietStaysOffline(db: Db, window: nat, e: Event, agentId: AgentId)
    requires Offline(db, agentId) && Quiet(db, agentId, e)
    ensures StaysOffline(db, Step(db, window, e), agentId)
  {
    match e {
      case HelloEvent(other, current, capable, now) =>
        hide Hello;
        HelloKeepsAgentStatus(db, other, current, capable, now, agentId);
      case ClaimEvent(other, requested, x, ready) =>
        hide Claim;
        ClaimKeepsAgentStatus(db, other, requested, x, ready, agentId);
      case CreateEvent(id, other, interactive, ready, now) => NewTaskWaits(other, interactive, now);
      case AcceptEvent(_, _, _, _, _) => ReportsStayOffline(db, window, e, agentId);
      case StatusEvent(_, _, _, _, _, _, _) => ReportsStayOffline(db, window, e, agentId);
      case FailedEvent(_, _, _, _, _, _) => ReportsStayOffline(db, window, e, agentId);
      case CanceledEvent(_, _, _, _, _) => ReportsStayOffline(db, window, e, agentId);
      case CompletedEvent(_, _, _, _, _, _, _, _, _, _) => ReportsStayOffline(db, window, e, agentId);
      case RejectedEvent(_, _, _, _) => ReportsStayOffline(db, window, e, agentId);
      case _ => OthersStayOffline(db, window, e, agentId);
    }
  }

  lemma NewTaskWaits(agentId: AgentId, interactive: bool, now: Time)
    ensures NewTask(agentId, interactive, false, now).status == WAITING_AGENT
  {
  }

  /** Every event of the run is quiet in the state it meets. */
  ghost predicate QuietRun(db: Db, window: nat, agentId: AgentId, events: seq<Event>)
    decreases |events|
  {
    events == [] || (Quiet(db, agentId, events[0]) && QuietRun(Step(db, window, events[0]), window, agentId, events[1..]))
  }

  lemma KeptAgents(db: Db, next: Db, issued: Option<Token>)
    requires RowsEvolve(db, next, issued)
    ensures forall id :: id in db.tasks ==> id in next.tasks && next.tasks[id].agentId == db.tasks[id].agentId
  {
  }

  /** The task is settled, or among the events is the scan that settles it, late enough. */
  ghost predicate WillSettle(t: Task, id: TaskId, events: seq<Event>, lostAt: Time, window: nat) {
    || Settled(t)
    || (t.status == AGENT_LOST && exists i, s :: 0 <= i < |events| && s >= lostAt + window && events[i] == ScanRecoveryEvent(id, s))
    || (t.status == CANCELING
        && exists i, s :: 0 <= i < |events| && s > lostAt + CANCELLATION_CONFIRMATION_TIMEOUT_MS && events[i] == ScanCancellationEvent(id, s))
  }

  lemma QuietKeepsParked(db: Db, window: nat, e: Event, agentId: AgentId, lostAt: Time)
    requires Parked(db, agentId, lostAt, window) && Quiet(db, agentId, e)
    ensures var next := Step(db, window, e);
            && Parked(next, agentId, lostAt, window)
            && forall id :: id in next.tasks && next.tasks[id].agentId == agentId ==>
                 Settled(next.tasks[id]) || (id in db.tasks && next.tasks[id] == db.tasks[id])
  {
    hide Step, Quiet, Evolves;
    var next := Step(db, window, e);
    QuietStaysOffline(db, window, e, agentId);
    StepEvolves(db, window, e);
    KeptAgents(db, next, Issued(e));
    forall id | id in next.tasks && next.tasks[id].agentId == agentId
      ensures ParkedRow(next.tasks[id], lostAt, window)
      ensures Settled(next.tasks[id]) || (id in db.tasks && next.tasks[id] == db.tasks[id])
    {
      if id in db.tasks {
        QuietLeaves(db, window, e, agentId, id, lostAt);
      }
    }
  }

  /** A late enough scan settles a parked task. */
  lemma ScanSettles(db: Db, agentId: AgentId, id: TaskId, lostAt: Time, window: nat, now: Time)
    requires agentId in db.agents && id in db.tasks && db.tasks[id].agentId == agentId && ParkedRow(db.tasks[id], lostAt, window)
    ensures now >= lostAt + window && db.tasks[id].status == AGENT_LOST ==>
              id in ReclaimRecovery(db, id, now).tasks && Settled(ReclaimRecovery(db, id, now).tasks[id])
    ensures now > lostAt + CANCELLATION_CONFIRMATION_TIMEOUT_MS && db.tasks[id].status == CANCELING ==>
              id in ReclaimCancellation(db, id, now).tasks && Settled(ReclaimCancellation(db, id, now).tasks[id])
  {
  }

  lemma ScanChanges(db: Db, window: nat, e: Event, agentId: AgentId, id: TaskId, lostAt: Time, now: Time)
    requires agentId in db.agents && id in db.tasks && db.tasks[id].agentId == agentId && ParkedRow(db.tasks[id], lostAt, window)
    requires id in Step(db, window, e).tasks && Step(db, window, e).tasks[id] == db.tasks[id]
    ensures db.tasks[id].status == AGENT_LOST && now >= lostAt + window ==> e != ScanRecoveryEvent(id, now)
    ensures db.tasks[id].status == CANCELING && now > lostAt + CANCELLATION_CONFIRMATION_TIMEOUT_MS ==> e != ScanCancellationEvent(id, now)
  {
    ScanSettles(db, agentId, id, lostAt, window, now);
    hide ReclaimRecovery, ReclaimCancellation, ParkedRow;
  }

  lemma StillWillSettle(db: Db, window: nat, events: seq<Event>, agentId: AgentId, lostAt: Time, id: TaskId)
    requires events != [] && Parked(db, agentId, lostAt, window)
    requires id in db.tasks && db.tasks[id].agentId == agentId && WillSettle(db.tasks[id], id, events, lostAt, window)
    requires id in Step(db, window, events[0]).tasks && Step(db, window, events[0]).tasks[id] == db.tasks[id]
    ensures WillSettle(db.tasks[id], id, events[1..], lostAt, window)
  {
    hide Step, ParkedRow;
    var t := db.tasks[id];
    if t.status == AGENT_LOST {
      var i, s :| 0 <= i < |events| && s >= lostAt + window && events[i] == ScanRecoveryEvent(id, s);
      ScanChanges(db, window, events[0], agentId, id, lostAt, s);
      assert events[1..][i - 1] == ScanRecoveryEvent(id, s);
    } else if t.status == CANCELING {
      var i, s :| 0 <= i < |events| && s > lostAt + CANCELLATION_CONFIRMATION_TIMEOUT_MS && events[i] == ScanCancellationEvent(id, s);
      ScanChanges(db, window, events[0], agentId, id, lostAt, s);
      assert events[1..][i - 1] == ScanCancellationEvent(id, s);
    }
  }

  lemma {:induction false} ParkedTasksSettle(db: Db, window: nat, events: seq<Event>, agentId: AgentId, lostAt: Time)
    requires Parked(db, agentId, lostAt, window) && QuietRun(db, window, agentId, events)
    requires forall id :: id in db.tasks && db.tasks[id].agentId == agentId ==> WillSettle(db.tasks[id], id, events, lostAt, window)
    ensures var after := Run(db, window, events);
            agentId in after.agents
            && forall id :: id in after.tasks && after.tasks[id].agentId == agentId ==> Settled(after.tasks[id])
    decreases |events|
  {
    hide Step, Quiet, ParkedRow;
    if events == [] {
      assert forall id :: id in db.tasks && db.tasks[id].agentId == agentId ==> WillSettle(db.tasks[id], id, events, lostAt, window);
    } else {
      var next := Step(db, window, events[0]);
      QuietKeepsParked(db, window, events[0], agentId, lostAt);
      forall id | id in next.tasks && next.tasks[id].agentId == agentId
        ensures WillSettle(next.tasks[id], id, events[1..], lostAt, window)
      {
        if !Settled(next.tasks[id]) {
          StillWillSettle(db, window, events, agentId, lostAt, id);
        }
      }
      hide WillSettle, Settled;
      ParkedTasksSettle(next, window, events[1..], agentId, lostAt);
    }
  }

  lemma SlotIsExact(db: Db, agentId: AgentId, id: TaskId)
    requires DbOk(db) && agentId in db.agents
    ensures db.agents[agentId].activeTaskId == Some(id) <==> id in db.tasks && db.tasks[id].agentId == agentId && HoldsSlot(db.tasks[id].status)
  {
  }

  /** Once an agent's tasks are parked, whatever happens meanwhile, a scan that is late enough for each of them
      leaves the agent without an active task and every task waiting or finished, as long as the agent does
      not reconnect and none of its tasks is canceled. */
  lemma SlotIsReleased(db: Db, window: nat, events: seq<Event>, agentId: AgentId, lostAt: Time)
    requires DbOk(db) && Parked(db, agentId, lostAt, window) && QuietRun(db, window, agentId, events)
    requires forall id :: id in db.tasks && db.tasks[id].agentId == agentId ==> WillSettle(db.tasks[id], id, events, lostAt, window)
    ensures Released(Run(db, window, events), agentId)
  {
    hide *;
    RunKeeps(db, window, events);
    ParkedTasksSettle(db, window, events, agentId, lostAt);
    SettledFreesSlot(Run(db, window, events), agentId);
  }

  lemma SettledFreesSlot(db: Db, agentId: AgentId)
    requires DbOk(db) && agentId in db.agents
    requires forall id :: id in db.tasks && db.tasks[id].agentId == agentId ==> Settled(db.tasks[id])
    ensures Released(db, agentId)
  {
    hide DbOk, HoldsSlot, Settled;
    var active := db.agents[agentId].activeTaskId;
    if active.Some? {
      SlotIsExact(db, agentId, active.value);
      SettledHoldsNoSlot(db, active.value);
    }
  }

  /** Disconnecting a task of an agent that is offline parks it. */
  lemma DisconnectParksRow(db: Db, agentId: AgentId, id: TaskId, window: nat, now: Time, lostAt: Time)
    requires DbOk(db) && Known(db, agentId, id) && now <= lostAt
    requires StampedBy(db, lostAt, window)
    ensures var next := DisconnectTask(db, agentId, id, window, now);
            id in next.tasks && ParkedRow(next.tasks[id], lostAt, window)
  {
    RowIsOk(db, id);
    hide DbOk;
    var t := db.tasks[id];
    assert t.status == DISPATCHED ==> t.startedAt.None?;
    hide RowOk;
  }

  /** The statuses onAgentDisconnected looks for. */
  predicate Disconnectable(s: Status) {
    s in {QUEUED, DISPATCHED, PREPARING, RUNNING, UPLOADING, CANCELING}
  }

  /** Among the events is the disconnect transaction of this task. */
  ghost predicate Disconnects(events: seq<Event>, agentId: AgentId, id: TaskId) {
    exists i :: 0 <= i < |events| && DisconnectOf(events[i], agentId, id)
  }

  predicate DisconnectOf(e: Event, agentId: AgentId, id: TaskId) {
    e.DisconnectEvent? && e.agentId == agentId && e.id == id
  }

  lemma LaterDisconnects(events: seq<Event>, agentId: AgentId, id: TaskId)
    requires events != [] && Disconnects(events, agentId, id)
    ensures DisconnectOf(events[0], agentId, id) || Disconnects(events[1..], agentId, id)
  {
    var i :| 0 <= i < |events| && DisconnectOf(events[i], agentId, id);
    if i > 0 {
      assert events[1..][i - 1] == events[i];
    }
  }

  ghost predicate By(events: seq<Event>, clock: Time) {
    forall i :: 0 <= i < |events| ==> TimeOf(events[i]) <= clock
  }

  /** Every task of the agent is parked, or its disconnect transaction is still to come. */
  ghost predicate WillPark(db: Db, events: seq<Event>, agentId: AgentId, lostAt: Time, window: nat) {
    forall id :: id in db.tasks && db.tasks[id].agentId == agentId ==>
      ParkedRow(db.tasks[id], lostAt, window) || Disconnects(events, agentId, id)
  }

  /** The disconnect transactions of an offline agent's tasks, each at its own time and with any quiet transactions
      between them, park the agent's tasks. */
  lemma {:induction false} DisconnectParks(db: Db, window: nat, events: seq<Event>, agentId: AgentId, lostAt: Time)
    requires DbOk(db) && Offline(db, agentId) && StampedBy(db, lostAt, window)
    requires QuietRun(db, window, agentId, events) && By(events, lostAt) && WillPark(db, events, agentId, lostAt, window)
    ensures Parked(Run(db, window, events), agentId, lostAt, window)
    decreases |events|
  {
    hide Step, DbOk, StampedBy, Offline, ParkedRow, TimeOf, Quiet, WillPark;
    if events == [] {
      NothingToPark(db, agentId, lostAt, window);
    } else {
      DisconnectParksOne(db, window, events, agentId, lostAt);
      DisconnectParks(Step(db, window, events[0]), window, events[1..], agentId, lostAt);
    }
  }

  lemma NothingToPark(db: Db, agentId: AgentId, lostAt: Time, window: nat)
    requires Offline(db, agentId) && WillPark(db, [], agentId, lostAt, window)
    ensures Parked(db, agentId, lostAt, window)
  {
    hide ParkedRow;
  }

  lemma DisconnectParksOne(db: Db, window: nat, events: seq<Event>, agentId: AgentId, lostAt: Time)
    requires events != [] && DbOk(db) && Offline(db, agentId) && StampedBy(db, lostAt, window)
    requires Quiet(db, agentId, events[0]) && TimeOf(events[0]) <= lostAt && WillPark(db, events, agentId, lostAt, window)
    ensures var next := Step(db, window, events[0]);
            DbOk(next) && Offline(next, agentId) && StampedBy(next, lostAt, window) && WillPark(next, events[1..], agentId, lostAt, window)
  {
    var e := events[0];
    var next := Step(db, window, e);
    hide DbOk, StampedBy, Step, Quiet, Evolves, RowsEvolve, ParkedRow, Offline, TimeOf, Disconnects, DisconnectOf;
    StepKeeps(db, window, e);
    QuietStaysOffline(db, window, e, agentId);
    StepStamps(db, window, e, lostAt);
    StepEvolves(db, window, e);
    KeptAgents(db, next, Issued(e));
    forall id | id in next.tasks && next.tasks[id].agentId == agentId
      ensures ParkedRow(next.tasks[id], lostAt, window) || Disconnects(events[1..], agentId, id)
    {
      NewTaskIsParked(db, next, agentId, id, lostAt, window);
      if id in db.tasks {
        if ParkedRow(db.tasks[id], lostAt, window) {
          QuietLeaves(db, window, e, agentId, id, lostAt);
          LeftIsParked(db, next, id, lostAt, window);
        } else {
          LaterDisconnects(events, agentId, id);
          if DisconnectOf(e, agentId, id) {
            DisconnectParksNext(db, window, e, agentId, id, lostAt);
          }
        }
      }
    }
  }

  lemma DisconnectParksNext(db: Db, window: nat, e: Event, agentId: AgentId, id: TaskId, lostAt: Time)
    requires DbOk(db) && id in db.tasks && db.tasks[id].agentId == agentId && StampedBy(db, lostAt, window)
    requires DisconnectOf(e, agentId, id) && TimeOf(e) <= lostAt
    ensures var next := Step(db, window, e);
            id in next.tasks && ParkedRow(next.tasks[id], lostAt, window)
  {
    RowIsOk(db, id);
    assert Step(db, window, e) == DisconnectTask(db, agentId, id, window, e.now);
    hide DbOk, StampedBy, DisconnectTask, ParkedRow, Step;
    DisconnectParksRow(db, agentId, id, window, e.now, lostAt);
  }

  lemma LeftIsParked(db: Db, next: Db, id: TaskId, lostAt: Time, window: nat)
    requires id in db.tasks && ParkedRow(db.tasks[id], lostAt, window) && LeftOrFailed(db, next, id)
    ensures ParkedRow(next.tasks[id], lostAt, window)
  {
  }

  lemma NewTaskIsParked(db: Db, next: Db, agentId: AgentId, id: TaskId, lostAt: Time, window: nat)
    requires StaysOffline(db, next, agentId) && id in next.tasks && next.tasks[id].agentId == agentId
    ensures id !in db.tasks ==> ParkedRow(next.tasks[id], lostAt, window)
  {
  }

  lemma RestIsParked(t: Task, now: Time, window: nat)
    requires RowOk(t) && !Disconnectable(t.status) && RowStamped(t, now, window)
    ensures ParkedRow(t, now, window)
  {
    hide Walk;
  }

  /** Every task of the agent in a status onAgentDisconnected looks for is among the events. */
  ghost predicate DisconnectsAll(db: Db, events: seq<Event>, agentId: AgentId) {
    forall id :: id in db.tasks && db.tasks[id].agentId == agentId && Disconnectable(db.tasks[id].status) ==> Disconnects(events, agentId, id)
  }

  lemma AllWillPark(db: Db, events: seq<Event>, agentId: AgentId, lostAt: Time, window: nat)
    requires DbOk(db) && StampedBy(db, lostAt, window) && DisconnectsAll(db, events, agentId)
    ensures WillPark(db, events, agentId, lostAt, window)
  {
    hide RowOk, RowStamped, ParkedRow, Disconnectable, Disconnects, HoldsSlot;
    forall id | id in db.tasks && db.tasks[id].agentId == agentId && !Disconnectable(db.tasks[id].status)
      ensures ParkedRow(db.tasks[id], lostAt, window)
    {
      RestIsParked(db.tasks[id], lostAt, window);
    }
  }

  // --- One scan ---

  /** Later than the recovery window and the cancellation timeout. */
  predicate Late(now: Time, lostAt: Time, window: nat) {
    now >= lostAt + window && now > lostAt + CANCELLATION_CONFIRMATION_TIMEOUT_MS
  }

  predicate OverdueCancellation(t: Task, now: Time) {
    t.status == CANCELING && t.cancelRequestedAt.Some? && t.cancelRequestedAt.value < now - CANCELLATION_CONFIRMATION_TIMEOUT_MS
  }

  predicate OverdueDispatch(t: Task, now: Time) {
    t.status == DISPATCHED && t.updatedAt < now - DISPATCH_CONFIRMATION_TIMEOUT_MS
  }

  predicate OverdueRecovery(t: Task, now: Time) {
    t.status == AGENT_LOST && t.recoveryDeadlineAt.Some? && t.recoveryDeadlineAt.value <= now
  }

  ghost predicate NoneOverdue(db: Db, now: Time) {
    forall id :: id in db.tasks ==>
      !OverdueDispatch(db.tasks[id], now) && !OverdueCancellation(db.tasks[id], now) && !OverdueRecovery(db.tasks[id], now)
  }

  /** The transactions a scan is made of. */
  ghost predicate ScanTrace(trace: seq<Event>) {
    forall i :: 0 <= i < |trace| ==>
      trace[i].ScanDispatchEvent? || trace[i].ScanCancellationEvent? || trace[i].ScanRecoveryEvent? || trace[i].DisconnectEvent?
  }

  lemma {:induction false} ScanKeepsParked(db: Db, window: nat, trace: seq<Event>, agentId: AgentId, lostAt: Time)
    requires Parked(db, agentId, lostAt, window) && ScanTrace(trace)
    ensures Parked(Run(db, window, trace), agentId, lostAt, window)
    decreases |trace|
  {
    hide Step, Parked;
    if trace != [] {
      assert Quiet(db, agentId, trace[0]);
      QuietKeepsParked(db, window, trace[0], agentId, lostAt);
      ScanKeepsParked(Step(db, window, trace[0]), window, trace[1..], agentId, lostAt);
    }
  }

  /** A scan later than both timeouts leaves no parked task in the slot. */
  lemma ScanReleasesSlot(db: Db, window: nat, trace: seq<Event>, agentId: AgentId, lostAt: Time, now: Time)
    requires DbOk(db) && Parked(db, agentId, lostAt, window) && ScanTrace(trace) && NoneOverdue(Run(db, window, trace), now)
    requires Late(now, lostAt, window)
    ensures Released(Run(db, window, trace), agentId)
  {
    ScanKeepsParked(db, window, trace, agentId, lostAt);
    RunKeeps(db, window, trace);
    var after := Run(db, window, trace);
    hide Run, RowOk, HoldsSlot, DbOk, ScanTrace;
    forall id | id in after.tasks && after.tasks[id].agentId == agentId ensures Settled(after.tasks[id]) {
      assert ParkedRow(after.tasks[id], lostAt, window);
    }
    SettledFreesSlot(after, agentId);
  }

  lemma {:induction false} QuietRunKeepsParked(db: Db, window: nat, events: seq<Event>, agentId: AgentId, lostAt: Time)
    requires Parked(db, agentId, lostAt, window) && QuietRun(db, window, agentId, events)
    ensures Parked(Run(db, window, events), agentId, lostAt, window)
    decreases |events|
  {
    hide Step, Parked, Quiet;
    if events != [] {
      QuietKeepsParked(db, window, events[0], agentId, lostAt);
      QuietRunKeepsParked(Step(db, window, events[0]), window, events[1..], agentId, lostAt);
    }
  }

  /** Bounded slot release: an agent goes offline, the disconnect transactions of its tasks run by `lostAt` among
      others, and anything but a reconnect or a cancellation may follow. The first scan later than the recovery
      window and the cancellation timeout leaves it without an active task, and every task waiting or finished. */
  lemma DisconnectReleasesSlot(db: Db, window: nat, during: seq<Event>, after: seq<Event>, scan: seq<Event>,
                               agentId: AgentId, lostAt: Time, now: Time)
    requires DbOk(db) && Offline(db, agentId) && StampedBy(db, lostAt, window)
    requires DisconnectsAll(db, during, agentId) && By(during, lostAt) && QuietRun(db, window, agentId, during + after)
    requires ScanTrace(scan) && NoneOverdue(Run(db, window, during + after + scan), now)
    requires Late(now, lostAt, window)
    ensures Released(Run(db, window, during + after + scan), agentId)
  {
    hide *;
    AllWillPark(db, during, agentId, lostAt, window);
    QuietRunSplits(db, window, agentId, during, after);
    DisconnectParks(db, window, during, agentId, lostAt);
    var parked := Run(db, window, during);
    QuietRunKeepsParked(parked, window, after, agentId, lostAt);
    RunConcat(db, window, during, after);
    RunKeeps(db, window, during + after);
    RunConcat(db, window, during + after, scan);
    ScanReleasesSlot(Run(db, window, during + after), window, scan, agentId, lostAt, now);
  }

  lemma {:induction false} QuietRunSplits(db: Db, window: nat, agentId: AgentId, a: seq<Event>, b: seq<Event>)
    requires QuietRun(db, window, agentId, a + b)
    ensures QuietRun(db, window, agentId, a) && QuietRun(Run(db, window, a), window, agentId, b)
    decreases |a|
  {
    hide Step, Quiet;
    if a == [] {
      assert a + b == b;
    } else {
      assert (a + b)[1..] == a[1..] + b;
      QuietRunSplits(Step(db, window, a[0]), window, agentId, a[1..], b);
    }
  }

  /** Disconnect transactions alone. */
  ghost predicate OnlyDisconnects(events: seq<Event>, agentId: AgentId) {
    forall i :: 0 <= i < |events| ==> events[i].DisconnectEvent? && events[i].agentId == agentId
  }

  lemma {:induction false} DisconnectsAreQuiet(db: Db, window: nat, events: seq<Event>, agentId: AgentId)
    requires OnlyDisconnects(events, agentId)
    ensures QuietRun(db, window, agentId, events) && ScanTrace(events)
    decreases |events|
  {
    hide Step;
    if events != [] {
      DisconnectsAreQuiet(Step(db, window, events[0]), window, events[1..], agentId);
    }
  }

  /** When the disconnect transactions are over, the agent's tasks are parked. */
  lemma DisconnectedIsParked(db: Db, window: nat, events: seq<Event>, agentId: AgentId, lostAt: Time)
    requires DbOk(db) && Offline(db, agentId) && StampedBy(db, lostAt, window)
    requires OnlyDisconnects(events, agentId) && DisconnectsAll(db, events, agentId) && By(events, lostAt)
    ensures Parked(Run(db, window, events), agentId, lostAt, window)
  {
    hide *;
    AllWillPark(db, events, agentId, lostAt, window);
    DisconnectsAreQuiet(db, window, events, agentId);
    DisconnectParks(db, window, events, agentId, lostAt);
  }

  lemma SettledHoldsNoSlot(db: Db, id: TaskId)
    ensures id in db.tasks && Settled(db.tasks[id]) ==> !HoldsSlot(db.tasks[id].status)
  {
  }

  /** No task gets dispatched, and a task that stays so is not touched. */
  ghost predicate DispatchesNone(before: map<TaskId, Task>, after: map<TaskId, Task>) {
    forall id :: id in after && after[id].status == DISPATCHED ==> id in before && before[id] == after[id]
  }

  lemma CancellationScanDispatchesNone(db: Db, id: TaskId, now: Time)
    ensures DispatchesNone(db.tasks, ReclaimCancellation(db, id, now).tasks)
  {
  }

  lemma RecoveryScanDispatchesNone(db: Db, id: TaskId, now: Time)
    ensures DispatchesNone(db.tasks, ReclaimRecovery(db, id, now).tasks)
  {
  }

  /** The same rows, of which those that are dispatched or being canceled are as they were. */
  ghost predicate Undisturbed(before: map<TaskId, Task>, after: map<TaskId, Task>) {
    after.Keys == before.Keys
    && forall id :: id in after && (after[id].status == DISPATCHED || after[id].status == CANCELING) ==> before[id] == after[id]
  }

  lemma DisconnectDisturbsNone(db: Db, agentId: AgentId, id: TaskId, window: nat, now: Time)
    ensures Undisturbed(db.tasks, DisconnectTask(db, agentId, id, window, now).tasks)
  {
  }

  lemma UndisturbedOn(before: map<TaskId, Task>, middle: map<TaskId, Task>, after: map<TaskId, Task>)
    requires Undisturbed(before, middle) && Undisturbed(middle, after)
    ensures Undisturbed(before, after)
  {
  }

  lemma UndisturbedMeans(before: map<TaskId, Task>, after: map<TaskId, Task>)
    requires Undisturbed(before, after)
    ensures after.Keys == before.Keys && DispatchesNone(before, after)
    ensures forall id :: id in after && after[id].status == CANCELING ==> before[id] == after[id]
  {
  }

  lemma NothingDisturbed(tasks: map<TaskId, Task>)
    ensures Undisturbed(tasks, tasks)
  {
  }
}
