/** What a transaction can never do to a task's row. */
module TaskEvolution {
  import opened Options
  import opened TaskStatus
  import opened TaskRows
  import opened TaskClaim
  import opened TaskInvariants
  import opened TaskRuns

  /** The lease under which the task may still be executed: none once it is being canceled. */
  function LiveToken(t: Task): Option<Token> {
    if HoldsSlot(t.status) && t.status != CANCELING then t.leaseHash else None
  }

  /** History only grows, a finished row is frozen, the source commit is written once, and a lease that died does
      not come back: a live lease was live before or was just issued. */
  ghost predicate Evolves(t: Task, next: Task, issued: Option<Token>) {
    && next.agentId == t.agentId && next.createdAt == t.createdAt && next.interactive == t.interactive
    && t.history <= next.history
    && (Terminal(t.status) ==> next == t)
    && (t.sourceCommit.Some? ==> next.sourceCommit == t.sourceCommit)
    && (LiveToken(next).Some? ==> LiveToken(next) == LiveToken(t) || LiveToken(next) == issued)
    && (next.leaseHash.Some? ==> next.leaseHash == t.leaseHash || next.leaseHash == issued)
  }

  lemma SameEvolves(t: Task, issued: Option<Token>)
    ensures Evolves(t, t, issued)
  {
  }

  /** A transition out of a status that is not terminal, without a new lease. */
  lemma MovedEvolves(t: Task, next: Status, now: Time, issued: Option<Token>)
    requires !Terminal(t.status)
    requires HoldsSlot(next) && next != CANCELING ==> HoldsSlot(t.status) && t.status != CANCELING
    ensures Evolves(t, Moved(t, next, now), issued)
  {
  }

  /** A row as it is created. */
  predicate Fresh(t: Task) {
    t.leaseHash.None? && (t.status == QUEUED || t.status == WAITING_AGENT)
  }

  /** The rows of b are the rows of a, evolved, and fresh ones. */
  ghost predicate RowsEvolve(a: Db, b: Db, issued: Option<Token>) {
    && (forall id :: id in a.tasks ==> id in b.tasks && Evolves(a.tasks[id], b.tasks[id], issued))
    && (forall id :: id in b.tasks && id !in a.tasks ==> Fresh(b.tasks[id]))
  }

  lemma PutEvolves(db: Db, id: TaskId, row: Task, issued: Option<Token>)
    requires if id in db.tasks then Evolves(db.tasks[id], row, issued) else Fresh(row)
    ensures RowsEvolve(db, Put(db, id, row), issued)
  {
  }

  lemma SameRowsEvolve(a: Db, b: Db, issued: Option<Token>)
    requires a.tasks == b.tasks
    ensures RowsEvolve(a, b, issued)
  {
  }

  lemma RowsEvolveOn(a: Db, b: Db, c: Db, issued: Option<Token>)
    requires RowsEvolve(a, b, None) && RowsEvolve(b, c, issued) && b.tasks.Keys <= a.tasks.Keys
    ensures RowsEvolve(a, c, issued)
  {
  }

  // --- Row by row ---

  lemma QueuedEvolves(t: Task, now: Time)
    requires t.status == WAITING_AGENT
    ensures Evolves(t, Queued(t, now), None)
  {
  }

  lemma BackToWaitingEvolves(t: Task, now: Time)
    requires t.status == DISPATCHED
    ensures Evolves(t, BackToWaiting(t, now), None) && Evolves(t, Unleased(Moved(t, QUEUED, now)), None)
  {
  }

  lemma LostEvolves(t: Task, now: Time, window: nat)
    requires ExecutionPhase(t.status)
    ensures Evolves(t, Lost(t, now, window), None)
  {
  }

  lemma FailedDispatchEvolves(t: Task, now: Time)
    requires t.status == QUEUED
    ensures Evolves(t, FailedDispatch(t, now), None)
  {
  }

  lemma CanceledEarlyEvolves(t: Task, now: Time)
    requires !Terminal(t.status)
    ensures Evolves(t, CanceledEarly(t, now), None)
  {
  }

  lemma FinishedEvolves(db: Db, agentId: AgentId, id: TaskId, row: Task, next: Status, now: Time, at: Time)
    requires agentId in db.agents && id in db.tasks && !Terminal(db.tasks[id].status) && Terminal(next)
    requires var moved := Moved(db.tasks[id], next, now);
             row == moved.(exitCode := row.exitCode, artifactCount := row.artifactCount, artifactBytes := row.artifactBytes, sourceCommit := row.sourceCommit)
    requires db.tasks[id].sourceCommit.Some? ==> row.sourceCommit == db.tasks[id].sourceCommit
    ensures RowsEvolve(db, Finished(db, agentId, id, row, at), None)
  {
  }

  // --- Transaction by transaction ---

  lemma ReadyEvolves(db: Db, agentId: AgentId, capable: bool, now: Time)
    ensures RowsEvolve(db, AgentReady(db, agentId, capable, now), None)
  {
    hide Evolves, Queued, Up;
    forall t: Task | t.status == WAITING_AGENT ensures Evolves(t, Queued(t, now), None) {
      QueuedEvolves(t, now);
    }
    forall t: Task ensures Evolves(t, t, None) {
      SameEvolves(t, None);
    }
  }

  lemma DisconnectEvolves(db: Db, agentId: AgentId, id: TaskId, window: nat, now: Time)
    ensures RowsEvolve(db, DisconnectTask(db, agentId, id, window, now), None)
  {
    SameRowsEvolve(db, db, None);
    if Known(db, agentId, id) {
      var t := db.tasks[id];
      if t.status == QUEUED {
        MovedEvolves(t, WAITING_AGENT, now, None);
        PutEvolves(db, id, Moved(t, WAITING_AGENT, now), None);
      } else if t.status == DISPATCHED {
        BackToWaitingEvolves(t, now);
        PutEvolves(db, id, BackToWaiting(t, now), None);
      } else if ExecutionPhase(t.status) {
        LostEvolves(t, now, window);
        PutEvolves(db, id, Lost(t, now, window), None);
      }
    }
    hide Evolves, BackToWaiting, Lost, Moved;
  }

  lemma InterruptEvolves(db: Db, id: TaskId, phase: Status, connected: bool, window: nat, now: Time)
    ensures RowsEvolve(db, InterruptTask(db, id, phase, connected, window, now), None)
  {
  }

  lemma FailOrphanEvolves(db: Db, agentId: AgentId, id: TaskId, now: Time)
    ensures RowsEvolve(db, FailOrphan(db, agentId, id, now), None)
  {
  }

  lemma ResumeEvolves(db: Db, agentId: AgentId, id: TaskId, current: Option<CurrentTask>, capable: bool, now: Time)
    requires Resumable(db, agentId, id, now)
    ensures RowsEvolve(db, Resume(db, FailOrphan(db, agentId, id, now), agentId, id, current, capable, now).db, None)
  {
    SameRowsEvolve(db, db, None);
    FailOrphanEvolves(db, agentId, id, now);
    var t := db.tasks[id];
    if t.status == AGENT_LOST && t.recoveryStatus.Some? && ExecutionPhase(t.recoveryStatus.value) {
      MovedEvolves(t, t.recoveryStatus.value, now, None);
      PutEvolves(db, id, Recovered(Moved(t, t.recoveryStatus.value, now)), None);
    }
    hide Evolves, FailOrphan, Moved, Recovered;
  }

  lemma SameTasksEvolve(a: Db, b: Db, c: Db, issued: Option<Token>)
    requires RowsEvolve(a, b, issued) && b.tasks == c.tasks
    ensures RowsEvolve(a, c, issued)
  {
  }

  lemma ReconcileEvolves(db: Db, agentId: AgentId, current: Option<CurrentTask>, capable: bool, now: Time)
    requires agentId in db.agents
    ensures RowsEvolve(db, ReconcileHello(db, agentId, current, capable, now).db, None)
  {
    SameRowsEvolve(db, db, None);
    hide RowsEvolve, FailOrphan, Resume;
    var active := db.agents[agentId].activeTaskId;
    if active.Some? {
      FailOrphanEvolves(db, agentId, active.value, now);
    }
    if current.Some? || active.Some? {
      var wire := if current.Some? then current.value.taskId else Uuid(active.value);
      if wire.Uuid? && Resumable(db, agentId, wire.id, now) {
        ResumeEvolves(db, agentId, wire.id, current, capable, now);
      }
    }
  }

  lemma HelloEvolves(db: Db, agentId: AgentId, current: Option<CurrentTask>, capable: bool, now: Time)
    ensures RowsEvolve(db, Hello(db, agentId, current, capable, now).db, None)
  {
    SameRowsEvolve(db, db, None);
    hide RowsEvolve, ReconcileHello, Kept;
    if agentId in db.agents && db.agents[agentId].enabled {
      ReconcileEvolves(db, agentId, current, capable, now);
      var reconciled := ReconcileHello(db, agentId, current, capable, now).db;
      ReconcileHasAgent(db, agentId, current, capable, now);
      SameTasksEvolve(db, reconciled, Hello(db, agentId, current, capable, now).db, None);
    }
  }

  lemma ReconcileHasAgent(db: Db, agentId: AgentId, current: Option<CurrentTask>, capable: bool, now: Time)
    requires agentId in db.agents
    ensures agentId in ReconcileHello(db, agentId, current, capable, now).db.agents
  {
  }

  lemma DispatchEvolves(db: Db, agentId: AgentId, id: TaskId, x: ClaimContext)
    requires id in db.tasks && db.tasks[id].status == QUEUED && agentId in db.agents
    ensures RowsEvolve(db, Point(Put(db, id, Dispatched(db.tasks[id], x)), agentId, Some(id)), Some(x.token))
  {
  }

  lemma SentBackEvolves(db: Db, id: TaskId, now: Time, issued: Option<Token>)
    requires id in db.tasks && db.tasks[id].status == QUEUED
    ensures RowsEvolve(db, Put(db, id, Moved(db.tasks[id], WAITING_AGENT, now)), issued)
  {
  }

  lemma {:induction false} ClaimLoopEvolves(db: Db, agentId: AgentId, requested: Option<TaskId>, x: ClaimContext, attempts: nat)
    requires agentId in db.agents
    ensures RowsEvolve(db, ClaimLoop(db, agentId, requested, x, attempts).db, Some(x.token))
    decreases attempts
  {
    hide First, RowsEvolve;
    if attempts > 0 && exists id :: First(db, agentId, requested, id) {
      var id :| First(db, agentId, requested, id);
      hide ClaimLoop;
      ClaimTurn(db, agentId, requested, x, attempts, id);
      CandidateIsKnown(db, agentId, requested, id);
      FailedDispatchEvolves(db.tasks[id], x.now);
      hide FailedDispatch, Dispatched, Moved, Evolves;
      var next := Put(db, id, FailedDispatch(db.tasks[id], x.now));
      PutEvolves(db, id, FailedDispatch(db.tasks[id], x.now), None);
      ClaimLoopEvolves(next, agentId, requested, x, attempts - 1);
      RowsEvolveOn(db, next, ClaimLoop(next, agentId, requested, x, attempts - 1).db, Some(x.token));
      SentBackEvolves(db, id, x.now, Some(x.token));
      DispatchEvolves(db, agentId, id, x);
    } else {
      SameRowsEvolve(db, db, Some(x.token));
    }
  }

  lemma ClaimEvolves(db: Db, agentId: AgentId, requested: Option<WireId>, x: ClaimContext, ready: bool)
    ensures RowsEvolve(db, Claim(db, agentId, requested, x, ready).db, Some(x.token))
  {
    SameRowsEvolve(db, db, Some(x.token));
    hide ClaimLoop, RowsEvolve;
    if agentId in db.agents {
      var id := if requested.Some? && requested.value.Uuid? then Some(requested.value.id) else None;
      ClaimLoopEvolves(db, agentId, id, x, MAX_CLAIM_VALIDATION_SKIPS);
    }
  }

  lemma AcceptEvolves(db: Db, agentId: AgentId, taskId: WireId, token: Token, ready: bool, now: Time)
    ensures RowsEvolve(db, Accept(db, agentId, taskId, token, ready, now).db, None)
  {
  }

  lemma ReportStatusEvolves(db: Db, agentId: AgentId, taskId: WireId, token: Token, status: Status, commit: WireCommit, ready: bool, now: Time)
    ensures RowsEvolve(db, ReportStatus(db, agentId, taskId, token, status, commit, ready, now).db, None)
  {
    SameRowsEvolve(db, db, None);
    if taskId.Uuid? && taskId.id in db.tasks {
      var t := db.tasks[taskId.id];
      if t.status == status && ExecutionPhase(status) {
        PutEvolves(db, taskId.id, WithCommit(t, commit).(updatedAt := now), None);
      } else if (status == RUNNING && t.status == PREPARING) || (status == UPLOADING && t.status == RUNNING) {
        MovedEvolves(t, status, now, None);
        PutEvolves(db, taskId.id, WithCommit(Moved(t, status, now), commit), None);
      }
    }
    hide Evolves, Moved, Up, WithCommit, LeaseHeld;
  }

  lemma ReportFailureEvolves(db: Db, agentId: AgentId, taskId: WireId, token: Token, exitCode: Option<int>, ready: bool, now: Time)
    ensures RowsEvolve(db, ReportFailure(db, agentId, taskId, token, exitCode, ready, now).db, None)
  {
    SameRowsEvolve(db, db, None);
    hide RowsEvolve, Finished, Up, Moved;
    if taskId.Uuid? && Known(db, agentId, taskId.id) {
      var t := db.tasks[taskId.id];
      if ExecutionPhase(t.status) || t.status == CANCELING {
        SourceCommitMoves(t, FAILED, now);
        FinishedEvolves(db, agentId, taskId.id, Moved(t, FAILED, now).(exitCode := exitCode), FAILED, now, now);
      }
    }
  }

  lemma SourceCommitMoves(t: Task, next: Status, now: Time)
    ensures Moved(t, next, now).sourceCommit == t.sourceCommit
  {
  }

  lemma ReportCanceledEvolves(db: Db, agentId: AgentId, taskId: WireId, token: Token, ready: bool, now: Time)
    ensures RowsEvolve(db, ReportCanceled(db, agentId, taskId, token, ready, now).db, None)
  {
  }

  lemma CompleteEvolves(db: Db, agentId: AgentId, taskId: WireId, token: Token, exitCode: int, count: nat, bytes: nat,
                        commit: Option<string>, files: seq<Artifact>, finishedAt: Time, now: Time)
    ensures RowsEvolve(db, Complete(db, agentId, taskId, token, exitCode, count, bytes, commit, files, finishedAt, now).db, None)
  {
    SameRowsEvolve(db, db, None);
    hide RowsEvolve, Finished, Moved, TotalSize, AllUploaded, Up;
    if taskId.Uuid? && Known(db, agentId, taskId.id) && db.tasks[taskId.id].status == UPLOADING {
      var t := db.tasks[taskId.id];
      SourceCommitMoves(t, SUCCEEDED, now);
      var done := Moved(t, SUCCEEDED, now).(exitCode := Some(0), artifactCount := |files|, artifactBytes := TotalSize(files));
      var row := if commit.Some? && t.sourceCommit.None? then done.(sourceCommit := commit) else done;
      FinishedEvolves(db, agentId, taskId.id, row, SUCCEEDED, now, finishedAt);
    }
  }

  lemma FailRejectedEvolves(db: Db, agentId: AgentId, taskId: WireId, token: Token, now: Time)
    ensures RowsEvolve(db, FailRejectedCompletion(db, agentId, taskId, token, now), None)
  {
  }

  lemma CancelingEvolves(t: Task, now: Time)
    requires !Terminal(t.status)
    ensures Evolves(t, Canceling(t, now), None) && Evolves(t, t.(cancelRequestedAt := Some(now), updatedAt := now), None)
  {
  }

  lemma CancellationEvolves(db: Db, taskId: WireId, now: Time)
    ensures RowsEvolve(db, RequestCancellation(db, taskId, now).db, None)
  {
    hide RowsEvolve, Evolves, CanceledEarly, Canceling;
    SameRowsEvolve(db, db, None);
    if taskId.Uuid? && taskId.id in db.tasks && db.tasks[taskId.id].agentId in db.agents {
      var id, t := taskId.id, db.tasks[taskId.id];
      SameRowsEvolve(db, Point(db, t.agentId, None), None);
      if !Terminal(t.status) {
        CancellationRowsEvolve(db, id, now);
        hide Put, Point;
      }
    }
  }

  lemma CancellationRowsEvolve(db: Db, id: TaskId, now: Time)
    requires id in db.tasks && db.tasks[id].agentId in db.agents && !Terminal(db.tasks[id].status)
    ensures var t := db.tasks[id];
            && RowsEvolve(db, Put(db, id, CanceledEarly(t, now)), None)
            && RowsEvolve(db, Point(Put(db, id, CanceledEarly(t, now)), t.agentId, None), None)
            && RowsEvolve(db, Put(db, id, Canceling(t, now)), None)
            && RowsEvolve(db, Put(db, id, t.(cancelRequestedAt := Some(now), updatedAt := now)), None)
  {
    hide RowsEvolve, Evolves, CanceledEarly, Canceling;
    var t := db.tasks[id];
    CanceledEarlyEvolves(t, now);
    CancelingEvolves(t, now);
    PutEvolves(db, id, CanceledEarly(t, now), None);
    PutEvolves(db, id, Canceling(t, now), None);
    PutEvolves(db, id, t.(cancelRequestedAt := Some(now), updatedAt := now), None);
    SameTasksEvolve(db, Put(db, id, CanceledEarly(t, now)), Point(Put(db, id, CanceledEarly(t, now)), t.agentId, None), None);
  }

  lemma ReclaimDispatchEvolves(db: Db, id: TaskId, ready: bool, now: Time)
    ensures RowsEvolve(db, ReclaimDispatch(db, id, ready, now), None)
  {
  }

  lemma ReclaimCancellationEvolves(db: Db, id: TaskId, now: Time)
    ensures RowsEvolve(db, ReclaimCancellation(db, id, now), None)
  {
    SameRowsEvolve(db, db, None);
    if id in db.tasks && db.tasks[id].status == CANCELING {
      MovedEvolves(db.tasks[id], FAILED, now, None);
      PutEvolves(db, id, Unconfirmed(db.tasks[id], now), None);
    }
    hide Evolves, Unconfirmed;
  }

  lemma ReclaimRecoveryEvolves(db: Db, id: TaskId, now: Time)
    ensures RowsEvolve(db, ReclaimRecovery(db, id, now), None)
  {
  }

  /** The token a transaction may issue. */
  function Issued(e: Event): Option<Token> {
    if e.ClaimEvent? then Some(e.x.token) else None
  }

  lemma StepEvolves(db: Db, window: nat, e: Event)
    ensures RowsEvolve(db, Step(db, window, e), Issued(e))
  {
    hide RowsEvolve, CreateTask, AgentReady, DisconnectTask, InterruptTask, Hello, Claim, Accept, ReportStatus, ReportFailure,
      ReportCanceled, Complete, FailRejectedCompletion, RequestCancellation, ReclaimDispatch, ReclaimCancellation,
      ReclaimRecovery, AddAgent, SetEnabled, SetLiveness;
    match e
    case CreateEvent(id, agentId, interactive, ready, now) => CreateEvolves(db, id, agentId, interactive, ready, now);
    case ReadyEvent(agentId, capable, now) => ReadyEvolves(db, agentId, capable, now);
    case DisconnectEvent(agentId, id, now) => DisconnectEvolves(db, agentId, id, window, now);
    case InterruptEvent(id, phase, connected, now) => InterruptEvolves(db, id, phase, connected, window, now);
    case HelloEvent(agentId, current, capable, now) => HelloEvolves(db, agentId, current, capable, now);
    case ClaimEvent(agentId, requested, x, ready) => ClaimEvolves(db, agentId, requested, x, ready);
    case AcceptEvent(agentId, taskId, token, ready, now) => AcceptEvolves(db, agentId, taskId, token, ready, now);
    case StatusEvent(agentId, taskId, token, status, commit, ready, now) =>
      ReportStatusEvolves(db, agentId, taskId, token, status, commit, ready, now);
    case FailedEvent(agentId, taskId, token, exitCode, ready, now) => ReportFailureEvolves(db, agentId, taskId, token, exitCode, ready, now);
    case CanceledEvent(agentId, taskId, token, ready, now) => ReportCanceledEvolves(db, agentId, taskId, token, ready, now);
    case CompletedEvent(agentId, taskId, token, code, count, bytes, sourceCommit, files, finishedAt, now) =>
      CompleteEvolves(db, agentId, taskId, token, code, count, bytes, sourceCommit, files, finishedAt, now);
    case RejectedEvent(agentId, taskId, token, now) => FailRejectedEvolves(db, agentId, taskId, token, now);
    case CancelEvent(taskId, now) => CancellationEvolves(db, taskId, now);
    case ScanDispatchEvent(id, ready, now) => ReclaimDispatchEvolves(db, id, ready, now);
    case ScanCancellationEvent(id, now) => ReclaimCancellationEvolves(db, id, now);
    case ScanRecoveryEvent(id, now) => ReclaimRecoveryEvolves(db, id, now);
    case AgentEvent(agentId) => AgentRowsEvolve(db, agentId, true, true, true);
    case EnableEvent(agentId, enabled, connected) => AgentRowsEvolve(db, agentId, enabled, connected, true);
    case LivenessEvent(agentId, online) => AgentRowsEvolve(db, agentId, true, true, online);
  }

  lemma CreateEvolves(db: Db, id: TaskId, agentId: AgentId, interactive: bool, ready: bool, now: Time)
    ensures RowsEvolve(db, CreateTask(db, id, agentId, interactive, ready, now).db, None)
  {
  }

  lemma AgentRowsEvolve(db: Db, agentId: AgentId, enabled: bool, connected: bool, online: bool)
    ensures RowsEvolve(db, AddAgent(db, agentId), None)
    ensures RowsEvolve(db, SetEnabled(db, agentId, enabled, connected), None)
    ensures RowsEvolve(db, SetLiveness(db, agentId, online), None)
  {
  }

  /** Over every run a finished task's row never changes again. */
  lemma {:induction false} FinishedForever(db: Db, window: nat, events: seq<Event>, id: TaskId)
    requires id in db.tasks && Terminal(db.tasks[id].status)
    ensures id in Run(db, window, events).tasks && Run(db, window, events).tasks[id] == db.tasks[id]
    decreases |events|
  {
    hide Step, Terminal;
    if events != [] {
      StepEvolves(db, window, events[0]);
      FinishedForever(Step(db, window, events[0]), window, events[1..], id);
    }
  }

  /** Over every run history only grows and a source commit stays what it first was. */
  lemma {:induction false} WrittenOnce(db: Db, window: nat, events: seq<Event>, id: TaskId)
    requires id in db.tasks
    ensures var after := Run(db, window, events);
            && id in after.tasks && db.tasks[id].history <= after.tasks[id].history
            && (db.tasks[id].sourceCommit.Some? ==> after.tasks[id].sourceCommit == db.tasks[id].sourceCommit)
    decreases |events|
  {
    hide Step, LiveToken;
    if events != [] {
      StepEvolves(db, window, events[0]);
      var next := Step(db, window, events[0]);
      WrittenOnce(next, window, events[1..], id);
      var a, b, c := db.tasks[id].history, next.tasks[id].history, Run(next, window, events[1..]).tasks[id].history;
      assert c[..|b|] == b && b[..|a|] == a;
      assert c[..|a|] == a;
    }
  }

  lemma LastIsCurrent(history: seq<Change>, current: Status)
    requires Walk(history, current)
    ensures history != [] && history[|history| - 1].next == current
  {
  }

  lemma RowWalks(db: Db, id: TaskId)
    requires DbOk(db) && id in db.tasks
    ensures Walk(db.tasks[id].history, db.tasks[id].status)
  {
    RowIsOk(db, id);
    hide DbOk, Walk;
  }

  /** A task that was accepted, lost or is being canceled never waits or is dispatched again, on any later run. */
  lemma PastDispatchForever(db: Db, window: nat, events: seq<Event>, id: TaskId)
    requires DbOk(db) && id in db.tasks && PastDispatch(db.tasks[id].status)
    ensures var after := Run(db, window, events);
            id in after.tasks && PastDispatch(after.tasks[id].status)
  {
    hide *;
    var after := Run(db, window, events);
    RunKeeps(db, window, events);
    WrittenOnce(db, window, events, id);
    RowWalks(db, id);
    RowWalks(after, id);
    var t, next := db.tasks[id], after.tasks[id];
    LastIsCurrent(t.history, t.status);
    LastIsCurrent(next.history, next.status);
    StaysPastDispatch(next.history, next.status, |t.history| - 1, |next.history| - 1);
  }
}
