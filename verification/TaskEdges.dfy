/** Why a task is in its status: for every status, exactly which transaction brings a task into it. */
module TaskEdges {
  import opened Options
  import opened TaskStatus
  import opened TaskRows
  import opened TaskClaim
  import opened TaskInvariants
  import opened TaskRuns
  import opened TaskEvolution
  import opened TaskReports
  import opened TaskEffects
  import opened ClaimAnswers

  lemma ClaimRows(t: Task, x: ClaimContext)
    ensures Dispatched(t, x) == After(t, DISPATCHED, x.now).(
                leaseHash := Some(x.token), leaseExpiresAt := Some(x.expiresAt),
                logLeaseHash := Some(x.token), logLeaseExpiresAt := Some(x.expiresAt + 600_000))
    ensures FailedDispatch(t, x.now) == After(After(t, DISPATCHED, x.now), FAILED, x.now).(leaseHash := None, leaseExpiresAt := None)
    ensures Moved(t, WAITING_AGENT, x.now) == After(t, WAITING_AGENT, x.now)
  {
  }

  /** The task a claim asks for, if it asks for one. */
  function Wanted(requested: Option<WireId>): Option<TaskId> {
    if requested.Some? && requested.value.Uuid? then Some(requested.value.id) else None
  }

  // --- The causes ---

  ghost predicate Claims(db: Db, e: Event, id: TaskId) {
    e.ClaimEvent? && MayClaim(db, e.agentId, e.ready) && (e.requested.Some? ==> e.requested.value.Uuid?)
    && InReach(db, e.agentId, Wanted(e.requested), e.x, id)
  }

  ghost predicate Greets(db: Db, e: Event, id: TaskId) {
    e.HelloEvent? && id in db.tasks && e.agentId == db.tasks[id].agentId && e.agentId in db.agents && db.agents[e.agentId].enabled
  }

  /** A hello brings a lost task back into the phase it was lost in. */
  ghost predicate Restored(db: Db, e: Event, id: TaskId, phase: Status) {
    Greets(db, e, id) && db.tasks[id].status == AGENT_LOST && Continues(db.tasks[id], id, e.current, e.capable, e.now)
    && e.current.value.status == phase
  }

  ghost predicate Accepted(db: Db, e: Event, id: TaskId) {
    e.AcceptEvent? && e.ready && Live(db, e.agentId, e.taskId, e.token, e.now, id) && db.tasks[id].status == DISPATCHED
  }

  ghost predicate Advanced(db: Db, e: Event, id: TaskId, phase: Status) {
    e.StatusEvent? && e.ready && Live(db, e.agentId, e.taskId, e.token, e.now, id) && CommitFits(db.tasks[id], e.commit)
    && e.status == phase && Follows(db.tasks[id], phase)
  }

  ghost predicate Completed(db: Db, e: Event, id: TaskId) {
    e.CompletedEvent? && e.code == 0 && Live(db, e.agentId, e.taskId, e.token, e.now, id)
    && db.tasks[id].status == UPLOADING && AllArrived(e.files, e.count, e.bytes)
  }

  ghost predicate CanceledBy(db: Db, e: Event, id: TaskId)
    requires id in db.tasks
  {
    || (e.CancelEvent? && e.taskId == Uuid(id) && (db.tasks[id].status == WAITING_AGENT || db.tasks[id].status == QUEUED))
    || (e.CanceledEvent? && e.ready && e.taskId == Uuid(id) && db.tasks[id].agentId == e.agentId
        && db.tasks[id].status == CANCELING && db.tasks[id].leaseHash == Some(e.token))
  }

  ghost predicate LostBy(db: Db, e: Event, id: TaskId)
    requires id in db.tasks
  {
    Phased(db.tasks[id].status)
    && ((e.DisconnectEvent? && e.id == id && e.agentId == db.tasks[id].agentId)
        || (e.InterruptEvent? && e.id == id && e.phase == db.tasks[id].status))
  }

  ghost predicate FailedBy(db: Db, e: Event, id: TaskId)
    requires id in db.tasks
  {
    var t := db.tasks[id];
    || (e.FailedEvent? && e.ready && (e.exitCode.Some? ==> -0x8000_0000 <= e.exitCode.value < 0x8000_0000)
        && Live(db, e.agentId, e.taskId, e.token, e.now, id) && (Phased(t.status) || t.status == CANCELING))
    || (e.RejectedEvent? && e.taskId == Uuid(id) && t.agentId == e.agentId && t.status == UPLOADING
        && t.leaseHash == Some(e.token) && t.leaseExpiresAt.Some? && e.now < t.leaseExpiresAt.value)
    || (Greets(db, e, id) && Occupies(t) && !Continues(t, id, e.current, e.capable, e.now))
    || (e.ScanCancellationEvent? && e.id == id && t.status == CANCELING
        && t.cancelRequestedAt.Some? && e.now - t.cancelRequestedAt.value > 30_000)
    || (e.ScanRecoveryEvent? && e.id == id && t.status == AGENT_LOST && t.recoveryDeadlineAt.Some? && e.now >= t.recoveryDeadlineAt.value)
    || (Claims(db, e, id) && Hopeless(db, id, e.x))
  }

  ghost predicate Unconfirmed(db: Db, e: Event, id: TaskId)
    requires id in db.tasks
  {
    e.ScanDispatchEvent? && e.id == id && db.tasks[id].status == DISPATCHED && e.now - db.tasks[id].updatedAt > 30_000
  }

  ghost predicate Online(db: Db, agentId: AgentId, ready: bool) {
    agentId in db.agents && db.agents[agentId].enabled && db.agents[agentId].status == ONLINE && ready
  }

  ghost predicate QueuedBy(db: Db, e: Event, id: TaskId)
    requires id in db.tasks
  {
    var t := db.tasks[id];
    || (e.ReadyEvent? && e.agentId == t.agentId && Online(db, e.agentId, true) && db.agents[e.agentId].activeTaskId.None?
        && t.status == WAITING_AGENT && (t.interactive ==> e.capable))
    || (Unconfirmed(db, e, id) && Online(db, t.agentId, e.ready))
  }

  ghost predicate SentToWait(db: Db, e: Event, id: TaskId)
    requires id in db.tasks
  {
    var t := db.tasks[id];
    || (e.DisconnectEvent? && e.id == id && e.agentId == t.agentId && (t.status == QUEUED || t.status == DISPATCHED))
    || (Unconfirmed(db, e, id) && !Online(db, t.agentId, e.ready))
    || (Claims(db, e, id) && !Hopeless(db, id, e.x) && t.interactive && !e.x.capable)
  }

  /** The status a transaction leaves a task in. */
  ghost function StatusAfter(db: Db, e: Event, id: TaskId): Status
    requires id in db.tasks
  {
    var t := db.tasks[id];
    if Accepted(db, e, id) || Restored(db, e, id, PREPARING) then PREPARING
    else if Advanced(db, e, id, RUNNING) || Restored(db, e, id, RUNNING) then RUNNING
    else if Advanced(db, e, id, UPLOADING) || Restored(db, e, id, UPLOADING) then UPLOADING
    else if Completed(db, e, id) then SUCCEEDED
    else if CanceledBy(db, e, id) then CANCELED
    else if e.CancelEvent? && e.taskId == Uuid(id) && Occupies(t) then CANCELING
    else if LostBy(db, e, id) then AGENT_LOST
    else if FailedBy(db, e, id) then FAILED
    else if Claims(db, e, id) && !Hopeless(db, id, e.x) && (t.interactive ==> e.x.capable) then DISPATCHED
    else if QueuedBy(db, e, id) then QUEUED
    else if SentToWait(db, e, id) then WAITING_AGENT
    else t.status
  }

  // --- Transaction by transaction ---

  lemma AcceptStatus(db: Db, window: nat, e: Event, id: TaskId)
    requires DbOk(db) && id in db.tasks && (e.AcceptEvent?)
    ensures id in Step(db, window, e).tasks && Step(db, window, e).tasks[id].status == StatusAfter(db, e, id)
  {
    hide DbOk, Accept, ReportStatus, ReportFailure, ReportCanceled, Complete, FailRejectedCompletion, RequestCancellation, ReclaimDispatch, ReclaimCancellation, ReclaimRecovery, DisconnectTask, InterruptTask, Hello, Claim, AgentReady, CreateTask, Live, InReach, Hopeless, Continues, CommitFits, AllArrived, MayClaim, Recorded;
    AcceptEffect(db, e.agentId, e.taskId, e.token, e.ready, e.now, id);
  }

  lemma ReportedStatus(db: Db, window: nat, e: Event, id: TaskId)
    requires DbOk(db) && id in db.tasks && (e.StatusEvent?)
    ensures id in Step(db, window, e).tasks && Step(db, window, e).tasks[id].status == StatusAfter(db, e, id)
  {
    hide DbOk, Accept, ReportStatus, ReportFailure, ReportCanceled, Complete, FailRejectedCompletion, RequestCancellation, ReclaimDispatch, ReclaimCancellation, ReclaimRecovery, DisconnectTask, InterruptTask, Hello, Claim, AgentReady, CreateTask, Live, InReach, Hopeless, Continues, CommitFits, AllArrived, MayClaim, Recorded, Follows;
    StatusEffect(db, e.agentId, e.taskId, e.token, e.status, e.commit, e.ready, e.now, id);
    FollowsIs(db.tasks[id], e.status);
  }

  lemma FailureStatus(db: Db, window: nat, e: Event, id: TaskId)
    requires DbOk(db) && id in db.tasks && (e.FailedEvent?)
    ensures id in Step(db, window, e).tasks && Step(db, window, e).tasks[id].status == StatusAfter(db, e, id)
  {
    hide DbOk, Accept, ReportStatus, ReportFailure, ReportCanceled, Complete, FailRejectedCompletion, RequestCancellation, ReclaimDispatch, ReclaimCancellation, ReclaimRecovery, DisconnectTask, InterruptTask, Hello, Claim, AgentReady, CreateTask, Live, InReach, Hopeless, Continues, CommitFits, AllArrived, MayClaim, Recorded;
    FailureEffect(db, e.agentId, e.taskId, e.token, e.exitCode, e.ready, e.now, id);
  }

  lemma CanceledStatus(db: Db, window: nat, e: Event, id: TaskId)
    requires DbOk(db) && id in db.tasks && (e.CanceledEvent?)
    ensures id in Step(db, window, e).tasks && Step(db, window, e).tasks[id].status == StatusAfter(db, e, id)
  {
    hide DbOk, Accept, ReportStatus, ReportFailure, ReportCanceled, Complete, FailRejectedCompletion, RequestCancellation, ReclaimDispatch, ReclaimCancellation, ReclaimRecovery, DisconnectTask, InterruptTask, Hello, Claim, AgentReady, CreateTask, Live, InReach, Hopeless, Continues, CommitFits, AllArrived, MayClaim, Recorded;
    CanceledEffect(db, e.agentId, e.taskId, e.token, e.ready, e.now, id);
  }

  lemma CompletedStatus(db: Db, window: nat, e: Event, id: TaskId)
    requires DbOk(db) && id in db.tasks && (e.CompletedEvent?)
    ensures id in Step(db, window, e).tasks && Step(db, window, e).tasks[id].status == StatusAfter(db, e, id)
  {
    hide DbOk, Accept, ReportStatus, ReportFailure, ReportCanceled, Complete, FailRejectedCompletion, RequestCancellation, ReclaimDispatch, ReclaimCancellation, ReclaimRecovery, DisconnectTask, InterruptTask, Hello, Claim, AgentReady, CreateTask, Live, InReach, Hopeless, Continues, CommitFits, AllArrived, MayClaim, Recorded;
    CompletedEffect(db, e.agentId, e.taskId, e.token, e.code, e.count, e.bytes, e.sourceCommit, e.files, e.finishedAt, e.now, id);
  }

  lemma RejectedStatus(db: Db, window: nat, e: Event, id: TaskId)
    requires DbOk(db) && id in db.tasks && (e.RejectedEvent?)
    ensures id in Step(db, window, e).tasks && Step(db, window, e).tasks[id].status == StatusAfter(db, e, id)
  {
    hide DbOk, Accept, ReportStatus, ReportFailure, ReportCanceled, Complete, FailRejectedCompletion, RequestCancellation, ReclaimDispatch, ReclaimCancellation, ReclaimRecovery, DisconnectTask, InterruptTask, Hello, Claim, AgentReady, CreateTask, Live, InReach, Hopeless, Continues, CommitFits, AllArrived, MayClaim, Recorded;
    RejectedEffect(db, e.agentId, e.taskId, e.token, e.now, id);
  }

  lemma CancelStatus(db: Db, window: nat, e: Event, id: TaskId)
    requires DbOk(db) && id in db.tasks && (e.CancelEvent?)
    ensures id in Step(db, window, e).tasks && Step(db, window, e).tasks[id].status == StatusAfter(db, e, id)
  {
    hide DbOk, Accept, ReportStatus, ReportFailure, ReportCanceled, Complete, FailRejectedCompletion, RequestCancellation, ReclaimDispatch, ReclaimCancellation, ReclaimRecovery, DisconnectTask, InterruptTask, Hello, Claim, AgentReady, CreateTask, Live, InReach, Hopeless, Continues, CommitFits, AllArrived, MayClaim, Recorded;
    CancelEffect(db, e.taskId, e.now, id);
    SlotFacts(db, id);
  }

  lemma DispatchScanStatus(db: Db, window: nat, e: Event, id: TaskId)
    requires DbOk(db) && id in db.tasks && (e.ScanDispatchEvent?)
    ensures id in Step(db, window, e).tasks && Step(db, window, e).tasks[id].status == StatusAfter(db, e, id)
  {
    hide DbOk, Accept, ReportStatus, ReportFailure, ReportCanceled, Complete, FailRejectedCompletion, RequestCancellation, ReclaimDispatch, ReclaimCancellation, ReclaimRecovery, DisconnectTask, InterruptTask, Hello, Claim, AgentReady, CreateTask, Live, InReach, Hopeless, Continues, CommitFits, AllArrived, MayClaim, Recorded;
    DispatchScanEffect(db, e.id, e.ready, e.now, id);
  }

  lemma ScanStatus(db: Db, window: nat, e: Event, id: TaskId)
    requires DbOk(db) && id in db.tasks && (e.ScanCancellationEvent? || e.ScanRecoveryEvent?)
    ensures id in Step(db, window, e).tasks && Step(db, window, e).tasks[id].status == StatusAfter(db, e, id)
  {
    hide DbOk, Accept, ReportStatus, ReportFailure, ReportCanceled, Complete, FailRejectedCompletion, RequestCancellation, ReclaimDispatch, ReclaimCancellation, ReclaimRecovery, DisconnectTask, InterruptTask, Hello, Claim, AgentReady, CreateTask, Live, InReach, Hopeless, Continues, CommitFits, AllArrived, MayClaim, Recorded;
    if e.ScanCancellationEvent? {
      CancellationScanEffect(db, e.id, e.now, id);
    } else {
      RecoveryScanEffect(db, e.id, e.now, id);
    }
  }

  lemma LossStatus(db: Db, window: nat, e: Event, id: TaskId)
    requires DbOk(db) && id in db.tasks && (e.DisconnectEvent? || e.InterruptEvent?)
    ensures id in Step(db, window, e).tasks && Step(db, window, e).tasks[id].status == StatusAfter(db, e, id)
  {
    hide DbOk, Accept, ReportStatus, ReportFailure, ReportCanceled, Complete, FailRejectedCompletion, RequestCancellation, ReclaimDispatch, ReclaimCancellation, ReclaimRecovery, DisconnectTask, InterruptTask, Hello, Claim, AgentReady, CreateTask, Live, InReach, Hopeless, Continues, CommitFits, AllArrived, MayClaim, Recorded;
    if e.DisconnectEvent? {
      DisconnectEffect(db, e.agentId, e.id, window, e.now, id);
    } else {
      InterruptEffect(db, e.id, e.phase, e.connected, window, e.now, id);
    }
  }

  lemma ReadyStatus(db: Db, window: nat, e: Event, id: TaskId)
    requires DbOk(db) && id in db.tasks && (e.ReadyEvent?)
    ensures id in Step(db, window, e).tasks && Step(db, window, e).tasks[id].status == StatusAfter(db, e, id)
  {
    hide DbOk, Accept, ReportStatus, ReportFailure, ReportCanceled, Complete, FailRejectedCompletion, RequestCancellation, ReclaimDispatch, ReclaimCancellation, ReclaimRecovery, DisconnectTask, InterruptTask, Hello, Claim, AgentReady, CreateTask, Live, InReach, Hopeless, Continues, CommitFits, AllArrived, MayClaim, Recorded;
    ReadyEffect(db, e.agentId, e.capable, e.now, id);
  }

  lemma ClaimStatus(db: Db, window: nat, e: Event, id: TaskId)
    requires DbOk(db) && id in db.tasks && (e.ClaimEvent?)
    ensures id in Step(db, window, e).tasks && Step(db, window, e).tasks[id].status == StatusAfter(db, e, id)
  {
    hide DbOk, Accept, ReportStatus, ReportFailure, ReportCanceled, Complete, FailRejectedCompletion, RequestCancellation, ReclaimDispatch, ReclaimCancellation, ReclaimRecovery, DisconnectTask, InterruptTask, Hello, Claim, AgentReady, CreateTask, Live, InReach, Hopeless, Continues, CommitFits, AllArrived, MayClaim, Recorded, FailedDispatch, Dispatched, Moved;
    ClaimEffect(db, e.agentId, e.requested, e.x, e.ready, id);
    ClaimRows(db.tasks[id], e.x);
  }

  lemma HelloStatus(db: Db, window: nat, e: Event, id: TaskId)
    requires DbOk(db) && id in db.tasks && (e.HelloEvent?)
    ensures id in Step(db, window, e).tasks && Step(db, window, e).tasks[id].status == StatusAfter(db, e, id)
  {
    hide DbOk, Accept, ReportStatus, ReportFailure, ReportCanceled, Complete, FailRejectedCompletion, RequestCancellation, ReclaimDispatch, ReclaimCancellation, ReclaimRecovery, DisconnectTask, InterruptTask, Hello, Claim, AgentReady, CreateTask, Live, InReach, Hopeless, Continues, CommitFits, AllArrived, MayClaim, Recorded, Unlost, Ended, Continued;
    HelloRow(db, e.agentId, e.current, e.capable, e.now, id);
    SlotFacts(db, id);
    if Continues(db.tasks[id], id, e.current, e.capable, e.now) {
      ContinuesPhase(db, id, e.current, e.capable, e.now);
    }
    HelloRowStatus(db.tasks[id], if e.current.Some? then e.current.value.status else FAILED, e.now);
  }

  lemma OtherRows(db: Db, window: nat, e: Event, id: TaskId)
    requires id in db.tasks && (e.CreateEvent? || e.AgentEvent? || e.EnableEvent? || e.LivenessEvent?)
    ensures id in Step(db, window, e).tasks && Step(db, window, e).tasks[id] == db.tasks[id]
  {
    hide NewTask, Accept, ReportStatus, ReportFailure, ReportCanceled, Complete, FailRejectedCompletion, RequestCancellation, ReclaimDispatch,
      ReclaimCancellation, ReclaimRecovery, DisconnectTask, InterruptTask, Hello, Claim, AgentReady;
  }

  lemma OtherCauses(db: Db, e: Event, id: TaskId)
    requires id in db.tasks && (e.CreateEvent? || e.AgentEvent? || e.EnableEvent? || e.LivenessEvent?)
    ensures StatusAfter(db, e, id) == db.tasks[id].status
  {
    hide Live, InReach, Hopeless, Continues, CommitFits, AllArrived, MayClaim;
  }

  lemma OtherStatus(db: Db, window: nat, e: Event, id: TaskId)
    requires id in db.tasks && (e.CreateEvent? || e.AgentEvent? || e.EnableEvent? || e.LivenessEvent?)
    ensures id in Step(db, window, e).tasks && Step(db, window, e).tasks[id].status == StatusAfter(db, e, id)
  {
    hide Step, StatusAfter;
    OtherRows(db, window, e, id);
    OtherCauses(db, e, id);
  }

  lemma FollowsIs(t: Task, status: Status)
    ensures Follows(t, status) <==> (status == RUNNING && t.status == PREPARING) || (status == UPLOADING && t.status == RUNNING)
  {
  }

  lemma HelloRowStatus(t: Task, phase: Status, now: Time)
    ensures Unlost(Ended(t, FAILED, now, now)).status == FAILED
    ensures Continued(t, phase, now).status == if t.status == AGENT_LOST then phase else t.status
  {
  }

  // --- All transactions ---

  /** Any transaction leaves any task in the status its cause says. */
  lemma StatusIsDecided(db: Db, window: nat, e: Event, id: TaskId)
    requires DbOk(db) && id in db.tasks
    ensures id in Step(db, window, e).tasks && Step(db, window, e).tasks[id].status == StatusAfter(db, e, id)
  {
    hide DbOk, Step, StatusAfter;
    match e
    case CreateEvent(_, _, _, _, _) => OtherStatus(db, window, e, id);
    case ReadyEvent(_, _, _) => ReadyStatus(db, window, e, id);
    case DisconnectEvent(_, _, _) => LossStatus(db, window, e, id);
    case InterruptEvent(_, _, _, _) => LossStatus(db, window, e, id);
    case HelloEvent(_, _, _, _) => HelloStatus(db, window, e, id);
    case ClaimEvent(_, _, _, _) => ClaimStatus(db, window, e, id);
    case AcceptEvent(_, _, _, _, _) => AcceptStatus(db, window, e, id);
    case StatusEvent(_, _, _, _, _, _, _) => ReportedStatus(db, window, e, id);
    case FailedEvent(_, _, _, _, _, _) => FailureStatus(db, window, e, id);
    case CanceledEvent(_, _, _, _, _) => CanceledStatus(db, window, e, id);
    case CompletedEvent(_, _, _, _, _, _, _, _, _, _) => CompletedStatus(db, window, e, id);
    case RejectedEvent(_, _, _, _) => RejectedStatus(db, window, e, id);
    case CancelEvent(_, _) => CancelStatus(db, window, e, id);
    case ScanDispatchEvent(_, _, _) => DispatchScanStatus(db, window, e, id);
    case ScanCancellationEvent(_, _) => ScanStatus(db, window, e, id);
    case ScanRecoveryEvent(_, _) => ScanStatus(db, window, e, id);
    case AgentEvent(_) => OtherStatus(db, window, e, id);
    case EnableEvent(_, _, _) => OtherStatus(db, window, e, id);
    case LivenessEvent(_, _) => OtherStatus(db, window, e, id);
  }

  lemma EndCauses(db: Db, e: Event, id: TaskId)
    requires id in db.tasks && db.tasks[id].status !in {SUCCEEDED, FAILED, CANCELED}
    ensures StatusAfter(db, e, id) == SUCCEEDED <==> Completed(db, e, id)
    ensures StatusAfter(db, e, id) == CANCELED <==> CanceledBy(db, e, id)
    ensures StatusAfter(db, e, id) == FAILED <==> FailedBy(db, e, id)
  {
    hide Live, InReach, Hopeless, Continues, CommitFits, AllArrived, MayClaim, Online, Unconfirmed;
  }

  /** A task ends in exactly these ways: it succeeds exactly by a completion with everything uploaded, is canceled
      exactly while it has no slot or by its agent's confirmation, and fails exactly for one of six causes. */
  lemma EndsExactly(db: Db, window: nat, e: Event, id: TaskId)
    requires DbOk(db) && id in db.tasks && db.tasks[id].status !in {SUCCEEDED, FAILED, CANCELED}
    ensures id in Step(db, window, e).tasks
    ensures Step(db, window, e).tasks[id].status == SUCCEEDED <==> Completed(db, e, id)
    ensures Step(db, window, e).tasks[id].status == CANCELED <==> CanceledBy(db, e, id)
    ensures Step(db, window, e).tasks[id].status == FAILED <==> FailedBy(db, e, id)
  {
    StatusIsDecided(db, window, e, id);
    EndCauses(db, e, id);
    hide DbOk, Step, StatusAfter, Completed, CanceledBy, FailedBy;
  }

  /** The i-th event of a run from empty tables completes the task. */
  ghost predicate CompletedAt(window: nat, events: seq<Event>, i: nat, id: TaskId) {
    i < |events| && id in Run(EMPTY, window, events[..i]).tasks && Completed(Run(EMPTY, window, events[..i]), events[i], id)
  }

  ghost predicate Succeeded(db: Db, id: TaskId) {
    id in db.tasks && db.tasks[id].status == SUCCEEDED
  }

  lemma NewIsNotSucceeded(db: Db, window: nat, e: Event, id: TaskId)
    requires id !in db.tasks
    ensures !Succeeded(Step(db, window, e), id)
  {
    StepEvolves(db, window, e);
    hide Step, Evolves;
  }

  lemma PrefixRun(window: nat, events: seq<Event>, n: nat)
    requires n < |events|
    ensures Run(EMPTY, window, events[..n + 1]) == Step(Run(EMPTY, window, events[..n]), window, events[n])
    ensures DbOk(Run(EMPTY, window, events[..n]))
  {
    hide Step, DbOk;
    assert events[..n + 1] == events[..n] + [events[n]];
    RunSnoc(EMPTY, window, events[..n], events[n]);
    EmptyIsOk();
    RunKeeps(EMPTY, window, events[..n]);
  }

  ghost predicate CompletedBefore(window: nat, events: seq<Event>, n: nat, id: TaskId) {
    exists i :: 0 <= i < n && CompletedAt(window, events, i, id)
  }

  lemma CompletedBeforeStep(window: nat, events: seq<Event>, n: nat, id: TaskId)
    ensures !CompletedBefore(window, events, 0, id)
    ensures CompletedBefore(window, events, n + 1, id) <==> CompletedBefore(window, events, n, id) || CompletedAt(window, events, n, id)
  {
    hide CompletedAt;
  }

  lemma CompletedAtIs(window: nat, events: seq<Event>, n: nat, id: TaskId)
    requires n < |events|
    ensures var db := Run(EMPTY, window, events[..n]);
            CompletedAt(window, events, n, id) <==> id in db.tasks && Completed(db, events[n], id)
  {
    hide Run, Completed;
  }

  lemma NothingSucceeded(id: TaskId)
    ensures !Succeeded(EMPTY, id)
  {
  }

  lemma NoEvents(window: nat, events: seq<Event>)
    ensures Run(EMPTY, window, events[..0]) == EMPTY
  {
    assert events[..0] == [];
  }

  /** Over every run: a task has succeeded exactly if some event of the run completed it. */
  lemma {:induction false} SucceededExactly(window: nat, events: seq<Event>, n: nat, id: TaskId)
    requires n <= |events|
    ensures Succeeded(Run(EMPTY, window, events[..n]), id) <==> CompletedBefore(window, events, n, id)
    decreases n
  {
    hide *;
    if n == 0 {
      NoEvents(window, events);
      NothingSucceeded(id);
      CompletedBeforeStep(window, events, 0, id);
    } else {
      SucceededExactly(window, events, n - 1, id);
      PrefixRun(window, events, n - 1);
      SucceededStep(Run(EMPTY, window, events[..n - 1]), window, events[n - 1], id);
      CompletedAtIs(window, events, n - 1, id);
      CompletedBeforeStep(window, events, n - 1, id);
    }
  }

  lemma EndedStays(db: Db, window: nat, e: Event, id: TaskId)
    requires id in db.tasks && db.tasks[id].status in {SUCCEEDED, FAILED, CANCELED}
    ensures id in Step(db, window, e).tasks && Step(db, window, e).tasks[id] == db.tasks[id]
  {
    StepEvolves(db, window, e);
    hide Step, LiveToken;
  }

  lemma OnlyUploading(db: Db, e: Event, id: TaskId)
    requires id in db.tasks && Completed(db, e, id)
    ensures db.tasks[id].status == UPLOADING
  {
  }

  lemma SucceededIs(db: Db, id: TaskId)
    ensures Succeeded(db, id) <==> id in db.tasks && db.tasks[id].status == SUCCEEDED
  {
  }

  lemma SucceededStep(db: Db, window: nat, e: Event, id: TaskId)
    requires DbOk(db)
    ensures Succeeded(Step(db, window, e), id) <==> Succeeded(db, id) || (id in db.tasks && Completed(db, e, id))
  {
    hide *;
    SucceededIs(db, id);
    SucceededIs(Step(db, window, e), id);
    if id !in db.tasks {
      NewIsNotSucceeded(db, window, e, id);
    } else if db.tasks[id].status in {SUCCEEDED, FAILED, CANCELED} {
      EndedStays(db, window, e, id);
      if Completed(db, e, id) {
        OnlyUploading(db, e, id);
      }
    } else {
      EndsExactly(db, window, e, id);
    }
  }
}
