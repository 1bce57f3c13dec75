/** Runs of transactions, and what holds over every run. */
module TaskRuns {
  import opened Options
  import opened TaskStatus
  import opened TaskRows
  import opened TaskClaim
  import opened TaskInvariants

  // --- Hello and claim keep the invariants ---

  lemma ResumeKeeps(db: Db, agentId: AgentId, id: TaskId, now: Time)
    requires DbOk(db) && Active(db, agentId, id) && db.tasks[id].status == AGENT_LOST
    ensures var t := db.tasks[id];
            t.recoveryStatus.Some? && DbOk(Put(db, id, Recovered(Moved(t, t.recoveryStatus.value, now))))
  {
    RowIsOk(db, id);
    hide DbOk;
    var t := db.tasks[id];
    MovedWalks(t, t.recoveryStatus.value, now);
    hide Walk;
    PutKeeps(db, id, Recovered(Moved(t, t.recoveryStatus.value, now)));
  }

  ghost predicate Reconciled(db: Db, agentId: AgentId, r: HelloTx)
    requires agentId in db.agents
  {
    && DbOk(r.db) && agentId in r.db.agents
    && r.db.agents[agentId].activeTaskId == Kept(r.decision)
    && r.db.agents[agentId].enabled == db.agents[agentId].enabled
  }

  lemma OrphanReconciles(db: Db, agentId: AgentId, decision: Option<Decision>, now: Time)
    requires DbOk(db) && agentId in db.agents && Kept(decision).None?
    ensures var active := db.agents[agentId].activeTaskId;
            var orphan := if active.Some? then FailOrphan(db, agentId, active.value, now) else db;
            Reconciled(db, agentId, HelloTx(orphan, decision))
  {
    var active := db.agents[agentId].activeTaskId;
    if active.Some? {
      hide DbOk, FailOrphan;
      FailOrphanKeeps(db, agentId, active.value, now);
    }
  }

  lemma DecisionReconciles(db: Db, agentId: AgentId, id: TaskId, current: Option<CurrentTask>, capable: bool, now: Time)
    requires DbOk(db) && Resumable(db, agentId, id, now)
    ensures Reconciled(db, agentId, Resume(db, FailOrphan(db, agentId, id, now), agentId, id, current, capable, now))
  {
    var t := db.tasks[id];
    OrphanReconciles(db, agentId, None, now);
    OrphanReconciles(db, agentId, Some(Decision(id, ABANDON)), now);
    if t.status == AGENT_LOST {
      ResumeKeeps(db, agentId, id, now);
    }
    hide DbOk, FailOrphan, Moved, Recovered;
  }

  /** After the reconciliation the agent's pointer is right already: the write that follows repeats it. */
  lemma ReconcileKeeps(db: Db, agentId: AgentId, current: Option<CurrentTask>, capable: bool, now: Time)
    requires DbOk(db) && agentId in db.agents
    ensures Reconciled(db, agentId, ReconcileHello(db, agentId, current, capable, now))
  {
    OrphanReconciles(db, agentId, None, now);
    if current.Some? && current.value.taskId.Uuid? {
      OrphanReconciles(db, agentId, Some(Decision(current.value.taskId.id, ABANDON)), now);
    }
    var active := db.agents[agentId].activeTaskId;
    if current.Some? || active.Some? {
      var wire := if current.Some? then current.value.taskId else Uuid(active.value);
      if wire.Uuid? && Resumable(db, agentId, wire.id, now) {
        DecisionReconciles(db, agentId, wire.id, current, capable, now);
      }
    }
    hide DbOk, FailOrphan, Resume;
  }

  lemma HelloKeeps(db: Db, agentId: AgentId, current: Option<CurrentTask>, capable: bool, now: Time)
    requires DbOk(db)
    ensures DbOk(Hello(db, agentId, current, capable, now).db)
  {
    if agentId in db.agents && db.agents[agentId].enabled {
      ReconcileKeeps(db, agentId, current, capable, now);
      var r := ReconcileHello(db, agentId, current, capable, now);
      hide DbOk, ReconcileHello;
      StatusKeeps(r.db, agentId, ONLINE);
      assert Point(r.db, agentId, Kept(r.decision)) == r.db;
    }
  }

  lemma FailedDispatchKeeps(db: Db, id: TaskId, now: Time)
    requires DbOk(db) && id in db.tasks && db.tasks[id].status == QUEUED
    ensures DbOk(Put(db, id, FailedDispatch(db.tasks[id], now)))
  {
    RowIsOk(db, id);
    hide DbOk;
    var t := db.tasks[id];
    MovedWalks(t, DISPATCHED, now);
    MovedWalks(Moved(t, DISPATCHED, now), FAILED, now);
    hide Walk;
    PutKeeps(db, id, FailedDispatch(t, now));
  }

  lemma DispatchKeeps(db: Db, agentId: AgentId, id: TaskId, x: ClaimContext)
    requires DbOk(db) && Known(db, agentId, id) && db.agents[agentId].activeTaskId.None? && db.tasks[id].status == QUEUED
    ensures DbOk(Point(Put(db, id, Dispatched(db.tasks[id], x)), agentId, Some(id)))
  {
    RowIsOk(db, id);
    hide DbOk;
    var t := db.tasks[id];
    MovedWalks(t, DISPATCHED, x.now);
    hide Walk;
    OccupyKeeps(db, agentId, id, Dispatched(t, x));
  }

  lemma SentBackKeeps(db: Db, id: TaskId, now: Time)
    requires DbOk(db) && id in db.tasks && db.tasks[id].status == QUEUED
    ensures DbOk(Put(db, id, Moved(db.tasks[id], WAITING_AGENT, now)))
  {
    RowIsOk(db, id);
    hide DbOk, RowOk;
    WaitingIsOk(db.tasks[id], now);
    PutKeeps(db, id, Moved(db.tasks[id], WAITING_AGENT, now));
  }

  lemma CandidateIsKnown(db: Db, agentId: AgentId, requested: Option<TaskId>, id: TaskId)
    requires agentId in db.agents && First(db, agentId, requested, id)
    ensures Known(db, agentId, id) && db.tasks[id].status == QUEUED
  {
  }

  lemma {:induction false} ClaimLoopKeeps(db: Db, agentId: AgentId, requested: Option<TaskId>, x: ClaimContext, attempts: nat)
    requires DbOk(db) && agentId in db.agents && db.agents[agentId].activeTaskId.None?
    ensures DbOk(ClaimLoop(db, agentId, requested, x, attempts).db)
    decreases attempts
  {
    hide DbOk, First;
    if attempts > 0 && exists id :: First(db, agentId, requested, id) {
      var id :| First(db, agentId, requested, id);
      hide ClaimLoop;
      ClaimTurn(db, agentId, requested, x, attempts, id);
      CandidateIsKnown(db, agentId, requested, id);
      hide FailedDispatch, Dispatched, Moved;
      FailedDispatchKeeps(db, id, x.now);
      ClaimLoopKeeps(Put(db, id, FailedDispatch(db.tasks[id], x.now)), agentId, requested, x, attempts - 1);
      SentBackKeeps(db, id, x.now);
      DispatchKeeps(db, agentId, id, x);
    }
  }

  lemma ClaimKeeps(db: Db, agentId: AgentId, requested: Option<WireId>, x: ClaimContext, ready: bool)
    requires DbOk(db)
    ensures DbOk(Claim(db, agentId, requested, x, ready).db)
  {
    hide DbOk, ClaimLoop;
    if agentId in db.agents && db.agents[agentId].activeTaskId.None? {
      var id := if requested.Some? && requested.value.Uuid? then Some(requested.value.id) else None;
      ClaimLoopKeeps(db, agentId, id, x, MAX_CLAIM_VALIDATION_SKIPS);
    }
  }

  // --- Runs ---

  /** One transaction with its inputs. */
  datatype Event =
    | CreateEvent(id: TaskId, agentId: AgentId, interactive: bool, ready: bool, now: Time)
    | ReadyEvent(agentId: AgentId, capable: bool, now: Time)
    | DisconnectEvent(agentId: AgentId, id: TaskId, now: Time)
    | InterruptEvent(id: TaskId, phase: Status, connected: bool, now: Time)
    | HelloEvent(agentId: AgentId, current: Option<CurrentTask>, capable: bool, now: Time)
    | ClaimEvent(agentId: AgentId, requested: Option<WireId>, x: ClaimContext, ready: bool)
    | AcceptEvent(agentId: AgentId, taskId: WireId, token: Token, ready: bool, now: Time)
    | StatusEvent(agentId: AgentId, taskId: WireId, token: Token, status: Status, commit: WireCommit, ready: bool, now: Time)
    | FailedEvent(agentId: AgentId, taskId: WireId, token: Token, exitCode: Option<int>, ready: bool, now: Time)
    | CanceledEvent(agentId: AgentId, taskId: WireId, token: Token, ready: bool, now: Time)
    | CompletedEvent(agentId: AgentId, taskId: WireId, token: Token, code: int, count: nat, bytes: nat,
                     sourceCommit: Option<string>, files: seq<Artifact>, finishedAt: Time, now: Time)
    | RejectedEvent(agentId: AgentId, taskId: WireId, token: Token, now: Time)
    | CancelEvent(taskId: WireId, now: Time)
    | ScanDispatchEvent(id: TaskId, ready: bool, now: Time)
    | ScanCancellationEvent(id: TaskId, now: Time)
    | ScanRecoveryEvent(id: TaskId, now: Time)
    | AgentEvent(agentId: AgentId)
    | EnableEvent(agentId: AgentId, enabled: bool, connected: bool)
    | LivenessEvent(agentId: AgentId, online: bool)

  /** `window` is the recovery window. */
  ghost function Step(db: Db, window: nat, e: Event): Db {
    match e
    case CreateEvent(id, agentId, interactive, ready, now) => CreateTask(db, id, agentId, interactive, ready, now).db
    case ReadyEvent(agentId, capable, now) => AgentReady(db, agentId, capable, now)
    case DisconnectEvent(agentId, id, now) => DisconnectTask(db, agentId, id, window, now)
    case InterruptEvent(id, phase, connected, now) => InterruptTask(db, id, phase, connected, window, now)
    case HelloEvent(agentId, current, capable, now) => Hello(db, agentId, current, capable, now).db
    case ClaimEvent(agentId, requested, x, ready) => Claim(db, agentId, requested, x, ready).db
    case AcceptEvent(agentId, taskId, token, ready, now) => Accept(db, agentId, taskId, token, ready, now).db
    case StatusEvent(agentId, taskId, token, status, commit, ready, now) =>
      ReportStatus(db, agentId, taskId, token, status, commit, ready, now).db
    case FailedEvent(agentId, taskId, token, exitCode, ready, now) => ReportFailure(db, agentId, taskId, token, exitCode, ready, now).db
    case CanceledEvent(agentId, taskId, token, ready, now) => ReportCanceled(db, agentId, taskId, token, ready, now).db
    case CompletedEvent(agentId, taskId, token, code, count, bytes, sourceCommit, files, finishedAt, now) =>
      Complete(db, agentId, taskId, token, code, count, bytes, sourceCommit, files, finishedAt, now).db
    case RejectedEvent(agentId, taskId, token, now) => FailRejectedCompletion(db, agentId, taskId, token, now)
    case CancelEvent(taskId, now) => RequestCancellation(db, taskId, now).db
    case ScanDispatchEvent(id, ready, now) => ReclaimDispatch(db, id, ready, now)
    case ScanCancellationEvent(id, now) => ReclaimCancellation(db, id, now)
    case ScanRecoveryEvent(id, now) => ReclaimRecovery(db, id, now)
    case AgentEvent(agentId) => AddAgent(db, agentId)
    case EnableEvent(agentId, enabled, connected) => SetEnabled(db, agentId, enabled, connected)
    case LivenessEvent(agentId, online) => SetLiveness(db, agentId, online)
  }

  lemma StepKeeps(db: Db, window: nat, e: Event)
    requires DbOk(db)
    ensures DbOk(Step(db, window, e))
  {
    hide DbOk, CreateTask, AgentReady, DisconnectTask, InterruptTask, Hello, Claim, Accept, ReportStatus, ReportFailure,
      ReportCanceled, Complete, FailRejectedCompletion, RequestCancellation, ReclaimDispatch, ReclaimCancellation,
      ReclaimRecovery, AddAgent, SetEnabled, SetLiveness;
    match e
    case CreateEvent(id, agentId, interactive, ready, now) => CreateKeeps(db, id, agentId, interactive, ready, now);
    case ReadyEvent(agentId, capable, now) => ReadyKeeps(db, agentId, capable, now);
    case DisconnectEvent(agentId, id, now) => DisconnectKeeps(db, agentId, id, window, now);
    case InterruptEvent(id, phase, connected, now) => InterruptKeeps(db, id, phase, connected, window, now);
    case HelloEvent(agentId, current, capable, now) => HelloKeeps(db, agentId, current, capable, now);
    case ClaimEvent(agentId, requested, x, ready) => ClaimKeeps(db, agentId, requested, x, ready);
    case AcceptEvent(agentId, taskId, token, ready, now) => AcceptKeeps(db, agentId, taskId, token, ready, now);
    case StatusEvent(agentId, taskId, token, status, commit, ready, now) =>
      ReportStatusKeeps(db, agentId, taskId, token, status, commit, ready, now);
    case FailedEvent(agentId, taskId, token, exitCode, ready, now) => ReportFailureKeeps(db, agentId, taskId, token, exitCode, ready, now);
    case CanceledEvent(agentId, taskId, token, ready, now) => ReportCanceledKeeps(db, agentId, taskId, token, ready, now);
    case CompletedEvent(agentId, taskId, token, code, count, bytes, sourceCommit, files, finishedAt, now) =>
      CompleteKeeps(db, agentId, taskId, token, code, count, bytes, sourceCommit, files, finishedAt, now);
    case RejectedEvent(agentId, taskId, token, now) => FailRejectedKeeps(db, agentId, taskId, token, now);
    case CancelEvent(taskId, now) => CancellationKeeps(db, taskId, now);
    case ScanDispatchEvent(id, ready, now) => ReclaimDispatchKeeps(db, id, ready, now);
    case ScanCancellationEvent(id, now) => ReclaimCancellationKeeps(db, id, now);
    case ScanRecoveryEvent(id, now) => ReclaimRecoveryKeeps(db, id, now);
    case AgentEvent(agentId) => AgentRowsKeep(db, agentId, true, true, true);
    case EnableEvent(agentId, enabled, connected) => AgentRowsKeep(db, agentId, enabled, connected, true);
    case LivenessEvent(agentId, online) => AgentRowsKeep(db, agentId, true, true, online);
  }

  ghost function Run(db: Db, window: nat, events: seq<Event>): Db
    decreases |events|
  {
    if events == [] then db else Run(Step(db, window, events[0]), window, events[1..])
  }

  const EMPTY := Db(map[], map[])

  /** Every run of transactions keeps the invariants. */
  lemma {:induction false} RunKeeps(db: Db, window: nat, events: seq<Event>)
    requires DbOk(db)
    ensures DbOk(Run(db, window, events))
    decreases |events|
  {
    hide Step, DbOk;
    if events != [] {
      StepKeeps(db, window, events[0]);
      RunKeeps(Step(db, window, events[0]), window, events[1..]);
    }
  }

  lemma {:induction false} RunSnoc(db: Db, window: nat, events: seq<Event>, last: Event)
    ensures Run(db, window, events + [last]) == Step(Run(db, window, events), window, last)
    decreases |events|
  {
    hide Step;
    if events == [] {
      assert events + [last] == [last] && [last][1..] == [];
    } else {
      assert (events + [last])[1..] == events[1..] + [last];
      RunSnoc(Step(db, window, events[0]), window, events[1..], last);
    }
  }

  lemma {:induction false} RunConcat(db: Db, window: nat, a: seq<Event>, b: seq<Event>)
    ensures Run(db, window, a + b) == Run(Run(db, window, a), window, b)
    decreases |a|
  {
    hide Step;
    if a == [] {
      assert a + b == b;
    } else {
      assert (a + b)[1..] == a[1..] + b;
      RunConcat(Step(db, window, a[0]), window, a[1..], b);
    }
  }

  /** Two tasks of one agent that both hold its slot. */
  ghost predicate SharesSlot(db: Db, s: TaskId, t: TaskId) {
    s in db.tasks && t in db.tasks && db.tasks[s].agentId == db.tasks[t].agentId
    && HoldsSlot(db.tasks[s].status) && HoldsSlot(db.tasks[t].status)
  }

  /** On every run an agent's pointer is exact, so two tasks never share an agent's slot; a task's lease is present
      exactly while it holds the slot; and its history is a connected walk with at most one end. */
  lemma EveryRun(window: nat, events: seq<Event>, a: AgentId, s: TaskId, t: TaskId)
    ensures var db := Run(EMPTY, window, events);
            && (a in db.agents ==> (db.agents[a].activeTaskId == Some(t) <==> t in db.tasks && db.tasks[t].agentId == a && HoldsSlot(db.tasks[t].status)))
            && (SharesSlot(db, s, t) ==> s == t)
            && (t in db.tasks ==>
                  && (db.tasks[t].leaseHash.Some? <==> HoldsSlot(db.tasks[t].status))
                  && Walk(db.tasks[t].history, db.tasks[t].status)
                  && forall i :: 0 <= i < |db.tasks[t].history| && Terminal(db.tasks[t].history[i].next) ==> i == |db.tasks[t].history| - 1)
  {
    EmptyIsOk();
    RunKeeps(EMPTY, window, events);
    var db := Run(EMPTY, window, events);
    hide Run, Walk;
    if t in db.tasks {
      RowIsOk(db, t);
      forall i | 0 <= i < |db.tasks[t].history| && Terminal(db.tasks[t].history[i].next) ensures i == |db.tasks[t].history| - 1 {
        TerminalIsLast(db.tasks[t].history, db.tasks[t].status, i);
      }
    }
    if SharesSlot(db, s, t) {
      RowIsOk(db, s);
    }
    hide RowOk, HoldsSlot, Terminal;
  }
}
