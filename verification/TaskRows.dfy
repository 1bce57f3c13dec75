/** The task and agent rows, and what each transaction on them does. A transaction is one step: all of them lock
    the agent's row first. Times are in milliseconds. A lease hash stands for its token, as the hash is taken
    to be injective. */
module TaskRows {
  import opened Options
  import opened TaskStatus

  type TaskId = nat
  type AgentId = nat
  type Time = int
  type Token = nat

  datatype Task = Task(
    agentId: AgentId,
    createdAt: Time,
    interactive: bool,
    status: Status,
    updatedAt: Time,
    queuedAt: Option<Time>,
    startedAt: Option<Time>,
    finishedAt: Option<Time>,
    leaseHash: Option<Token>,
    leaseExpiresAt: Option<Time>,
    logLeaseHash: Option<Token>,
    logLeaseExpiresAt: Option<Time>,
    recoveryStatus: Option<Status>,
    agentLostAt: Option<Time>,
    recoveryDeadlineAt: Option<Time>,
    cancelRequestedAt: Option<Time>,
    sourceCommit: Option<string>,
    exitCode: Option<int>,
    artifactCount: nat,
    artifactBytes: nat,
    history: seq<Change>)

  datatype AgentStatus = ONLINE | OFFLINE | DISABLED
  datatype Agent = Agent(enabled: bool, status: AgentStatus, activeTaskId: Option<TaskId>)

  datatype Db = Db(tasks: map<TaskId, Task>, agents: map<AgentId, Agent>)

  /** A task id as a message carries it. */
  datatype WireId = Malformed | Uuid(id: TaskId)

  datatype ApiError =
    | RESOURCE_NOT_FOUND | TASK_LEASE_INVALID | TASK_INVALID_STATE | VALIDATION_FAILED | AGENT_OFFLINE | AGENT_DISABLED

  datatype Reply = Done | Rejected(error: ApiError)

  /** What a transaction leaves behind and answers; a rejected one leaves everything as it was. */
  datatype Tx = Tx(db: Db, reply: Reply)

  const DISPATCH_CONFIRMATION_TIMEOUT_MS := 30_000
  const CANCELLATION_CONFIRMATION_TIMEOUT_MS := 30_000
  const LOG_LEASE_WINDOW_MS := 600_000

  // --- Building blocks ---

  /** The row after a status transition, before the data written with it. */
  function Moved(t: Task, next: Status, now: Time): Task {
    t.(status := next, updatedAt := now, history := t.history + [Change(Some(t.status), next)])
  }

  function Unleased(t: Task): Task {
    t.(leaseHash := None, leaseExpiresAt := None)
  }

  function Recovered(t: Task): Task {
    t.(recoveryStatus := None, agentLostAt := None, recoveryDeadlineAt := None)
  }

  predicate Known(db: Db, agentId: AgentId, id: TaskId) {
    agentId in db.agents && id in db.tasks && db.tasks[id].agentId == agentId
  }

  predicate Active(db: Db, agentId: AgentId, id: TaskId) {
    Known(db, agentId, id) && db.agents[agentId].activeTaskId == Some(id)
  }

  predicate Up(db: Db, agentId: AgentId) {
    agentId in db.agents && db.agents[agentId].enabled && db.agents[agentId].status == ONLINE
  }

  function Put(db: Db, id: TaskId, row: Task): Db {
    db.(tasks := db.tasks[id := row])
  }

  function Point(db: Db, agentId: AgentId, active: Option<TaskId>): Db
    requires agentId in db.agents
  {
    db.(agents := db.agents[agentId := db.agents[agentId].(activeTaskId := active)])
  }

  function SetStatus(db: Db, agentId: AgentId, status: AgentStatus): Db
    requires agentId in db.agents
  {
    db.(agents := db.agents[agentId := db.agents[agentId].(status := status)])
  }

  /** The agent holds the slot for this task under this token, and the lease has not expired. */
  predicate LeaseHeld(db: Db, agentId: AgentId, id: TaskId, token: Token, now: Time) {
    Active(db, agentId, id)
    && db.tasks[id].leaseHash == Some(token)
    && db.tasks[id].leaseExpiresAt.Some? && db.tasks[id].leaseExpiresAt.value > now
  }

  predicate LogLeaseHeld(t: Task, token: Token, now: Time) {
    t.logLeaseHash == Some(token) && t.logLeaseExpiresAt.Some? && t.logLeaseExpiresAt.value > now
  }

  function Min(a: int, b: int): int {
    if a < b then a else b
  }

  /** The loss of an execution phase: the lease bounds the time to recover. */
  function Lost(t: Task, now: Time, window: nat): Task {
    var deadline := if t.leaseExpiresAt.Some? then Min(now + window, t.leaseExpiresAt.value) else now + window;
    Moved(t, AGENT_LOST, now).(recoveryStatus := Some(t.status), agentLostAt := Some(now), recoveryDeadlineAt := Some(deadline))
  }

  /** A dispatched task that goes back to wait passes through the queue. */
  function BackToWaiting(t: Task, now: Time): Task {
    Unleased(Moved(Moved(t, QUEUED, now), WAITING_AGENT, now))
  }

  // --- Creation and queueing ---

  function NewTask(agentId: AgentId, interactive: bool, ready: bool, now: Time): Task {
    var created := Task(agentId, now, interactive, CREATED, now, if ready then Some(now) else None, None, None,
                        None, None, None, None, None, None, None, None, None, None, 0, 0, [Change(None, CREATED)]);
    Moved(created, if ready then QUEUED else WAITING_AGENT, now)
  }

  /** `ready` says whether the agent has a connection that completed its hello. Ids are never reused. */
  function CreateTask(db: Db, id: TaskId, agentId: AgentId, interactive: bool, ready: bool, now: Time): Tx {
    if id in db.tasks || agentId !in db.agents then Tx(db, Rejected(RESOURCE_NOT_FOUND))
    else if !db.agents[agentId].enabled then Tx(db, Rejected(AGENT_DISABLED))
    else Tx(Put(db, id, NewTask(agentId, interactive, ready, now)), Done)
  }

  function Queued(t: Task, now: Time): Task {
    Moved(t, QUEUED, now).(queuedAt := if t.queuedAt.Some? then t.queuedAt else Some(now))
  }

  predicate Wakes(t: Task, agentId: AgentId, capable: bool) {
    t.agentId == agentId && t.status == WAITING_AGENT && (t.interactive ==> capable)
  }

  /** An idle agent that is online gets its waiting tasks queued. */
  function AgentReady(db: Db, agentId: AgentId, capable: bool, now: Time): Db {
    if !Up(db, agentId) || db.agents[agentId].activeTaskId.Some? then db
    else db.(tasks := map id | id in db.tasks ::
               if Wakes(db.tasks[id], agentId, capable) then Queued(db.tasks[id], now) else db.tasks[id])
  }

  // --- Connection loss and recovery ---

  /** One task of an agent that disconnected. */
  function DisconnectTask(db: Db, agentId: AgentId, id: TaskId, window: nat, now: Time): Db {
    if !Known(db, agentId, id) then db
    else
      var t := db.tasks[id];
      if t.status == QUEUED then Put(db, id, Moved(t, WAITING_AGENT, now))
      else if !Active(db, agentId, id) then db
      else if t.status == DISPATCHED && t.startedAt.None? then
        Point(Put(db, id, BackToWaiting(t, now)), agentId, None)
      else if ExecutionPhase(t.status) then Put(db, id, Lost(t, now, window))
      else db
  }

  /** A restarted server found a task in an execution phase, and still finds it in that phase. */
  function InterruptTask(db: Db, id: TaskId, phase: Status, connected: bool, window: nat, now: Time): Db {
    if id !in db.tasks || !Active(db, db.tasks[id].agentId, id) || !ExecutionPhase(phase) || db.tasks[id].status != phase then db
    else
      var t := db.tasks[id];
      var lost := Put(db, id, Lost(t, now, window));
      if connected then lost else SetStatus(lost, t.agentId, OFFLINE)
  }

  function Orphaned(t: Task, now: Time): Task {
    Recovered(Unleased(Moved(t, FAILED, now))).(finishedAt := Some(now))
  }

  /** Fails a task nobody will resume, unless it is over. */
  function FailOrphan(db: Db, agentId: AgentId, id: TaskId, now: Time): Db {
    if !Known(db, agentId, id) || !CanTransition(db.tasks[id].status, FAILED) then db
    else Point(Put(db, id, Orphaned(db.tasks[id], now)), agentId, None)
  }

  datatype CurrentTask = CurrentTask(taskId: WireId, token: Token, status: Status)

  datatype Action = RESUME(status: Status) | CANCEL(status: Status) | ABANDON

  /** The server's answer to a reconnecting agent. */
  datatype Decision = Decision(taskId: TaskId, action: Action)

  datatype HelloTx = HelloTx(db: Db, decision: Option<Decision>)

  /** A task the hello may continue: the agent's active one, under a lease that still counts. */
  predicate Resumable(db: Db, agentId: AgentId, id: TaskId, now: Time) {
    Active(db, agentId, id)
    && var t := db.tasks[id];
       t.leaseHash.Some? && t.leaseExpiresAt.Some?
       && (t.leaseExpiresAt.value > now
           || (t.status == CANCELING && t.cancelRequestedAt.Some?
               && now - t.cancelRequestedAt.value < CANCELLATION_CONFIRMATION_TIMEOUT_MS))
  }

  function ReconcileHello(db: Db, agentId: AgentId, current: Option<CurrentTask>, capable: bool, now: Time): HelloTx
    requires agentId in db.agents
  {
    var active := db.agents[agentId].activeTaskId;
    if active.None? && current.None? then HelloTx(db, None)
    else
      var wire := if current.Some? then current.value.taskId else Uuid(active.value);
      var orphan := if active.Some? then FailOrphan(db, agentId, active.value, now) else db;
      if wire.Malformed? then HelloTx(orphan, None)
      else
        var id := wire.id;
        var abandon := if current.Some? then Some(Decision(id, ABANDON)) else None;
        if !Resumable(db, agentId, id, now) then HelloTx(orphan, abandon)
        else Resume(db, orphan, agentId, id, current, capable, now)
  }

  /** The decision about a resumable task. */
  function Resume(db: Db, orphan: Db, agentId: AgentId, id: TaskId, current: Option<CurrentTask>, capable: bool, now: Time): HelloTx
    requires Resumable(db, agentId, id, now)
  {
    var t := db.tasks[id];
    var abandon := if current.Some? then Some(Decision(id, ABANDON)) else None;
    if t.interactive && !capable then HelloTx(orphan, abandon)
    else if current.None? || Some(current.value.token) != t.leaseHash then HelloTx(orphan, abandon)
    else if t.status == AGENT_LOST then
      if t.recoveryStatus.None? || !ExecutionPhase(t.recoveryStatus.value)
         || t.recoveryDeadlineAt.None? || t.recoveryDeadlineAt.value <= now
         || current.value.status != t.recoveryStatus.value then HelloTx(orphan, abandon)
      else
        HelloTx(Put(db, id, Recovered(Moved(t, t.recoveryStatus.value, now))),
                Some(Decision(id, RESUME(t.recoveryStatus.value))))
    else if t.status == CANCELING then
      if !ExecutionPhase(current.value.status) then HelloTx(orphan, abandon)
      else HelloTx(db, Some(Decision(id, CANCEL(current.value.status))))
    else if !ExecutionPhase(t.status) || current.value.status != t.status then HelloTx(orphan, abandon)
    else HelloTx(db, Some(Decision(id, RESUME(t.status))))
  }

  /** The active task a decision leaves the agent with. */
  function Kept(decision: Option<Decision>): Option<TaskId> {
    match decision
    case Some(Decision(id, RESUME(_))) => Some(id)
    case Some(Decision(id, CANCEL(_))) => Some(id)
    case _ => None
  }

  /** The hello handler: reconciliation and the write of the agent's row, folded into one step. A disabled
      agent is turned away. */
  function Hello(db: Db, agentId: AgentId, current: Option<CurrentTask>, capable: bool, now: Time): HelloTx {
    if agentId !in db.agents || !db.agents[agentId].enabled then HelloTx(db, None)
    else
      var reconciled := ReconcileHello(db, agentId, current, capable, now);
      HelloTx(SetStatus(Point(reconciled.db, agentId, Kept(reconciled.decision)), agentId, ONLINE), reconciled.decision)
  }

  // --- Reports of the agent ---

  /** `ready` says whether the agent's connection completed its hello. */
  function Accept(db: Db, agentId: AgentId, taskId: WireId, token: Token, ready: bool, now: Time): Tx {
    if taskId.Malformed? || !ready || !Up(db, agentId) || !LeaseHeld(db, agentId, taskId.id, token, now) then
      Tx(db, Rejected(TASK_LEASE_INVALID))
    else
      var t := db.tasks[taskId.id];
      if t.status == PREPARING then Tx(db, Done)
      else if t.status != DISPATCHED then Tx(db, Rejected(TASK_INVALID_STATE))
      else Tx(Put(db, taskId.id, Moved(t, PREPARING, now).(startedAt := Some(now))), Done)
  }

  /** A source commit as a message carries it; the value is in lower case. */
  datatype WireCommit = Absent | Unreadable | Commit(value: string)

  predicate CommitAgrees(t: Task, commit: WireCommit) {
    commit.Commit? && t.sourceCommit.Some? ==> t.sourceCommit.value == commit.value
  }

  function WithCommit(t: Task, commit: WireCommit): Task {
    if commit.Commit? && t.sourceCommit.None? then t.(sourceCommit := Some(commit.value)) else t
  }

  function ReportStatus(db: Db, agentId: AgentId, taskId: WireId, token: Token, status: Status, commit: WireCommit,
                        ready: bool, now: Time): Tx
  {
    if taskId.Malformed? || !ExecutionPhase(status) || commit.Unreadable? || (status == PREPARING && commit.Absent?) then
      Tx(db, Rejected(VALIDATION_FAILED))
    else if !ready || !Up(db, agentId) || !LeaseHeld(db, agentId, taskId.id, token, now) then
      Tx(db, Rejected(TASK_LEASE_INVALID))
    else
      var t := db.tasks[taskId.id];
      if !CommitAgrees(t, commit) then Tx(db, Rejected(TASK_INVALID_STATE))
      else if t.status == status then
        Tx(if WithCommit(t, commit) == t then db else Put(db, taskId.id, WithCommit(t, commit).(updatedAt := now)), Done)
      else if (status == RUNNING && t.status == PREPARING) || (status == UPLOADING && t.status == RUNNING) then
        Tx(Put(db, taskId.id, WithCommit(Moved(t, status, now), commit)), Done)
      else Tx(db, Rejected(TASK_INVALID_STATE))
  }

  /** The end of a task: no lease, no slot. */
  function Finished(db: Db, agentId: AgentId, id: TaskId, row: Task, now: Time): Db
    requires agentId in db.agents
  {
    Point(Put(db, id, Unleased(row).(finishedAt := Some(now))), agentId, None)
  }

  function ReportFailure(db: Db, agentId: AgentId, taskId: WireId, token: Token, exitCode: Option<int>, ready: bool, now: Time): Tx {
    if taskId.Malformed? then Tx(db, Rejected(TASK_LEASE_INVALID))
    else if exitCode.Some? && !(-0x8000_0000 <= exitCode.value < 0x8000_0000) then Tx(db, Rejected(VALIDATION_FAILED))
    else if !ready || !Up(db, agentId) || !Known(db, agentId, taskId.id) then Tx(db, Rejected(TASK_LEASE_INVALID))
    else
      var t := db.tasks[taskId.id];
      if t.status == FAILED then
        if LogLeaseHeld(t, token, now) then Tx(db, Done) else Tx(db, Rejected(TASK_LEASE_INVALID))
      else if !LeaseHeld(db, agentId, taskId.id, token, now) then Tx(db, Rejected(TASK_LEASE_INVALID))
      else if !ExecutionPhase(t.status) && t.status != CANCELING then Tx(db, Rejected(TASK_INVALID_STATE))
      else Tx(Finished(db, agentId, taskId.id, Moved(t, FAILED, now).(exitCode := exitCode), now), Done)
  }

  /** A confirmed cancellation; an expired lease does not reject it. */
  function ReportCanceled(db: Db, agentId: AgentId, taskId: WireId, token: Token, ready: bool, now: Time): Tx {
    if taskId.Malformed? || !ready || !Known(db, agentId, taskId.id) then Tx(db, Rejected(TASK_LEASE_INVALID))
    else
      var t := db.tasks[taskId.id];
      if t.status == CANCELED then
        if LogLeaseHeld(t, token, now) then Tx(db, Done) else Tx(db, Rejected(TASK_LEASE_INVALID))
      else if !Active(db, agentId, taskId.id) || t.leaseHash != Some(token) then Tx(db, Rejected(TASK_LEASE_INVALID))
      else if t.status != CANCELING then Tx(db, Rejected(TASK_INVALID_STATE))
      else Tx(Finished(db, agentId, taskId.id, Moved(t, CANCELED, now), now), Done)
  }

  datatype Artifact = Artifact(size: nat, uploaded: bool)

  function TotalSize(files: seq<Artifact>): nat {
    if files == [] then 0 else TotalSize(files[..|files| - 1]) + files[|files| - 1].size
  }

  predicate AllUploaded(files: seq<Artifact>) {
    forall i :: 0 <= i < |files| ==> files[i].uploaded
  }

  /** `files` are the artifact rows of the task. */
  function Complete(db: Db, agentId: AgentId, taskId: WireId, token: Token, exitCode: int, count: nat, bytes: nat,
                    commit: Option<string>, files: seq<Artifact>, finishedAt: Time, now: Time): Tx
  {
    if taskId.Malformed? || exitCode != 0 then Tx(db, Rejected(VALIDATION_FAILED))
    else if !Up(db, agentId) || !Known(db, agentId, taskId.id) then Tx(db, Rejected(TASK_LEASE_INVALID))
    else
      var t := db.tasks[taskId.id];
      if t.status == SUCCEEDED then
        if !LogLeaseHeld(t, token, now) then Tx(db, Rejected(TASK_LEASE_INVALID))
        else if t.artifactCount != count || t.artifactBytes != bytes then Tx(db, Rejected(TASK_INVALID_STATE))
        else Tx(db, Done)
      else if !LeaseHeld(db, agentId, taskId.id, token, now) || t.status != UPLOADING then Tx(db, Rejected(TASK_LEASE_INVALID))
      else if files == [] || !AllUploaded(files) || |files| != count || TotalSize(files) != bytes then
        Tx(db, Rejected(TASK_INVALID_STATE))
      else
        var done := Moved(t, SUCCEEDED, now).(exitCode := Some(0), artifactCount := |files|, artifactBytes := TotalSize(files));
        var row := if commit.Some? && t.sourceCommit.None? then done.(sourceCommit := commit) else done;
        Tx(Finished(db, agentId, taskId.id, row, finishedAt), Done)
  }

  /** What follows a rejected completion: under a valid lease the task fails. */
  function FailRejectedCompletion(db: Db, agentId: AgentId, taskId: WireId, token: Token, now: Time): Db {
    if taskId.Malformed? || !LeaseHeld(db, agentId, taskId.id, token, now) || db.tasks[taskId.id].status != UPLOADING then db
    else Finished(db, agentId, taskId.id, Moved(db.tasks[taskId.id], FAILED, now), now)
  }

  // --- Cancellation ---

  /** A task that holds no slot is canceled at once. */
  function CanceledEarly(t: Task, now: Time): Task {
    Unleased(Moved(Moved(t, CANCELING, now), CANCELED, now)).(cancelRequestedAt := Some(now), finishedAt := Some(now))
  }

  /** A task that holds a slot keeps its lease until the agent confirms. */
  function Canceling(t: Task, now: Time): Task {
    Moved(t, CANCELING, now).(cancelRequestedAt := Some(now))
  }

  function RequestCancellation(db: Db, taskId: WireId, now: Time): Tx {
    if taskId.Malformed? || taskId.id !in db.tasks || db.tasks[taskId.id].agentId !in db.agents then
      Tx(db, Rejected(RESOURCE_NOT_FOUND))
    else
      var id, t := taskId.id, db.tasks[taskId.id];
      var active := Active(db, t.agentId, id);
      if t.status == SUCCEEDED || t.status == FAILED then Tx(db, Rejected(TASK_INVALID_STATE))
      else if t.status == CANCELED then Tx(if active then Point(db, t.agentId, None) else db, Done)
      else if t.status in {CREATED, WAITING_AGENT, QUEUED} then
        var canceled := Put(db, id, CanceledEarly(t, now));
        Tx(if active then Point(canceled, t.agentId, None) else canceled, Done)
      else if !active || t.leaseHash.None? || t.leaseExpiresAt.None? then Tx(db, Rejected(TASK_INVALID_STATE))
      else if t.status != CANCELING then Tx(Put(db, id, Canceling(t, now)), Done)
      else if t.cancelRequestedAt.None? then Tx(Put(db, id, t.(cancelRequestedAt := Some(now), updatedAt := now)), Done)
      else Tx(db, Done)
  }

  // --- Scanners ---

  /** A dispatch nobody confirmed in time. */
  function ReclaimDispatch(db: Db, id: TaskId, ready: bool, now: Time): Db {
    if id !in db.tasks || !Active(db, db.tasks[id].agentId, id) || db.tasks[id].status != DISPATCHED
       || db.tasks[id].updatedAt >= now - DISPATCH_CONFIRMATION_TIMEOUT_MS then db
    else
      var t := db.tasks[id];
      var row := if Up(db, t.agentId) && ready then Unleased(Moved(t, QUEUED, now)) else BackToWaiting(t, now);
      Point(Put(db, id, row), t.agentId, None)
  }

  function Unconfirmed(t: Task, now: Time): Task {
    Unleased(Moved(t, FAILED, now)).(finishedAt := Some(now))
  }

  /** A cancellation nobody confirmed in time. */
  function ReclaimCancellation(db: Db, id: TaskId, now: Time): Db {
    if id !in db.tasks || db.tasks[id].agentId !in db.agents || db.tasks[id].status != CANCELING
       || db.tasks[id].cancelRequestedAt.None? || db.tasks[id].cancelRequestedAt.value >= now - CANCELLATION_CONFIRMATION_TIMEOUT_MS then db
    else
      var t := db.tasks[id];
      var failed := Put(db, id, Unconfirmed(t, now));
      if Active(db, t.agentId, id) then SetStatus(Point(failed, t.agentId, None), t.agentId, OFFLINE) else failed
  }

  /** A recovery window that ran out. */
  function ReclaimRecovery(db: Db, id: TaskId, now: Time): Db {
    if id !in db.tasks || db.tasks[id].agentId !in db.agents || db.tasks[id].status != AGENT_LOST
       || db.tasks[id].recoveryDeadlineAt.None? || db.tasks[id].recoveryDeadlineAt.value > now then db
    else
      var t := db.tasks[id];
      var failed := Put(db, id, Orphaned(t, now));
      if Active(db, t.agentId, id) then Point(failed, t.agentId, None) else failed
  }

  // --- Agent rows ---

  function AddAgent(db: Db, agentId: AgentId): Db {
    if agentId in db.agents then db else db.(agents := db.agents[agentId := Agent(true, OFFLINE, None)])
  }

  function SetEnabled(db: Db, agentId: AgentId, enabled: bool, connected: bool): Db {
    if agentId !in db.agents then db
    else
      var status := if !enabled then DISABLED else if connected then ONLINE else OFFLINE;
      db.(agents := db.agents[agentId := db.agents[agentId].(enabled := enabled, status := status)])
  }

  /** The write of an agent's liveness: offline at a new socket and at every loss, online at a heartbeat. A
      heartbeat repeats the active task only when the row already names it. */
  function SetLiveness(db: Db, agentId: AgentId, online: bool): Db {
    if agentId !in db.agents || !db.agents[agentId].enabled then db
    else SetStatus(db, agentId, if online then ONLINE else OFFLINE)
  }
}
