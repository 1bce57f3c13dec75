/** The task and agent tables with the operations on them, row update by row update. Each operation is proved to
    have the effect of its transaction and to keep the invariants; no transition it makes is ever refused. */
module TaskStore {
  import opened Options
  import opened TaskStatus
  import opened TaskRows
  import opened TaskClaim
  import opened TaskInvariants
  import opened TaskRuns
  import opened TaskRecovery
  import opened TaskStamps

  datatype Transitioned = Changed | AlreadyThere | NotFound | Invalid

  lemma DisconnectStep(db: Db, window: nat, agentId: AgentId, id: TaskId, now: Time)
    ensures Step(db, window, DisconnectEvent(agentId, id, now)) == DisconnectTask(db, agentId, id, window, now)
  {
  }

  lemma InterruptStep(db: Db, window: nat, id: TaskId, phase: Status, connected: bool, now: Time)
    ensures Step(db, window, InterruptEvent(id, phase, connected, now)) == InterruptTask(db, id, phase, connected, window, now)
  {
  }

  lemma StatusAndPointer(db: Db, agentId: AgentId, active: Option<TaskId>, status: AgentStatus)
    requires agentId in db.agents
    ensures SetStatus(Point(db, agentId, active), agentId, status)
              == db.(agents := db.agents[agentId := db.agents[agentId].(status := status, activeTaskId := active)])
  {
  }

  lemma IdleIs(db: Db, agentId: AgentId, capable: bool, now: Time)
    ensures !Up(db, agentId) || db.agents[agentId].activeTaskId.Some? ==> AgentReady(db, agentId, capable, now) == db
  {
  }

  lemma ReadyIs(db: Db, tasks: map<TaskId, Task>, agentId: AgentId, capable: bool, now: Time)
    requires Up(db, agentId) && db.agents[agentId].activeTaskId.None? && tasks.Keys == db.tasks.Keys
    requires forall id :: id in tasks ==>
               tasks[id] == if Wakes(db.tasks[id], agentId, capable) then Queued(db.tasks[id], now) else db.tasks[id]
    ensures AgentReady(db, agentId, capable, now) == db.(tasks := tasks)
  {
  }

  lemma OneMoreFile(files: seq<Artifact>, i: nat)
    requires i < |files|
    ensures TotalSize(files[..i + 1]) == TotalSize(files[..i]) + files[i].size
    ensures AllUploaded(files[..i + 1]) <==> AllUploaded(files[..i]) && files[i].uploaded
  {
    var more := files[..i + 1];
    assert more[..i] == files[..i] && more[i] == files[i];
    assert AllUploaded(more) ==> AllUploaded(more[..i]);
  }

  lemma NoFiles()
    ensures TotalSize([]) == 0 && AllUploaded([])
  {
  }

  lemma SomeId(ids: set<TaskId>)
    requires ids != {}
    ensures exists id :: id in ids
  {
  }

  /** A claim's outcome after some tasks failed already. */
  ghost function After(failed: seq<TaskId>, rest: ClaimTx): ClaimTx {
    rest.(failed := failed + rest.failed)
  }

  lemma AfterNothing(failed: seq<TaskId>, db: Db, result: ClaimResult)
    ensures After(failed, ClaimTx(db, result, [])) == ClaimTx(db, result, failed)
  {
  }

  lemma AfterFailed(failed: seq<TaskId>, id: TaskId, rest: ClaimTx)
    ensures After(failed, rest.(failed := [id] + rest.failed)) == After(failed + [id], rest)
  {
  }

  lemma NoFirst(db: Db, agentId: AgentId, requested: Option<TaskId>, x: ClaimContext, attempts: nat)
    requires agentId in db.agents && attempts > 0 && forall id :: !Candidate(db, agentId, requested, id)
    ensures ClaimLoop(db, agentId, requested, x, attempts) == ClaimTx(db, Nothing, [])
  {
  }

  lemma NoAttempts(db: Db, agentId: AgentId, requested: Option<TaskId>, x: ClaimContext)
    requires agentId in db.agents
    ensures ClaimLoop(db, agentId, requested, x, 0) == ClaimTx(db, Notify, [])
  {
  }

  lemma ScanStep(db: Db, window: nat, id: TaskId, ready: bool, now: Time)
    ensures Step(db, window, ScanDispatchEvent(id, ready, now)) == ReclaimDispatch(db, id, ready, now)
    ensures Step(db, window, ScanCancellationEvent(id, now)) == ReclaimCancellation(db, id, now)
    ensures Step(db, window, ScanRecoveryEvent(id, now)) == ReclaimRecovery(db, id, now)
  {
  }

  lemma MoreDisconnects(trace: seq<Event>, e: Event, agentId: AgentId)
    requires OnlyDisconnects(trace, agentId) && e.DisconnectEvent? && e.agentId == agentId
    ensures OnlyDisconnects(trace + [e], agentId) && Disconnects(trace + [e], agentId, e.id) && TimeOf(e) == e.now
    ensures forall id :: Disconnects(trace, agentId, id) ==> Disconnects(trace + [e], agentId, id)
  {
    var more := trace + [e];
    assert DisconnectOf(more[|trace|], agentId, e.id);
    forall id | Disconnects(trace, agentId, id) ensures Disconnects(more, agentId, id) {
      var i :| 0 <= i < |trace| && DisconnectOf(trace[i], agentId, id);
      assert more[i] == trace[i];
    }
  }

  lemma NoScans(agentId: AgentId)
    ensures ScanTrace([]) && OnlyDisconnects([], agentId)
  {
  }

  lemma MoreScans(trace: seq<Event>, more: seq<Event>)
    requires ScanTrace(trace) && forall i :: 0 <= i < |more| ==> more[i].ScanCancellationEvent? || more[i].DisconnectEvent?
    ensures ScanTrace(trace + more)
  {
  }

  lemma MoreDisconnectScans(trace: seq<Event>, more: seq<Event>, agentId: AgentId)
    requires ScanTrace(trace) && OnlyDisconnects(more, agentId)
    ensures ScanTrace(trace + more)
  {
    MoreScans(trace, more);
  }

  lemma DisconnectedParks(db: Db, window: nat, trace: seq<Event>, agentId: AgentId)
    requires DbOk(db) && OnlyDisconnects(trace, agentId) && DisconnectsAll(db, trace, agentId)
    ensures forall lostAt :: Offline(db, agentId) && StampedBy(db, lostAt, window) && By(trace, lostAt) ==>
              Parked(Run(db, window, trace), agentId, lostAt, window)
  {
    hide *;
    forall lostAt | Offline(db, agentId) && StampedBy(db, lostAt, window) && By(trace, lostAt)
      ensures Parked(Run(db, window, trace), agentId, lostAt, window)
    {
      DisconnectedIsParked(db, window, trace, agentId, lostAt);
    }
  }

  lemma ScanReleases(db: Db, window: nat, trace: seq<Event>, now: Time)
    requires DbOk(db) && ScanTrace(trace) && NoneOverdue(Run(db, window, trace), now)
    ensures forall agentId, lostAt :: Parked(db, agentId, lostAt, window) && Late(now, lostAt, window) ==>
              Released(Run(db, window, trace), agentId)
  {
    hide *;
    forall agentId, lostAt | Parked(db, agentId, lostAt, window) && Late(now, lostAt, window)
      ensures Released(Run(db, window, trace), agentId)
    {
      ScanReleasesSlot(db, window, trace, agentId, lostAt, now);
    }
  }

  /** The scanned task is not overdue any more, and no other row changed. */
  lemma CancellationSettles(db: Db, id: TaskId, now: Time, other: TaskId)
    requires id in db.tasks && DbOk(db)
    ensures var next := ReclaimCancellation(db, id, now);
            && (other in next.tasks <==> other in db.tasks)
            && (other in next.tasks && OverdueCancellation(next.tasks[other], now) ==> other != id && db.tasks[other] == next.tasks[other])
  {
  }

  /** The scanned dispatch is not overdue any more, and no other row changed. */
  lemma DispatchSettles(db: Db, id: TaskId, ready: bool, now: Time, other: TaskId)
    requires DbOk(db)
    ensures var next := ReclaimDispatch(db, id, ready, now);
            && (other in next.tasks <==> other in db.tasks)
            && (other in next.tasks && OverdueDispatch(next.tasks[other], now) ==> other != id && db.tasks[other] == next.tasks[other])
  {
    if id in db.tasks {
      RowIsOk(db, id);
    }
    hide DbOk, RowOk;
  }

  lemma StillNone(before: map<TaskId, Task>, middle: map<TaskId, Task>, after: map<TaskId, Task>)
    requires DispatchesNone(before, middle) && DispatchesNone(middle, after)
    ensures DispatchesNone(before, after)
  {
  }

  lemma NoneDispatched(tasks: map<TaskId, Task>)
    ensures DispatchesNone(tasks, tasks)
  {
  }

  lemma NoDispatchOverdue(before: map<TaskId, Task>, after: map<TaskId, Task>, now: Time)
    requires DispatchesNone(before, after) && forall id :: id in before ==> !OverdueDispatch(before[id], now)
    ensures forall id :: id in after ==> !OverdueDispatch(after[id], now)
  {
  }

  lemma RecoverySettles(db: Db, id: TaskId, now: Time, other: TaskId)
    requires DbOk(db)
    ensures var next := ReclaimRecovery(db, id, now);
            && (other in next.tasks <==> other in db.tasks)
            && (other in next.tasks && OverdueRecovery(next.tasks[other], now) ==> other != id && db.tasks[other] == next.tasks[other])
            && (other in next.tasks && next.tasks[other].status == CANCELING ==> db.tasks[other] == next.tasks[other])
  {
  }

  class TaskStore {
    const window: nat
    var tasks: map<TaskId, Task>
    var agents: map<AgentId, Agent>

    ghost function State(): Db
      reads this
    {
      Db(tasks, agents)
    }

    ghost predicate Valid()
      reads this
    {
      DbOk(State())
    }

    constructor (window: nat)
      ensures Valid() && State() == EMPTY && this.window == window
    {
      this.window := window;
      tasks, agents := map[], map[];
    }

    // --- Status transitions ---

    /** Moves a row to another status, writes `data` with it, and records the change. */
    method Transition(id: TaskId, next: Status, now: Time, data: Task -> Task) returns (result: Transitioned)
      modifies `tasks
      ensures id !in old(tasks) ==> result == NotFound
      ensures id in old(tasks) && old(tasks)[id].status == next ==> result == AlreadyThere
      ensures id in old(tasks) && old(tasks)[id].status != next ==>
                result == if CanTransition(old(tasks)[id].status, next) then Changed else Invalid
      ensures tasks == if result == Changed then old(tasks)[id := data(Moved(old(tasks)[id], next, now))] else old(tasks)
    {
      if id !in tasks {
        return NotFound;
      }
      var current := tasks[id].status;
      if current == next {
        return AlreadyThere;
      }
      if !CanTransition(current, next) {
        return Invalid;
      }
      var row := tasks[id].(status := next, updatedAt := now);
      row := row.(history := row.history + [Change(Some(current), next)]);
      tasks := tasks[id := data(row)];
      result := Changed;
    }

    method SetActive(agentId: AgentId, active: Option<TaskId>)
      requires agentId in agents
      modifies `agents
      ensures agents == old(agents)[agentId := old(agents)[agentId].(activeTaskId := active)]
    {
      agents := agents[agentId := agents[agentId].(activeTaskId := active)];
    }

    /** The new row, with the first row of its history and the transition that follows. */
    method Insert(id: TaskId, agentId: AgentId, interactive: bool, ready: bool, now: Time)
      modifies `tasks
      ensures tasks == old(tasks)[id := NewTask(agentId, interactive, ready, now)]
    {
      var row := Task(agentId, now, interactive, CREATED, now, if ready then Some(now) else None, None, None,
                      None, None, None, None, None, None, None, None, None, None, 0, 0, [Change(None, CREATED)]);
      tasks := tasks[id := row];
      var moved := Transition(id, if ready then QUEUED else WAITING_AGENT, now, (t: Task) => t);
    }

    method CreateTask(id: TaskId, agentId: AgentId, interactive: bool, ready: bool, now: Time) returns (reply: Reply)
      requires Valid() && id !in tasks
      modifies this
      ensures Valid() && Tx(State(), reply) == TaskRows.CreateTask(old(State()), id, agentId, interactive, ready, now)
    {
      CreateKeeps(State(), id, agentId, interactive, ready, now);
      hide DbOk;
      if agentId !in agents {
        return Rejected(RESOURCE_NOT_FOUND);
      }
      if !agents[agentId].enabled {
        return Rejected(AGENT_DISABLED);
      }
      hide NewTask;
      Insert(id, agentId, interactive, ready, now);
      reply := Done;
    }

    // --- Disconnects ---

    method MoveDispatchedToWaiting(id: TaskId, now: Time)
      requires id in tasks && tasks[id].status == DISPATCHED
      modifies `tasks
      ensures tasks == old(tasks)[id := BackToWaiting(old(tasks)[id], now)]
    {
      var requeued := Transition(id, QUEUED, now, (t: Task) => t.(leaseHash := None, leaseExpiresAt := None));
      var waiting := Transition(id, WAITING_AGENT, now, (t: Task) => t.(leaseHash := None, leaseExpiresAt := None));
    }

    method LoseTask(id: TaskId, now: Time)
      requires id in tasks && ExecutionPhase(tasks[id].status)
      modifies `tasks
      ensures tasks == old(tasks)[id := Lost(old(tasks)[id], now, window)]
    {
      var current := tasks[id];
      var deadline := if current.leaseExpiresAt.Some? then Min(now + window, current.leaseExpiresAt.value) else now + window;
      var moved := Transition(id, AGENT_LOST, now,
                              (t: Task) => t.(recoveryStatus := Some(current.status), agentLostAt := Some(now), recoveryDeadlineAt := Some(deadline)));
    }

    method DisconnectTask(agentId: AgentId, id: TaskId, now: Time)
      requires Valid()
      modifies this
      ensures Valid() && State() == TaskRows.DisconnectTask(old(State()), agentId, id, window, now)
    {
      DisconnectKeeps(State(), agentId, id, window, now);
      hide DbOk, BackToWaiting, Lost;
      if agentId !in agents {
        return;
      }
      if id !in tasks || tasks[id].agentId != agentId {
        return;
      }
      var current := tasks[id];
      if current.status == QUEUED {
        var moved := Transition(id, WAITING_AGENT, now, (t: Task) => t);
        return;
      }
      if current.status == DISPATCHED && current.startedAt.None? && agents[agentId].activeTaskId == Some(id) {
        MoveDispatchedToWaiting(id, now);
        SetActive(agentId, None);
        return;
      }
      if ExecutionPhase(current.status) && agents[agentId].activeTaskId == Some(id) {
        LoseTask(id, now);
      }
    }

    /** One transaction for each task of the agent that was queued or active; the order does not matter. `clock(i)`
        is the time the i-th transaction reads. */
    method OnAgentDisconnected(agentId: AgentId, clock: nat -> Time) returns (ghost trace: seq<Event>)
      requires Valid()
      modifies this
      ensures Valid() && State() == Run(old(State()), window, trace)
      ensures OnlyDisconnects(trace, agentId) && DisconnectsAll(old(State()), trace, agentId)
      ensures forall i :: 0 <= i < |trace| ==> TimeOf(trace[i]) == clock(i)
      ensures forall lostAt :: Offline(old(State()), agentId) && StampedBy(old(State()), lostAt, window) && By(trace, lostAt) ==>
                Parked(State(), agentId, lostAt, window)
      ensures tasks.Keys == old(tasks).Keys && DispatchesNone(old(tasks), tasks)
      ensures forall id :: id in tasks && tasks[id].status == CANCELING ==> old(tasks)[id] == tasks[id]
    {
      NothingDisturbed(tasks);
      hide DbOk, Step, TaskRows.DisconnectTask, DispatchesNone, Undisturbed, OnlyDisconnects, Parked, By, StampedBy, Offline, Disconnects, TimeOf;
      var pending := set id | id in tasks && tasks[id].agentId == agentId && Disconnectable(tasks[id].status);
      ghost var all := pending;
      NoScans(agentId);
      trace := [];
      var i := 0;
      while pending != {}
        invariant Valid() && State() == Run(old(State()), window, trace)
        invariant OnlyDisconnects(trace, agentId) && 0 <= i == |trace| && forall j :: 0 <= j < i ==> TimeOf(trace[j]) == clock(j)
        invariant forall id :: id in all ==> id in pending || Disconnects(trace, agentId, id)
        invariant Undisturbed(old(tasks), tasks)
        decreases |pending|
      {
        SomeId(pending);
        var id :| id in pending;
        pending := pending - {id};
        ghost var before := State();
        DisconnectTask(agentId, id, clock(i));
        DisconnectDisturbsNone(before, agentId, id, window, clock(i));
        UndisturbedOn(old(tasks), before.tasks, tasks);
        ghost var e := DisconnectEvent(agentId, id, clock(i));
        DisconnectStep(before, window, agentId, id, clock(i));
        RunSnoc(old(State()), window, trace, e);
        MoreDisconnects(trace, e, agentId);
        trace, i := trace + [e], i + 1;
      }
      DisconnectedParks(old(State()), window, trace, agentId);
      UndisturbedMeans(old(tasks), tasks);
    }

    /** At startup: tasks whose execution the stopped server was following are lost, and may be recovered. */
    method ReconcileInterruptedTasks(connected: set<AgentId>, now: Time) returns (ghost trace: seq<Event>)
      requires Valid()
      modifies this
      ensures Valid() && State() == Run(old(State()), window, trace)
      ensures forall id :: id in old(tasks) && ExecutionPhase(old(tasks)[id].status) ==>
                InterruptEvent(id, old(tasks)[id].status, old(tasks)[id].agentId in connected, now) in trace
    {
      hide DbOk, Step, TaskRows.InterruptTask;
      var candidates := map id | id in tasks && ExecutionPhase(tasks[id].status) :: tasks[id];
      var todo := candidates.Keys;
      trace := [];
      while todo != {}
        invariant Valid() && State() == Run(old(State()), window, trace) && todo <= candidates.Keys
        invariant forall id :: id in old(tasks) && ExecutionPhase(old(tasks)[id].status) ==> id in candidates && candidates[id] == old(tasks)[id]
        invariant forall id :: id in candidates ==>
                    id in todo || InterruptEvent(id, candidates[id].status, candidates[id].agentId in connected, now) in trace
        decreases |todo|
      {
        var id :| id in todo;
        todo := todo - {id};
        var candidate := candidates[id];
        ghost var before := State();
        InterruptTask(id, candidate.status, candidate.agentId in connected, now);
        ghost var e := InterruptEvent(id, candidate.status, candidate.agentId in connected, now);
        InterruptStep(before, window, id, candidate.status, candidate.agentId in connected, now);
        RunSnoc(old(State()), window, trace, e);
        trace := trace + [e];
      }
    }

    /** `phase` is the status the task was found in. */
    method InterruptTask(id: TaskId, phase: Status, connected: bool, now: Time)
      requires Valid()
      modifies this
      ensures Valid() && State() == TaskRows.InterruptTask(old(State()), id, phase, connected, window, now)
    {
      InterruptKeeps(State(), id, phase, connected, window, now);
      hide DbOk, Lost;
      if id !in tasks || tasks[id].agentId !in agents || agents[tasks[id].agentId].activeTaskId != Some(id) || !ExecutionPhase(phase) {
        return;
      }
      if tasks[id].status != phase {
        return;
      }
      var agentId := tasks[id].agentId;
      LoseTask(id, now);
      if !connected {
        agents := agents[agentId := agents[agentId].(status := OFFLINE)];
      }
    }

    // --- Reports ---

    method Accept(agentId: AgentId, taskId: WireId, token: Token, ready: bool, now: Time) returns (reply: Reply)
      requires Valid()
      modifies this
      ensures Valid() && Tx(State(), reply) == TaskRows.Accept(old(State()), agentId, taskId, token, ready, now)
    {
      AcceptKeeps(State(), agentId, taskId, token, ready, now);
      hide DbOk;
      if taskId.Malformed? || !ready {
        return Rejected(TASK_LEASE_INVALID);
      }
      if agentId !in agents || !agents[agentId].enabled || agents[agentId].status != ONLINE {
        return Rejected(TASK_LEASE_INVALID);
      }
      var id := taskId.id;
      if id !in tasks || tasks[id].agentId != agentId || agents[agentId].activeTaskId != Some(id) || tasks[id].leaseHash.None? {
        return Rejected(TASK_LEASE_INVALID);
      }
      if tasks[id].leaseExpiresAt.None? || tasks[id].leaseExpiresAt.value <= now {
        return Rejected(TASK_LEASE_INVALID);
      }
      if tasks[id].leaseHash != Some(token) {
        return Rejected(TASK_LEASE_INVALID);
      }
      if tasks[id].status == PREPARING {
        return Done;
      }
      if tasks[id].status != DISPATCHED {
        return Rejected(TASK_INVALID_STATE);
      }
      var moved := Transition(id, PREPARING, now, (t: Task) => t.(startedAt := Some(now)));
      reply := Done;
    }

    method ReportTaskStatus(agentId: AgentId, taskId: WireId, token: Token, status: Status, commit: WireCommit, ready: bool, now: Time)
      returns (reply: Reply)
      requires Valid()
      modifies this
      ensures Valid() && Tx(State(), reply) == ReportStatus(old(State()), agentId, taskId, token, status, commit, ready, now)
    {
      ReportStatusKeeps(State(), agentId, taskId, token, status, commit, ready, now);
      hide DbOk;
      if taskId.Malformed? || status !in {PREPARING, RUNNING, UPLOADING} || (status == PREPARING && !commit.Commit?) || commit.Unreadable? {
        return Rejected(VALIDATION_FAILED);
      }
      if !ready {
        return Rejected(TASK_LEASE_INVALID);
      }
      if agentId !in agents || !agents[agentId].enabled || agents[agentId].status != ONLINE {
        return Rejected(TASK_LEASE_INVALID);
      }
      var id := taskId.id;
      if id !in tasks || tasks[id].agentId != agentId || agents[agentId].activeTaskId != Some(id) {
        return Rejected(TASK_LEASE_INVALID);
      }
      var task := tasks[id];
      if task.leaseHash.None? || task.leaseExpiresAt.None? || task.leaseExpiresAt.value <= now {
        return Rejected(TASK_LEASE_INVALID);
      }
      if task.leaseHash != Some(token) {
        return Rejected(TASK_LEASE_INVALID);
      }
      if commit.Commit? && task.sourceCommit.Some? && task.sourceCommit.value != commit.value {
        return Rejected(TASK_INVALID_STATE);
      }
      if task.status == status {
        if commit.Commit? && task.sourceCommit.None? {
          tasks := tasks[id := task.(sourceCommit := Some(commit.value), updatedAt := now)];
        }
        return Done;
      }
      var expected := if status == RUNNING then Some(PREPARING) else if status == UPLOADING then Some(RUNNING) else None;
      if expected.None? || task.status != expected.value {
        return Rejected(TASK_INVALID_STATE);
      }
      var moved := Transition(id, status, now,
                              (t: Task) => if commit.Commit? && task.sourceCommit.None? then t.(sourceCommit := Some(commit.value)) else t);
      reply := Done;
    }

    method ReportPreparationFailure(agentId: AgentId, taskId: WireId, token: Token, exitCode: Option<int>, ready: bool, now: Time)
      returns (reply: Reply)
      requires Valid()
      modifies this
      ensures Valid() && Tx(State(), reply) == ReportFailure(old(State()), agentId, taskId, token, exitCode, ready, now)
    {
      ReportFailureKeeps(State(), agentId, taskId, token, exitCode, ready, now);
      hide DbOk;
      if taskId.Malformed? {
        return Rejected(TASK_LEASE_INVALID);
      }
      if exitCode.Some? && (exitCode.value < -2_147_483_648 || exitCode.value > 2_147_483_647) {
        return Rejected(VALIDATION_FAILED);
      }
      if !ready || agentId !in agents || !agents[agentId].enabled || agents[agentId].status != ONLINE {
        return Rejected(TASK_LEASE_INVALID);
      }
      var id := taskId.id;
      if id !in tasks || tasks[id].agentId != agentId {
        return Rejected(TASK_LEASE_INVALID);
      }
      var task := tasks[id];
      if task.status == FAILED {
        if task.logLeaseHash.None? || task.logLeaseExpiresAt.None? || task.logLeaseExpiresAt.value <= now || task.logLeaseHash != Some(token) {
          return Rejected(TASK_LEASE_INVALID);
        }
        return Done;
      }
      if agents[agentId].activeTaskId != Some(id) {
        return Rejected(TASK_LEASE_INVALID);
      }
      if task.leaseHash != Some(token) || task.leaseExpiresAt.None? || task.leaseExpiresAt.value <= now {
        return Rejected(TASK_LEASE_INVALID);
      }
      if task.status !in {PREPARING, RUNNING, UPLOADING, CANCELING} {
        return Rejected(TASK_INVALID_STATE);
      }
      var moved := Transition(id, FAILED, now,
                              (t: Task) => t.(leaseHash := None, leaseExpiresAt := None, finishedAt := Some(now), exitCode := exitCode));
      SetActive(agentId, None);
      reply := Done;
    }

    method ReportTaskCanceled(agentId: AgentId, taskId: WireId, token: Token, ready: bool, now: Time) returns (reply: Reply)
      requires Valid()
      modifies this
      ensures Valid() && Tx(State(), reply) == ReportCanceled(old(State()), agentId, taskId, token, ready, now)
    {
      ReportCanceledKeeps(State(), agentId, taskId, token, ready, now);
      hide DbOk;
      if taskId.Malformed? || !ready || agentId !in agents {
        return Rejected(TASK_LEASE_INVALID);
      }
      var id := taskId.id;
      if id !in tasks || tasks[id].agentId != agentId {
        return Rejected(TASK_LEASE_INVALID);
      }
      var task := tasks[id];
      if task.status == CANCELED {
        if task.logLeaseHash.None? || task.logLeaseExpiresAt.None? || task.logLeaseExpiresAt.value <= now || task.logLeaseHash != Some(token) {
          return Rejected(TASK_LEASE_INVALID);
        }
        return Done;
      }
      if agents[agentId].activeTaskId != Some(id) || task.leaseHash != Some(token) {
        return Rejected(TASK_LEASE_INVALID);
      }
      if task.status != CANCELING {
        return Rejected(TASK_INVALID_STATE);
      }
      var moved := Transition(id, CANCELED, now, (t: Task) => t.(finishedAt := Some(now), leaseHash := None, leaseExpiresAt := None));
      SetActive(agentId, None);
      reply := Done;
    }

    method CompleteTask(agentId: AgentId, taskId: WireId, token: Token, exitCode: int, count: nat, bytes: nat,
                        commit: Option<string>, files: seq<Artifact>, finishedAt: Time, now: Time)
      returns (reply: Reply)
      requires Valid()
      modifies this
      ensures Valid() && Tx(State(), reply) == Complete(old(State()), agentId, taskId, token, exitCode, count, bytes, commit, files, finishedAt, now)
    {
      CompleteKeeps(State(), agentId, taskId, token, exitCode, count, bytes, commit, files, finishedAt, now);
      hide DbOk;
      if taskId.Malformed? || exitCode != 0 {
        return Rejected(VALIDATION_FAILED);
      }
      if agentId !in agents || !agents[agentId].enabled || agents[agentId].status != ONLINE {
        return Rejected(TASK_LEASE_INVALID);
      }
      var id := taskId.id;
      if id !in tasks || tasks[id].agentId != agentId {
        return Rejected(TASK_LEASE_INVALID);
      }
      var task := tasks[id];
      if task.status == SUCCEEDED {
        if task.logLeaseHash.None? || task.logLeaseExpiresAt.None? || task.logLeaseExpiresAt.value <= now || task.logLeaseHash != Some(token) {
          return Rejected(TASK_LEASE_INVALID);
        }
        if task.artifactCount != count || task.artifactBytes != bytes {
          return Rejected(TASK_INVALID_STATE);
        }
        return Done;
      }
      if agents[agentId].activeTaskId != Some(id) || task.status != UPLOADING || task.leaseHash.None? || task.leaseExpiresAt.None?
         || task.leaseExpiresAt.value <= now || task.leaseHash != Some(token) {
        return Rejected(TASK_LEASE_INVALID);
      }
      var total, uploaded := Totals(files);
      if |files| == 0 || !uploaded || |files| != count || total != bytes {
        return Rejected(TASK_INVALID_STATE);
      }
      hide TotalSize, AllUploaded;
      var moved := Transition(id, SUCCEEDED, now,
                              (t: Task) => WithArtifacts(t, |files|, total, finishedAt, commit));
      SetActive(agentId, None);
      reply := Done;
    }

    static function WithArtifacts(t: Task, count: nat, bytes: nat, finishedAt: Time, commit: Option<string>): Task {
      var done := t.(exitCode := Some(0), finishedAt := Some(finishedAt), artifactCount := count, artifactBytes := bytes,
                     leaseHash := None, leaseExpiresAt := None);
      if commit.Some? && t.sourceCommit.None? then done.(sourceCommit := commit) else done
    }

    /** The sum of the sizes, and whether every file is uploaded. */
    static method Totals(files: seq<Artifact>) returns (total: nat, uploaded: bool)
      ensures total == TotalSize(files) && uploaded == AllUploaded(files)
    {
      hide TotalSize, AllUploaded;
      total, uploaded := 0, true;
      NoFiles();
      assert files[..0] == [];
      for i := 0 to |files|
        invariant total == TotalSize(files[..i]) && uploaded == AllUploaded(files[..i])
      {
        OneMoreFile(files, i);
        total := total + files[i].size;
        uploaded := uploaded && files[i].uploaded;
      }
      assert files[..|files|] == files;
    }

    method FailRejected(agentId: AgentId, taskId: WireId, token: Token, now: Time)
      requires Valid()
      modifies this
      ensures Valid() && State() == FailRejectedCompletion(old(State()), agentId, taskId, token, now)
    {
      FailRejectedKeeps(State(), agentId, taskId, token, now);
      hide DbOk;
      if taskId.Malformed? || agentId !in agents {
        return;
      }
      var id := taskId.id;
      if id !in tasks || tasks[id].agentId != agentId || tasks[id].status != UPLOADING || agents[agentId].activeTaskId != Some(id)
         || tasks[id].leaseExpiresAt.None? || tasks[id].leaseExpiresAt.value <= now || tasks[id].leaseHash != Some(token) {
        return;
      }
      var moved := Transition(id, FAILED, now, (t: Task) => t.(leaseHash := None, leaseExpiresAt := None, finishedAt := Some(now)));
      SetActive(agentId, None);
    }

    // --- Cancellation ---

    method CancelEarly(id: TaskId, now: Time)
      requires id in tasks && tasks[id].status in {CREATED, WAITING_AGENT, QUEUED}
      modifies `tasks
      ensures tasks == old(tasks)[id := CanceledEarly(old(tasks)[id], now)]
    {
      var canceling := Transition(id, CANCELING, now,
                                  (t: Task) => t.(cancelRequestedAt := Some(now), leaseHash := None, leaseExpiresAt := None));
      var canceled := Transition(id, CANCELED, now,
                                 (t: Task) => t.(cancelRequestedAt := Some(now), finishedAt := Some(now), leaseHash := None, leaseExpiresAt := None));
    }

    method RequestCancellation(taskId: WireId, now: Time) returns (reply: Reply)
      modifies this
      ensures Tx(State(), reply) == TaskRows.RequestCancellation(old(State()), taskId, now)
      ensures old(Valid()) ==> Valid()
    {
      ghost var before := State();
      if DbOk(before) {
        CancellationKeeps(before, taskId, now);
      }
      hide DbOk, CanceledEarly;
      if taskId.Malformed? || taskId.id !in tasks {
        return Rejected(RESOURCE_NOT_FOUND);
      }
      var id := taskId.id;
      var task := tasks[id];
      var agentId := task.agentId;
      if agentId !in agents {
        return Rejected(RESOURCE_NOT_FOUND);
      }
      if task.status == SUCCEEDED || task.status == FAILED {
        return Rejected(TASK_INVALID_STATE);
      }
      if task.status == CANCELED {
        if agents[agentId].activeTaskId == Some(id) {
          SetActive(agentId, None);
        }
        return Done;
      }
      if task.status in {CREATED, WAITING_AGENT, QUEUED} {
        CancelEarly(id, now);
        if agents[agentId].activeTaskId == Some(id) {
          SetActive(agentId, None);
        }
        return Done;
      }
      if agents[agentId].activeTaskId != Some(id) || task.leaseHash.None? || task.leaseExpiresAt.None? {
        return Rejected(TASK_INVALID_STATE);
      }
      if task.status != CANCELING {
        var moved := Transition(id, CANCELING, now, (t: Task) => t.(cancelRequestedAt := Some(now)));
      } else if task.cancelRequestedAt.None? {
        tasks := tasks[id := task.(cancelRequestedAt := Some(now), updatedAt := now)];
      }
      reply := Done;
    }

    // --- Hello ---

    /** Fails a task nobody will resume. A task that holds no slot cannot fail; the attempt has no effect. */
    method FailOrphanedTask(id: TaskId, agentId: AgentId, now: Time) returns (failed: bool)
      requires agentId in agents
      modifies this
      ensures State() == FailOrphan(old(State()), agentId, id, now)
    {
      failed := false;
      if id !in tasks || tasks[id].agentId != agentId || tasks[id].status in {SUCCEEDED, FAILED, CANCELED} {
        return;
      }
      var moved := Transition(id, FAILED, now,
                              (t: Task) => t.(leaseHash := None, leaseExpiresAt := None, recoveryStatus := None, agentLostAt := None,
                                              recoveryDeadlineAt := None, finishedAt := Some(now)));
      if moved == Changed {
        SetActive(agentId, None);
        failed := true;
      }
    }

    method ReconcileAgentHello(agentId: AgentId, current: Option<CurrentTask>, capable: bool, now: Time) returns (decision: Option<Decision>)
      requires agentId in agents
      modifies this
      ensures HelloTx(State(), decision) == ReconcileHello(old(State()), agentId, current, capable, now)
    {
      hide FailOrphan, Moved, Recovered;
      var active := agents[agentId].activeTaskId;
      if active.None? && current.None? {
        return None;
      }
      var wire := if current.Some? then current.value.taskId else Uuid(active.value);
      if wire.Malformed? {
        if active.Some? {
          var failed := FailOrphanedTask(active.value, agentId, now);
        }
        return None;
      }
      var id := wire.id;
      var abandon := if current.Some? then Some(Decision(id, ABANDON)) else None;
      var cancellationUsable := id in tasks && tasks[id].status == CANCELING && tasks[id].cancelRequestedAt.Some?
                                && now - tasks[id].cancelRequestedAt.value < CANCELLATION_CONFIRMATION_TIMEOUT_MS;
      var valid := id in tasks && tasks[id].agentId == agentId && active == Some(id) && tasks[id].leaseHash.Some?
                   && tasks[id].leaseExpiresAt.Some? && (tasks[id].leaseExpiresAt.value > now || cancellationUsable);
      if !valid {
        if active.Some? {
          var failed := FailOrphanedTask(active.value, agentId, now);
        }
        return abandon;
      }
      decision := DecideResume(agentId, id, current, capable, now);
    }

    /** The part of the reconciliation after the task was found resumable. */
    method DecideResume(agentId: AgentId, id: TaskId, current: Option<CurrentTask>, capable: bool, now: Time) returns (decision: Option<Decision>)
      requires Resumable(State(), agentId, id, now)
      modifies this
      ensures HelloTx(State(), decision) == Resume(old(State()), FailOrphan(old(State()), agentId, id, now), agentId, id, current, capable, now)
    {
      hide FailOrphan;
      var task := tasks[id];
      var abandon := if current.Some? then Some(Decision(id, ABANDON)) else None;
      if task.interactive && !capable {
        var failed := FailOrphanedTask(id, agentId, now);
        return abandon;
      }
      if current.None? || Some(current.value.token) != task.leaseHash {
        var failed := FailOrphanedTask(id, agentId, now);
        return abandon;
      }
      if task.status == AGENT_LOST {
        if task.recoveryStatus.None? || !ExecutionPhase(task.recoveryStatus.value) || task.recoveryDeadlineAt.None?
           || task.recoveryDeadlineAt.value <= now || current.value.status != task.recoveryStatus.value {
          var failed := FailOrphanedTask(id, agentId, now);
          return Some(Decision(id, ABANDON));
        }
        var moved := Transition(id, task.recoveryStatus.value, now,
                                (t: Task) => t.(recoveryStatus := None, agentLostAt := None, recoveryDeadlineAt := None));
        return Some(Decision(id, RESUME(task.recoveryStatus.value)));
      }
      if task.status == CANCELING {
        if !ExecutionPhase(current.value.status) {
          var failed := FailOrphanedTask(id, agentId, now);
          return Some(Decision(id, ABANDON));
        }
        return Some(Decision(id, CANCEL(current.value.status)));
      }
      if !ExecutionPhase(task.status) || current.value.status != task.status {
        var failed := FailOrphanedTask(id, agentId, now);
        return Some(Decision(id, ABANDON));
      }
      decision := Some(Decision(id, RESUME(task.status)));
    }

    method HandleHello(agentId: AgentId, current: Option<CurrentTask>, capable: bool, now: Time) returns (decision: Option<Decision>)
      requires Valid()
      modifies this
      ensures Valid() && HelloTx(State(), decision) == Hello(old(State()), agentId, current, capable, now)
    {
      HelloKeeps(State(), agentId, current, capable, now);
      if agentId !in agents || !agents[agentId].enabled {
        return None;
      }
      ReconcileKeeps(State(), agentId, current, capable, now);
      hide DbOk, ReconcileHello;
      decision := ReconcileAgentHello(agentId, current, capable, now);
      StatusAndPointer(State(), agentId, Kept(decision), ONLINE);
      hide SetStatus, Point;
      var active := match decision
        case Some(Decision(id, RESUME(_))) => Some(id)
        case Some(Decision(id, CANCEL(_))) => Some(id)
        case _ => None;
      agents := agents[agentId := agents[agentId].(status := ONLINE, activeTaskId := active)];
    }

    // --- Queue ---

    method OnAgentReady(agentId: AgentId, capable: bool, now: Time)
      requires Valid()
      modifies this
      ensures Valid() && State() == AgentReady(old(State()), agentId, capable, now)
    {
      IdleIs(State(), agentId, capable, now);
      ReadyKeeps(State(), agentId, capable, now);
      hide DbOk, Queued, Wakes, AgentReady;
      if agentId !in agents || !agents[agentId].enabled || agents[agentId].status != ONLINE || agents[agentId].activeTaskId.Some? {
        return;
      }
      QueueWaiting(agentId, capable, now);
      ReadyIs(old(State()), tasks, agentId, capable, now);
    }

    method QueueWaiting(agentId: AgentId, capable: bool, now: Time)
      modifies `tasks
      ensures tasks.Keys == old(tasks).Keys
      ensures forall id :: id in tasks ==>
                tasks[id] == if Wakes(old(tasks)[id], agentId, capable) then Queued(old(tasks)[id], now) else old(tasks)[id]
    {
      hide Queued;
      var waiting := set id | id in tasks && tasks[id].agentId == agentId && tasks[id].status == WAITING_AGENT;
      while waiting != {}
        invariant tasks.Keys == old(tasks).Keys
        invariant forall id :: id in waiting ==> id in tasks && tasks[id] == old(tasks)[id]
                                                 && tasks[id].agentId == agentId && tasks[id].status == WAITING_AGENT
        invariant forall id :: id in tasks && id !in waiting ==>
                    tasks[id] == if Wakes(old(tasks)[id], agentId, capable) then Queued(old(tasks)[id], now) else old(tasks)[id]
        decreases |waiting|
      {
        SomeId(waiting);
        var id :| id in waiting;
        waiting := waiting - {id};
        if tasks[id].interactive && !capable {
          continue;
        }
        Enqueue(id, now);
      }
    }

    method Enqueue(id: TaskId, now: Time)
      requires id in tasks && tasks[id].status == WAITING_AGENT
      modifies `tasks
      ensures tasks == old(tasks)[id := Queued(old(tasks)[id], now)]
    {
      var queuedAt := if tasks[id].queuedAt.Some? then tasks[id].queuedAt else Some(now);
      var moved := Transition(id, QUEUED, now, (t: Task) => t.(queuedAt := queuedAt));
    }

    /** The first queued task of the agent, in order of creation time and id. */
    method FindFirst(agentId: AgentId, requested: Option<TaskId>) returns (found: Option<TaskId>)
      ensures found.Some? ==> First(State(), agentId, requested, found.value)
      ensures found.None? ==> forall id :: !Candidate(State(), agentId, requested, id)
    {
      var todo := tasks.Keys;
      found := None;
      while todo != {}
        invariant todo <= tasks.Keys
        invariant found.Some? ==> Candidate(State(), agentId, requested, found.value)
        invariant forall id :: Candidate(State(), agentId, requested, id) && id !in todo ==>
                    found.Some? && (id == found.value || Before(State(), found.value, id))
        decreases |todo|
      {
        var id :| id in todo;
        todo := todo - {id};
        if tasks[id].agentId == agentId && tasks[id].status == QUEUED && (requested.Some? ==> id == requested.value) {
          if found.None? || tasks[id].createdAt < tasks[found.value].createdAt
             || (tasks[id].createdAt == tasks[found.value].createdAt && id < found.value) {
            found := Some(id);
          }
        }
      }
    }

    method FailUndispatchable(id: TaskId, now: Time)
      requires id in tasks && tasks[id].status == QUEUED
      modifies `tasks
      ensures tasks == old(tasks)[id := FailedDispatch(old(tasks)[id], now)]
    {
      var dispatched := Transition(id, DISPATCHED, now, (t: Task) => t.(leaseHash := None, leaseExpiresAt := None));
      var failed := Transition(id, FAILED, now, (t: Task) => t.(leaseHash := None, leaseExpiresAt := None));
    }

    method Dispatch(id: TaskId, x: ClaimContext)
      requires id in tasks && tasks[id].status == QUEUED
      modifies `tasks
      ensures tasks == old(tasks)[id := Dispatched(old(tasks)[id], x)]
    {
      var moved := Transition(id, DISPATCHED, x.now,
                              (t: Task) => t.(leaseHash := Some(x.token), leaseExpiresAt := Some(x.expiresAt),
                                              logLeaseHash := Some(x.token), logLeaseExpiresAt := Some(x.expiresAt + LOG_LEASE_WINDOW_MS)));
    }

    method SendBack(id: TaskId, now: Time)
      requires id in tasks && tasks[id].status == QUEUED
      modifies `tasks
      ensures tasks == old(tasks)[id := Moved(old(tasks)[id], WAITING_AGENT, now)]
    {
      var moved := Transition(id, WAITING_AGENT, now, (t: Task) => t);
    }

    method ClaimInTransaction(agentId: AgentId, requested: Option<WireId>, x: ClaimContext, ready: bool)
      returns (result: ClaimResult, failed: seq<TaskId>)
      requires Valid()
      modifies this
      ensures Valid() && ClaimTx(State(), result, failed) == Claim(old(State()), agentId, requested, x, ready)
    {
      ClaimKeeps(State(), agentId, requested, x, ready);
      hide DbOk, ClaimLoop;
      failed := [];
      if !ready {
        return Refused(AGENT_OFFLINE), [];
      }
      if requested.Some? && requested.value.Malformed? {
        return Nothing, [];
      }
      if agentId !in agents {
        return Refused(RESOURCE_NOT_FOUND), [];
      }
      if !agents[agentId].enabled {
        return Refused(AGENT_DISABLED), [];
      }
      if agents[agentId].status != ONLINE {
        return Refused(AGENT_OFFLINE), [];
      }
      if agents[agentId].activeTaskId.Some? {
        return Nothing, [];
      }
      var wanted := if requested.Some? then Some(requested.value.id) else None;
      result, failed := SkipLoop(agentId, wanted, x);
    }

    method SkipLoop(agentId: AgentId, wanted: Option<TaskId>, x: ClaimContext) returns (result: ClaimResult, failed: seq<TaskId>)
      requires agentId in agents
      modifies this
      ensures ClaimTx(State(), result, failed) == ClaimLoop(old(State()), agentId, wanted, x, MAX_CLAIM_VALIDATION_SKIPS)
    {
      hide ClaimLoop, First, Candidate, FailedDispatch, Dispatched, Moved;
      failed := [];
      var attempt := 0;
      while attempt < MAX_CLAIM_VALIDATION_SKIPS
        invariant 0 <= attempt <= MAX_CLAIM_VALIDATION_SKIPS && agentId in agents
        invariant ClaimLoop(old(State()), agentId, wanted, x, MAX_CLAIM_VALIDATION_SKIPS)
                    == After(failed, ClaimLoop(State(), agentId, wanted, x, MAX_CLAIM_VALIDATION_SKIPS - attempt))
      {
        var left := MAX_CLAIM_VALIDATION_SKIPS - attempt;
        ghost var before := State();
        var found := FindFirst(agentId, wanted);
        assert State() == before;
        if found.None? {
          NoFirst(before, agentId, wanted, x, left);
          AfterNothing(failed, before, Nothing);
          return Nothing, failed;
        }
        var id := found.value;
        ClaimTurn(before, agentId, wanted, x, left, id);
        CandidateIsKnown(before, agentId, wanted, id);
        if id in x.invalid {
          FailUndispatchable(id, x.now);
          AfterFailed(failed, id, ClaimLoop(State(), agentId, wanted, x, left - 1));
          failed := failed + [id];
          attempt := attempt + 1;
          continue;
        }
        if tasks[id].interactive && !x.capable {
          SendBack(id, x.now);
          AfterNothing(failed, State(), Nothing);
          return Nothing, failed;
        }
        if id in x.unencodable {
          FailUndispatchable(id, x.now);
          AfterFailed(failed, id, ClaimLoop(State(), agentId, wanted, x, left - 1));
          failed := failed + [id];
          attempt := attempt + 1;
          continue;
        }
        Dispatch(id, x);
        SetActive(agentId, Some(id));
        AfterNothing(failed, State(), Assigned(id));
        return Assigned(id), failed;
      }
      NoAttempts(State(), agentId, wanted, x);
      AfterNothing(failed, State(), Notify);
      result := Notify;
    }

    // --- Scanners ---

    method ReclaimDispatch(id: TaskId, ready: bool, now: Time)
      requires Valid()
      modifies this
      ensures Valid() && State() == TaskRows.ReclaimDispatch(old(State()), id, ready, now)
    {
      ReclaimDispatchKeeps(State(), id, ready, now);
      hide DbOk, BackToWaiting, Moved, Unleased;
      if id !in tasks || tasks[id].agentId !in agents || agents[tasks[id].agentId].activeTaskId != Some(id) {
        return;
      }
      var agentId := tasks[id].agentId;
      if tasks[id].status != DISPATCHED || tasks[id].updatedAt >= now - DISPATCH_CONFIRMATION_TIMEOUT_MS {
        return;
      }
      if agents[agentId].enabled && agents[agentId].status == ONLINE && ready {
        Requeue(id, now);
      } else {
        MoveDispatchedToWaiting(id, now);
      }
      SetActive(agentId, None);
    }

    method Requeue(id: TaskId, now: Time)
      requires id in tasks && tasks[id].status == DISPATCHED
      modifies `tasks
      ensures tasks == old(tasks)[id := Unleased(Moved(old(tasks)[id], QUEUED, now))]
    {
      var moved := Transition(id, QUEUED, now, (t: Task) => t.(leaseHash := None, leaseExpiresAt := None));
    }

    method FailUnconfirmed(id: TaskId, now: Time)
      requires id in tasks && tasks[id].status == CANCELING
      modifies `tasks
      ensures tasks == old(tasks)[id := Unconfirmed(old(tasks)[id], now)]
    {
      var moved := Transition(id, FAILED, now, (t: Task) => t.(leaseHash := None, leaseExpiresAt := None, finishedAt := Some(now)));
    }

    method ReclaimCancellation(id: TaskId, now: Time) returns (recovered: bool)
      requires Valid()
      modifies this
      ensures Valid() && State() == TaskRows.ReclaimCancellation(old(State()), id, now)
    {
      ReclaimCancellationKeeps(State(), id, now);
      hide DbOk, Unconfirmed;
      if id !in tasks || tasks[id].agentId !in agents {
        return false;
      }
      var agentId := tasks[id].agentId;
      if tasks[id].status != CANCELING || tasks[id].cancelRequestedAt.None?
         || tasks[id].cancelRequestedAt.value >= now - CANCELLATION_CONFIRMATION_TIMEOUT_MS {
        return false;
      }
      FailUnconfirmed(id, now);
      StatusAndPointer(State(), agentId, None, OFFLINE);
      hide SetStatus, Point;
      if agents[agentId].activeTaskId == Some(id) {
        agents := agents[agentId := agents[agentId].(activeTaskId := None, status := OFFLINE)];
      }
      recovered := true;
    }

    method ReclaimRecovery(id: TaskId, now: Time) returns (recovered: bool)
      requires Valid()
      modifies this
      ensures Valid() && State() == TaskRows.ReclaimRecovery(old(State()), id, now)
    {
      ReclaimRecoveryKeeps(State(), id, now);
      hide DbOk;
      if id !in tasks || tasks[id].agentId !in agents {
        return false;
      }
      var agentId := tasks[id].agentId;
      if tasks[id].status != AGENT_LOST || tasks[id].recoveryDeadlineAt.None? || tasks[id].recoveryDeadlineAt.value > now {
        return false;
      }
      var moved := Transition(id, FAILED, now,
                              (t: Task) => t.(leaseHash := None, leaseExpiresAt := None, recoveryStatus := None, agentLostAt := None,
                                              recoveryDeadlineAt := None, finishedAt := Some(now)));
      if agents[agentId].activeTaskId == Some(id) {
        SetActive(agentId, None);
      }
      recovered := true;
    }

    /** The periodic scan: unconfirmed dispatches, then unconfirmed cancellations, then recovery windows. */
    method ReclaimTimedOutDispatches(ready: set<AgentId>, now: Time) returns (ghost trace: seq<Event>)
      requires Valid()
      modifies this
      ensures Valid() && State() == Run(old(State()), window, trace) && ScanTrace(trace)
      ensures NoneOverdue(State(), now)
      ensures forall agentId, lostAt :: Parked(old(State()), agentId, lostAt, window) && Late(now, lostAt, window) ==>
                Released(State(), agentId)
    {
      hide DbOk, Step, TaskRows.ReclaimDispatch, Parked, Released, Late;
      var todo := set id | id in tasks && tasks[id].status == DISPATCHED && tasks[id].updatedAt < now - DISPATCH_CONFIRMATION_TIMEOUT_MS;
      trace := [];
      while todo != {}
        invariant Valid() && State() == Run(old(State()), window, trace) && ScanTrace(trace)
        invariant forall id :: id in tasks && OverdueDispatch(tasks[id], now) ==> id in todo
        decreases |todo|
      {
        SomeId(todo);
        var id :| id in todo;
        todo := todo - {id};
        ghost var before := State();
        var isReady := id in tasks && tasks[id].agentId in ready;
        ReclaimDispatch(id, isReady, now);
        ScanStep(before, window, id, isReady, now);
        forall other: TaskId
          ensures (other in tasks <==> other in before.tasks)
                  && (other in tasks && OverdueDispatch(tasks[other], now) ==> other != id && before.tasks[other] == tasks[other])
        {
          DispatchSettles(before, id, isReady, now, other);
        }
        RunSnoc(old(State()), window, trace, ScanDispatchEvent(id, isReady, now));
        trace := trace + [ScanDispatchEvent(id, isReady, now)];
      }
      ghost var reclaimed := tasks;
      ghost var canceled := ReclaimTimedOutCancellations(now);
      RunConcat(old(State()), window, trace, canceled);
      ghost var confirmed := tasks;
      trace := trace + canceled;
      ghost var recovered := ReclaimTimedOutRecoveries(now);
      RunConcat(old(State()), window, trace, recovered);
      trace := trace + recovered;
      StillNone(reclaimed, confirmed, tasks);
      NoDispatchOverdue(reclaimed, tasks, now);
      ScanReleases(old(State()), window, trace, now);
    }

    method ReclaimTimedOutCancellations(now: Time) returns (ghost trace: seq<Event>)
      requires Valid()
      modifies this
      ensures Valid() && State() == Run(old(State()), window, trace) && ScanTrace(trace)
      ensures forall id :: id in tasks ==> !OverdueCancellation(tasks[id], now)
      ensures DispatchesNone(old(tasks), tasks)
    {
      NoneDispatched(tasks);
      hide DbOk, Step, DispatchesNone, TaskRows.ReclaimCancellation, Parked, By, StampedBy, Offline, DisconnectsAll, OnlyDisconnects, ScanTrace;
      var todo := set id | id in tasks && OverdueCancellation(tasks[id], now);
      NoScans(0);
      trace := [];
      while todo != {}
        invariant Valid() && State() == Run(old(State()), window, trace) && ScanTrace(trace)
        invariant forall id :: id in tasks && OverdueCancellation(tasks[id], now) ==> id in todo
        invariant DispatchesNone(old(tasks), tasks)
        invariant forall id :: id in todo ==> id in tasks
        decreases |todo|
      {
        SomeId(todo);
        var id :| id in todo;
        todo := todo - {id};
        var agentId := tasks[id].agentId;
        ghost var before := State();
        var failed := ReclaimCancellation(id, now);
        ScanStep(before, window, id, true, now);
        CancellationScanDispatchesNone(before, id, now);
        StillNone(old(tasks), before.tasks, tasks);
        forall other: TaskId
          ensures (other in tasks <==> other in before.tasks)
                  && (other in tasks && OverdueCancellation(tasks[other], now) ==> other != id && before.tasks[other] == tasks[other])
        {
          CancellationSettles(before, id, now, other);
        }
        RunSnoc(old(State()), window, trace, ScanCancellationEvent(id, now));
        MoreScans(trace, [ScanCancellationEvent(id, now)]);
        trace := trace + [ScanCancellationEvent(id, now)];
        if failed {
          ghost var scanned := tasks;
          ghost var disconnects := OnAgentDisconnected(agentId, _ => now);
          StillNone(old(tasks), scanned, tasks);
          RunConcat(old(State()), window, trace, disconnects);
          MoreDisconnectScans(trace, disconnects, agentId);
          trace := trace + disconnects;
        }
      }
    }

    method ReclaimTimedOutRecoveries(now: Time) returns (ghost trace: seq<Event>)
      requires Valid()
      modifies this
      ensures Valid() && State() == Run(old(State()), window, trace) && ScanTrace(trace)
      ensures forall id :: id in tasks ==> !OverdueRecovery(tasks[id], now)
      ensures forall id :: id in tasks && tasks[id].status == CANCELING ==> id in old(tasks) && old(tasks)[id] == tasks[id]
      ensures DispatchesNone(old(tasks), tasks)
    {
      NoneDispatched(tasks);
      hide DbOk, Step, DispatchesNone, TaskRows.ReclaimRecovery;
      var todo := set id | id in tasks && OverdueRecovery(tasks[id], now);
      trace := [];
      while todo != {}
        invariant Valid() && State() == Run(old(State()), window, trace) && ScanTrace(trace)
        invariant forall id :: id in tasks && OverdueRecovery(tasks[id], now) ==> id in todo
        invariant DispatchesNone(old(tasks), tasks)
        invariant forall id :: id in tasks && tasks[id].status == CANCELING ==> id in old(tasks) && old(tasks)[id] == tasks[id]
        decreases |todo|
      {
        SomeId(todo);
        var id :| id in todo;
        todo := todo - {id};
        ghost var before := State();
        var failed := ReclaimRecovery(id, now);
        ScanStep(before, window, id, true, now);
        RecoveryScanDispatchesNone(before, id, now);
        StillNone(old(tasks), before.tasks, tasks);
        forall other: TaskId
          ensures (other in tasks <==> other in before.tasks)
                  && (other in tasks && OverdueRecovery(tasks[other], now) ==> other != id && before.tasks[other] == tasks[other])
                  && (other in tasks && tasks[other].status == CANCELING ==> before.tasks[other] == tasks[other])
        {
          RecoverySettles(before, id, now, other);
        }
        RunSnoc(old(State()), window, trace, ScanRecoveryEvent(id, now));
        trace := trace + [ScanRecoveryEvent(id, now)];
      }
    }
  }
}
