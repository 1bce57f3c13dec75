/** What the other transactions do to any row: cancellations, losses, scans, queueing and reconnects. */
module TaskEffects {
  import opened Options
  import opened TaskStatus
  import opened TaskRows
  import opened TaskInvariants
  import opened TaskRuns
  import opened TaskReports

  /** Occupying its agent, from the dispatch to the end. */
  predicate Occupies(t: Task) {
    t.status in {DISPATCHED, PREPARING, RUNNING, UPLOADING, CANCELING, AGENT_LOST}
  }

  lemma SlotFacts(db: Db, id: TaskId)
    requires DbOk(db) && id in db.tasks
    ensures var t := db.tasks[id];
            && t.agentId in db.agents && t.status != CREATED
            && (Active(db, t.agentId, id) <==> Occupies(t))
            && (Occupies(t) <==> t.status !in {WAITING_AGENT, QUEUED, SUCCEEDED, FAILED, CANCELED})
            && (Occupies(t) ==> t.leaseHash.Some? && t.leaseExpiresAt.Some?)
            && (t.status == CANCELING ==> t.cancelRequestedAt.Some?)
            && (t.status == DISPATCHED ==> t.startedAt.None?)
  {
    RowIsOk(db, id);
    hide DbOk, Walk;
  }

  lemma CancelRows(t: Task, now: Time)
    ensures CanceledEarly(t, now) == Ended(After(t, CANCELING, now), CANCELED, now, now).(cancelRequestedAt := Some(now))
    ensures Canceling(t, now) == After(t, CANCELING, now).(cancelRequestedAt := Some(now))
  {
  }

  /** A task without a slot is canceled at once; one with a slot keeps lease and slot until its agent confirms. */
  lemma CancelEffect(db: Db, taskId: WireId, now: Time, id: TaskId)
    requires DbOk(db) && id in db.tasks
    ensures var t, after := db.tasks[id], RequestCancellation(db, taskId, now).db;
            && id in after.tasks
            && after.tasks[id] == if taskId == Uuid(id) && (t.status == WAITING_AGENT || t.status == QUEUED)
                                  then Ended(After(t, CANCELING, now), CANCELED, now, now).(cancelRequestedAt := Some(now))
                                  else if taskId == Uuid(id) && Occupies(t) && t.status != CANCELING
                                  then After(t, CANCELING, now).(cancelRequestedAt := Some(now))
                                  else t
  {
    hide DbOk, Active, Occupies, CanceledEarly, Canceling, Ended, After;
    SlotFacts(db, id);
    CancelRows(db.tasks[id], now);
  }

  lemma CancelAnswer(db: Db, id: TaskId, now: Time)
    requires DbOk(db)
    ensures RequestCancellation(db, Uuid(id), now).reply
            == if id !in db.tasks then Rejected(RESOURCE_NOT_FOUND)
               else if db.tasks[id].status == SUCCEEDED || db.tasks[id].status == FAILED then Rejected(TASK_INVALID_STATE)
               else Done
  {
    if id in db.tasks {
      RowIsOk(db, id);
    }
    hide DbOk, Walk, StartOk, Canceling, CanceledEarly;
  }

  lemma DispatchScanEffect(db: Db, scanned: TaskId, ready: bool, now: Time, id: TaskId)
    requires DbOk(db) && id in db.tasks
    ensures var t, after := db.tasks[id], ReclaimDispatch(db, scanned, ready, now);
            var overdue := scanned == id && t.status == DISPATCHED && now - t.updatedAt > 30_000;
            var online := t.agentId in db.agents && db.agents[t.agentId].enabled && db.agents[t.agentId].status == ONLINE && ready;
            && id in after.tasks
            && after.tasks[id] == (if !overdue then t
                                   else if online then After(t, QUEUED, now).(leaseHash := None, leaseExpiresAt := None)
                                   else After(After(t, QUEUED, now), WAITING_AGENT, now).(leaseHash := None, leaseExpiresAt := None))
            && (overdue ==> t.agentId in after.agents && after.agents[t.agentId].activeTaskId.None?)
  {
    RowIsOk(db, id);
    hide DbOk, Walk, StartOk, RecoveryOk;
  }

  lemma CancellationScanEffect(db: Db, scanned: TaskId, now: Time, id: TaskId)
    requires DbOk(db) && id in db.tasks
    ensures var t, after := db.tasks[id], ReclaimCancellation(db, scanned, now);
            var overdue := scanned == id && t.status == CANCELING && t.cancelRequestedAt.Some? && now - t.cancelRequestedAt.value > 30_000;
            && id in after.tasks && after.tasks[id] == (if overdue then Ended(t, FAILED, now, now) else t)
            && (overdue ==> t.agentId in after.agents && after.agents[t.agentId].activeTaskId.None? && after.agents[t.agentId].status == OFFLINE)
  {
    RowIsOk(db, id);
    hide DbOk, Walk, StartOk;
  }

  lemma RecoveryScanEffect(db: Db, scanned: TaskId, now: Time, id: TaskId)
    requires DbOk(db) && id in db.tasks
    ensures var t, after := db.tasks[id], ReclaimRecovery(db, scanned, now);
            var overdue := scanned == id && t.status == AGENT_LOST && t.recoveryDeadlineAt.Some? && now >= t.recoveryDeadlineAt.value;
            && id in after.tasks
            && after.tasks[id] == (if overdue then Ended(t, FAILED, now, now).(recoveryStatus := None, agentLostAt := None, recoveryDeadlineAt := None) else t)
            && (overdue ==> t.agentId in after.agents && after.agents[t.agentId].activeTaskId.None?)
  {
    RowIsOk(db, id);
    hide DbOk, Walk, StartOk;
  }

  /** A row whose agent was lost: its phase can be recovered within the window, but not past its lease. */
  function LostRow(t: Task, now: Time, window: nat): Task {
    After(t, AGENT_LOST, now).(
      recoveryStatus := Some(t.status), agentLostAt := Some(now),
      recoveryDeadlineAt := Some(if t.leaseExpiresAt.Some? && t.leaseExpiresAt.value < now + window then t.leaseExpiresAt.value else now + window))
  }

  lemma DisconnectEffect(db: Db, agentId: AgentId, lost: TaskId, window: nat, now: Time, id: TaskId)
    requires DbOk(db) && id in db.tasks
    ensures var t, after := db.tasks[id], DisconnectTask(db, agentId, lost, window, now);
            var mine := lost == id && t.agentId == agentId;
            && id in after.tasks
            && after.tasks[id] == (if mine && t.status == QUEUED then After(t, WAITING_AGENT, now)
                                   else if mine && t.status == DISPATCHED
                                   then After(After(t, QUEUED, now), WAITING_AGENT, now).(leaseHash := None, leaseExpiresAt := None)
                                   else if mine && t.status in {PREPARING, RUNNING, UPLOADING} then LostRow(t, now, window)
                                   else t)
  {
    RowIsOk(db, id);
    hide DbOk, Walk, RecoveryOk;
  }

  lemma InterruptEffect(db: Db, found: TaskId, phase: Status, connected: bool, window: nat, now: Time, id: TaskId)
    requires DbOk(db) && id in db.tasks
    ensures var t, after := db.tasks[id], InterruptTask(db, found, phase, connected, window, now);
            && id in after.tasks
            && after.tasks[id] == if found == id && t.status == phase && phase in {PREPARING, RUNNING, UPLOADING} then LostRow(t, now, window) else t
  {
    RowIsOk(db, id);
    hide DbOk, Walk, RecoveryOk;
  }

  /** The agent of an interrupted task keeps its slot, and is offline unless it is connected. */
  lemma InterruptAgents(db: Db, found: TaskId, phase: Status, connected: bool, window: nat, now: Time, agentId: AgentId)
    requires DbOk(db) && agentId in db.agents
    ensures var g, after := db.agents[agentId], InterruptTask(db, found, phase, connected, window, now);
            var interrupted := found in db.tasks && db.tasks[found].agentId == agentId && db.tasks[found].status == phase
                               && phase in {PREPARING, RUNNING, UPLOADING};
            && agentId in after.agents
            && after.agents[agentId] == if interrupted && !connected then g.(status := OFFLINE) else g
  {
    if found in db.tasks {
      RowIsOk(db, found);
    }
    hide DbOk, Walk, RecoveryOk, Lost;
  }

  /** What registration, the switch of an administrator and signs of life write: never a task or a slot. */
  lemma AgentRowEffects(db: Db, agentId: AgentId, enabled: bool, connected: bool, online: bool, other: AgentId)
    ensures AddAgent(db, agentId) == (if agentId in db.agents then db else db.(agents := db.agents[agentId := Agent(true, OFFLINE, None)]))
    ensures AddAgent(db, agentId).tasks == SetEnabled(db, agentId, enabled, connected).tasks == SetLiveness(db, agentId, online).tasks == db.tasks
    ensures other in db.agents ==>
              var g, switched, living := db.agents[other], SetEnabled(db, agentId, enabled, connected), SetLiveness(db, agentId, online);
              && other in switched.agents && other in living.agents
              && switched.agents[other].activeTaskId == living.agents[other].activeTaskId == g.activeTaskId
              && (other != agentId ==> switched.agents[other] == living.agents[other] == g)
              && (other == agentId ==>
                    && switched.agents[other].enabled == enabled && living.agents[other].enabled == g.enabled
                    && (switched.agents[other].status == ONLINE <==> enabled && connected)
                    && (switched.agents[other].status == DISABLED <==> !enabled)
                    && (g.enabled ==> (living.agents[other].status == ONLINE <==> online) && living.agents[other].status != DISABLED)
                    && (!g.enabled ==> living.agents[other] == g))
  {
  }

  lemma ReadyEffect(db: Db, agentId: AgentId, capable: bool, now: Time, id: TaskId)
    requires id in db.tasks
    ensures var t, after := db.tasks[id], AgentReady(db, agentId, capable, now);
            var wakes := agentId in db.agents && db.agents[agentId].enabled && db.agents[agentId].status == ONLINE
                         && db.agents[agentId].activeTaskId.None?
                         && t.agentId == agentId && t.status == WAITING_AGENT && (t.interactive ==> capable);
            && id in after.tasks
            && after.tasks[id] == if wakes then After(t, QUEUED, now).(queuedAt := if t.queuedAt.Some? then t.queuedAt else Some(now)) else t
  {
  }

  /** A new task is queued if the agent is connected, and waits for it otherwise. */
  lemma CreateEffect(db: Db, id: TaskId, agentId: AgentId, interactive: bool, ready: bool, now: Time)
    requires DbOk(db) && id !in db.tasks
    ensures var tx := CreateTask(db, id, agentId, interactive, ready, now);
            && (tx.reply == Done <==> agentId in db.agents && db.agents[agentId].enabled)
            && (tx.reply == Done <==> id in tx.db.tasks)
            && (tx.reply == Done ==>
                  var t := tx.db.tasks[id];
                  && t.agentId == agentId && t.interactive == interactive && t.createdAt == now
                  && t.status == (if ready then QUEUED else WAITING_AGENT) && t.leaseHash.None?
                  && t.queuedAt == (if ready then Some(now) else None)
                  && t.history == [Change(None, CREATED), Change(Some(CREATED), t.status)])
            && (forall other :: other in db.tasks ==> other in tx.db.tasks && tx.db.tasks[other] == db.tasks[other])
  {
    hide DbOk;
  }

  // --- Reconnects ---

  predicate Phased(s: Status) {
    s == PREPARING || s == RUNNING || s == UPLOADING
  }

  /** The hello reports the task under its lease, in the phase it holds or was lost in, in time; or any phase of a task
      that is being canceled, for 30 seconds even past its lease. */
  predicate Continues(t: Task, id: TaskId, current: Option<CurrentTask>, capable: bool, now: Time) {
    && current.Some? && current.value.taskId == Uuid(id) && t.leaseHash == Some(current.value.token) && (t.interactive ==> capable)
    && var unexpired := t.leaseExpiresAt.Some? && now < t.leaseExpiresAt.value;
       || (t.status == AGENT_LOST && t.recoveryStatus == Some(current.value.status) && unexpired
           && t.recoveryDeadlineAt.Some? && now < t.recoveryDeadlineAt.value)
       || (Phased(t.status) && current.value.status == t.status && unexpired)
       || (t.status == CANCELING && Phased(current.value.status)
           && (unexpired || (t.cancelRequestedAt.Some? && now - t.cancelRequestedAt.value < 30_000)))
  }

  function Unlost(t: Task): Task {
    t.(recoveryStatus := None, agentLostAt := None, recoveryDeadlineAt := None)
  }

  function Continued(t: Task, phase: Status, now: Time): Task {
    if t.status == AGENT_LOST then Unlost(After(t, phase, now)) else t
  }

  function Answer(t: Task, id: TaskId, phase: Status): Decision {
    Decision(id, if t.status == CANCELING then CANCEL(phase) else RESUME(phase))
  }

  /** What an agent is told that may not continue. */
  function Refusal(current: Option<CurrentTask>): Option<Decision> {
    if current.Some? && current.value.taskId.Uuid? then Some(Decision(current.value.taskId.id, ABANDON)) else None
  }

  lemma OrphanIs(db: Db, agentId: AgentId, id: TaskId, now: Time)
    requires DbOk(db) && Active(db, agentId, id)
    ensures FailOrphan(db, agentId, id, now)
            == Point(Put(db, id, Unlost(Ended(db.tasks[id], FAILED, now, now))), agentId, None)
  {
    RowIsOk(db, id);
    hide DbOk, Walk;
  }

  lemma ResumeIs(db: Db, orphan: Db, agentId: AgentId, id: TaskId, current: Option<CurrentTask>, capable: bool, now: Time)
    requires DbOk(db) && Resumable(db, agentId, id, now) && (current.Some? ==> current.value.taskId == Uuid(id))
    ensures var t := db.tasks[id];
            Resume(db, orphan, agentId, id, current, capable, now)
            == if Continues(t, id, current, capable, now)
               then HelloTx(if t.status == AGENT_LOST then Put(db, id, Continued(t, current.value.status, now)) else db,
                            Some(Answer(t, id, current.value.status)))
               else HelloTx(orphan, Refusal(current))
  {
    RowIsOk(db, id);
    hide DbOk, Walk, StartOk;
  }

  lemma ContinuesIsResumable(db: Db, agentId: AgentId, id: TaskId, current: Option<CurrentTask>, capable: bool, now: Time)
    requires DbOk(db) && Active(db, agentId, id) && Continues(db.tasks[id], id, current, capable, now)
    ensures Resumable(db, agentId, id, now)
  {
    RowIsOk(db, id);
    hide DbOk, Walk, StartOk;
  }

  /** The reconciliation of an agent that has an active task. */
  lemma ReconcileIs(db: Db, agentId: AgentId, id: TaskId, current: Option<CurrentTask>, capable: bool, now: Time)
    requires DbOk(db) && Active(db, agentId, id)
    ensures var t := db.tasks[id];
            ReconcileHello(db, agentId, current, capable, now)
            == if Continues(t, id, current, capable, now)
               then HelloTx(if t.status == AGENT_LOST then Put(db, id, Continued(t, current.value.status, now)) else db,
                            Some(Answer(t, id, current.value.status)))
               else HelloTx(FailOrphan(db, agentId, id, now), Refusal(current))
  {
    hide DbOk, FailOrphan, Resume, Resumable, Continues, Continued, Answer;
    var orphan := FailOrphan(db, agentId, id, now);
    if Resumable(db, agentId, id, now) && (current.Some? ==> current.value.taskId == Uuid(id)) {
      ResumeIs(db, orphan, agentId, id, current, capable, now);
    }
    if Continues(db.tasks[id], id, current, capable, now) {
      ContinuesIsResumable(db, agentId, id, current, capable, now);
      ContinuesReports(db.tasks[id], id, current, capable, now);
    }
    if current.Some? && current.value.taskId.Uuid? && current.value.taskId.id != id {
      OnlyActive(db, agentId, id, current.value.taskId.id, now);
    }
  }

  lemma OnlyActive(db: Db, agentId: AgentId, id: TaskId, other: TaskId, now: Time)
    requires Active(db, agentId, id) && other != id
    ensures !Resumable(db, agentId, other, now)
  {
  }

  lemma ContinuesReports(t: Task, id: TaskId, current: Option<CurrentTask>, capable: bool, now: Time)
    requires Continues(t, id, current, capable, now)
    ensures current.Some? && current.value.taskId == Uuid(id)
  {
  }

  lemma ReconcileIdle(db: Db, agentId: AgentId, current: Option<CurrentTask>, capable: bool, now: Time)
    requires agentId in db.agents && db.agents[agentId].activeTaskId.None?
    ensures ReconcileHello(db, agentId, current, capable, now) == HelloTx(db, Refusal(current))
  {
    hide Resume;
  }

  /** The hello of an enabled agent whose task continues: it is told so and keeps its slot; a lost task is back in its
      phase. */
  lemma HelloContinues(db: Db, agentId: AgentId, id: TaskId, current: Option<CurrentTask>, capable: bool, now: Time)
    requires DbOk(db) && Active(db, agentId, id) && db.agents[agentId].enabled && Continues(db.tasks[id], id, current, capable, now)
    ensures var t, hello := db.tasks[id], Hello(db, agentId, current, capable, now);
            && hello.decision == Some(Answer(t, id, current.value.status))
            && hello.db.tasks == db.tasks[id := Continued(t, current.value.status, now)]
            && agentId in hello.db.agents && hello.db.agents[agentId] == Agent(true, ONLINE, Some(id))
            && (forall other :: other in db.agents && other != agentId ==> other in hello.db.agents && hello.db.agents[other] == db.agents[other])
  {
    ReconcileIs(db, agentId, id, current, capable, now);
    assert db.tasks == db.tasks[id := db.tasks[id]];
    hide DbOk, ReconcileHello, Continues;
  }

  /** Any other hello of an enabled agent: its active task, if there is one, fails, it is told to abandon what it
      reported, and its slot is free. */
  lemma HelloAbandons(db: Db, agentId: AgentId, current: Option<CurrentTask>, capable: bool, now: Time)
    requires DbOk(db) && agentId in db.agents && db.agents[agentId].enabled
    requires var active := db.agents[agentId].activeTaskId;
             active.Some? ==> active.value in db.tasks && !Continues(db.tasks[active.value], active.value, current, capable, now)
    ensures var active, hello := db.agents[agentId].activeTaskId, Hello(db, agentId, current, capable, now);
            && hello.decision == Refusal(current)
            && hello.db.tasks == (if active.Some? then db.tasks[active.value := Unlost(Ended(db.tasks[active.value], FAILED, now, now))] else db.tasks)
            && agentId in hello.db.agents && hello.db.agents[agentId] == Agent(true, ONLINE, None)
  {
    var active := db.agents[agentId].activeTaskId;
    if active.Some? {
      ActiveIsKnown(db, agentId, active.value);
      ReconcileIs(db, agentId, active.value, current, capable, now);
      OrphanIs(db, agentId, active.value, now);
    } else {
      ReconcileIdle(db, agentId, current, capable, now);
    }
    hide DbOk, ReconcileHello, Continues, FailOrphan;
  }

  /** Any row after a hello. */
  lemma HelloRow(db: Db, agentId: AgentId, current: Option<CurrentTask>, capable: bool, now: Time, id: TaskId)
    requires DbOk(db) && id in db.tasks
    ensures var t, after := db.tasks[id], Hello(db, agentId, current, capable, now).db;
            && id in after.tasks
            && after.tasks[id] == if !(agentId in db.agents && db.agents[agentId].enabled && t.agentId == agentId && Occupies(t)) then t
                                  else if Continues(t, id, current, capable, now) then Continued(t, current.value.status, now)
                                  else Unlost(Ended(t, FAILED, now, now))
  {
    SlotFacts(db, id);
    if agentId in db.agents && db.agents[agentId].enabled {
      var active := db.agents[agentId].activeTaskId;
      if active.Some? {
        ActiveIsKnown(db, agentId, active.value);
        SlotFacts(db, active.value);
      }
      if active.Some? && Continues(db.tasks[active.value], active.value, current, capable, now) {
        HelloContinues(db, agentId, active.value, current, capable, now);
      } else {
        HelloAbandons(db, agentId, current, capable, now);
      }
    }
    hide DbOk, ReconcileHello, Continues, Continued, Unlost, Ended, Occupies;
  }

  /** The phase of a continued task is one an agent can report. */
  lemma ContinuesPhase(db: Db, id: TaskId, current: Option<CurrentTask>, capable: bool, now: Time)
    requires DbOk(db) && id in db.tasks && Continues(db.tasks[id], id, current, capable, now)
    ensures current.Some? && Phased(current.value.status)
    ensures db.tasks[id].status == AGENT_LOST || db.tasks[id].status == CANCELING || Phased(db.tasks[id].status)
  {
    RowIsOk(db, id);
    hide DbOk, Walk, StartOk, LeaseOk;
  }
}
