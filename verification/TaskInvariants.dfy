/** What every transaction keeps: the execution slot, the coupling of status, lease and recovery, and the history. */
module TaskInvariants {
  import opened Options
  import opened TaskStatus
  import opened TaskRows

  /** The lease of a row: present exactly while the task holds the slot, and then the log lease is the same. */
  ghost predicate LeaseOk(t: Task) {
    && (t.leaseHash.Some? <==> HoldsSlot(t.status))
    && (t.leaseExpiresAt.Some? <==> HoldsSlot(t.status))
    && (t.leaseHash.Some? ==> t.logLeaseHash == t.leaseHash && t.logLeaseExpiresAt.Some?)
  }

  /** A lost task knows its phase and a deadline within its lease. */
  ghost predicate RecoveryOk(t: Task) {
    && (t.status == AGENT_LOST ==>
          && t.recoveryStatus.Some? && ExecutionPhase(t.recoveryStatus.value)
          && t.recoveryDeadlineAt.Some? && t.leaseExpiresAt.Some? && t.recoveryDeadlineAt.value <= t.leaseExpiresAt.value)
    && (t.recoveryStatus.Some? || t.agentLostAt.Some? || t.recoveryDeadlineAt.Some? ==>
          t.status in {AGENT_LOST, CANCELING, FAILED, CANCELED})
    && (t.status == CANCELING ==> t.cancelRequestedAt.Some?)
  }

  /** A task has started exactly when it was accepted; before that it never has. */
  ghost predicate StartOk(t: Task) {
    && (t.status in {WAITING_AGENT, QUEUED, DISPATCHED} ==> t.startedAt.None?)
    && (ExecutionPhase(t.status) || t.status in {AGENT_LOST, SUCCEEDED} ==> t.startedAt.Some?)
  }

  ghost predicate RowOk(t: Task) {
    && t.status != CREATED
    && LeaseOk(t) && RecoveryOk(t) && StartOk(t)
    && Walk(t.history, t.status)
  }

  ghost predicate RowsOk(db: Db) {
    forall id :: id in db.tasks ==> RowOk(db.tasks[id]) && db.tasks[id].agentId in db.agents
  }

  /** An agent's pointer is t exactly when t is its task and holds the slot. */
  ghost predicate SlotExact(db: Db) {
    forall a, id :: a in db.agents ==>
      (db.agents[a].activeTaskId == Some(id) <==> id in db.tasks && db.tasks[id].agentId == a && HoldsSlot(db.tasks[id].status))
  }

  ghost predicate AgentsOk(db: Db) {
    forall a :: a in db.agents && db.agents[a].status == ONLINE ==> db.agents[a].enabled
  }

  ghost predicate DbOk(db: Db) {
    RowsOk(db) && SlotExact(db) && AgentsOk(db)
  }

  lemma EmptyIsOk()
    ensures DbOk(Db(map[], map[]))
  {
  }

  // --- The three ways a transaction writes ---

  /** A row that keeps its hold on the slot. */
  lemma PutKeeps(db: Db, id: TaskId, row: Task)
    requires DbOk(db) && id in db.tasks && RowOk(row) && row.agentId == db.tasks[id].agentId
    requires HoldsSlot(row.status) <==> HoldsSlot(db.tasks[id].status)
    ensures DbOk(Put(db, id, row))
  {
  }

  /** A new row that holds no slot. */
  lemma InsertKeeps(db: Db, id: TaskId, row: Task)
    requires DbOk(db) && id !in db.tasks && RowOk(row) && row.agentId in db.agents && !HoldsSlot(row.status)
    ensures DbOk(Put(db, id, row))
  {
  }

  /** A row that gives the slot up, with the agent's pointer. */
  lemma ReleaseKeeps(db: Db, agentId: AgentId, id: TaskId, row: Task)
    requires DbOk(db) && Active(db, agentId, id) && RowOk(row) && row.agentId == agentId && !HoldsSlot(row.status)
    ensures DbOk(Point(Put(db, id, row), agentId, None))
  {
    hide RowOk, HoldsSlot;
  }

  /** A row that takes the slot of an idle agent, with the agent's pointer. */
  lemma OccupyKeeps(db: Db, agentId: AgentId, id: TaskId, row: Task)
    requires DbOk(db) && Known(db, agentId, id) && db.agents[agentId].activeTaskId.None?
    requires RowOk(row) && row.agentId == agentId && HoldsSlot(row.status)
    ensures DbOk(Point(Put(db, id, row), agentId, Some(id)))
  {
    hide RowOk, HoldsSlot;
  }

  lemma StatusKeeps(db: Db, agentId: AgentId, status: AgentStatus)
    requires DbOk(db) && agentId in db.agents && (status == ONLINE ==> db.agents[agentId].enabled)
    ensures DbOk(SetStatus(db, agentId, status))
  {
  }

  lemma RowIsOk(db: Db, id: TaskId)
    requires DbOk(db) && id in db.tasks
    ensures RowOk(db.tasks[id]) && db.tasks[id].agentId in db.agents
    ensures Active(db, db.tasks[id].agentId, id) <==> HoldsSlot(db.tasks[id].status)
  {
  }

  /** A transition keeps the walk; what else a row must satisfy is for the caller to show. */
  lemma MovedWalks(t: Task, next: Status, now: Time)
    requires Walk(t.history, t.status) && Taken(t.status, next)
    ensures Walk(Moved(t, next, now).history, next)
  {
  }

  // --- Each transaction ---

  lemma CreateKeeps(db: Db, id: TaskId, agentId: AgentId, interactive: bool, ready: bool, now: Time)
    requires DbOk(db)
    ensures DbOk(CreateTask(db, id, agentId, interactive, ready, now).db)
  {
    if id !in db.tasks && agentId in db.agents {
      hide RowsOk, SlotExact, AgentsOk;
      InsertKeeps(db, id, NewTask(agentId, interactive, ready, now));
    }
  }

  lemma ReadyKeeps(db: Db, agentId: AgentId, capable: bool, now: Time)
    requires DbOk(db)
    ensures DbOk(AgentReady(db, agentId, capable, now))
  {
    hide RowOk, HoldsSlot, Up, Wakes, Queued;
    var after := AgentReady(db, agentId, capable, now);
    forall id | id in db.tasks
      ensures id in after.tasks && RowOk(after.tasks[id]) && after.tasks[id].agentId == db.tasks[id].agentId
              && (HoldsSlot(after.tasks[id].status) <==> HoldsSlot(db.tasks[id].status))
    {
      if Wakes(db.tasks[id], agentId, capable) {
        QueuedIsOk(db.tasks[id], agentId, capable, now);
      }
    }
  }

  lemma QueuedIsOk(t: Task, agentId: AgentId, capable: bool, now: Time)
    requires RowOk(t) && Wakes(t, agentId, capable)
    ensures RowOk(Queued(t, now)) && Queued(t, now).agentId == t.agentId
    ensures HoldsSlot(Queued(t, now).status) <==> HoldsSlot(t.status)
  {
  }

  lemma BackToWaitingIsOk(t: Task, now: Time)
    requires RowOk(t) && t.status == DISPATCHED
    ensures RowOk(BackToWaiting(t, now))
  {
  }

  lemma LostIsOk(t: Task, now: Time, window: nat)
    requires RowOk(t) && ExecutionPhase(t.status)
    ensures RowOk(Lost(t, now, window))
  {
  }

  lemma OrphanedIsOk(t: Task, now: Time)
    requires RowOk(t) && HoldsSlot(t.status)
    ensures RowOk(Orphaned(t, now))
  {
  }

  lemma WaitingIsOk(t: Task, now: Time)
    requires RowOk(t) && t.status == QUEUED
    ensures RowOk(Moved(t, WAITING_AGENT, now))
  {
  }

  lemma DisconnectKeeps(db: Db, agentId: AgentId, id: TaskId, window: nat, now: Time)
    requires DbOk(db)
    ensures DbOk(DisconnectTask(db, agentId, id, window, now))
  {
    if Known(db, agentId, id) {
      RowIsOk(db, id);
      hide DbOk, RowOk;
      var t := db.tasks[id];
      if t.status == QUEUED {
        WaitingIsOk(t, now);
        PutKeeps(db, id, Moved(t, WAITING_AGENT, now));
      } else if Active(db, agentId, id) {
        if t.status == DISPATCHED {
          BackToWaitingIsOk(t, now);
          ReleaseKeeps(db, agentId, id, BackToWaiting(t, now));
        } else if ExecutionPhase(t.status) {
          LostIsOk(t, now, window);
          PutKeeps(db, id, Lost(t, now, window));
        }
      }
    }
  }

  lemma InterruptKeeps(db: Db, id: TaskId, phase: Status, connected: bool, window: nat, now: Time)
    requires DbOk(db)
    ensures DbOk(InterruptTask(db, id, phase, connected, window, now))
  {
    if id in db.tasks && Active(db, db.tasks[id].agentId, id) && ExecutionPhase(phase) && db.tasks[id].status == phase {
      RowIsOk(db, id);
      hide DbOk, RowOk;
      var t := db.tasks[id];
      LostIsOk(t, now, window);
      PutKeeps(db, id, Lost(t, now, window));
      if !connected {
        StatusKeeps(Put(db, id, Lost(t, now, window)), t.agentId, OFFLINE);
      }
    }
  }

  lemma FailOrphanKeeps(db: Db, agentId: AgentId, id: TaskId, now: Time)
    requires DbOk(db) && agentId in db.agents && db.agents[agentId].activeTaskId == Some(id)
    ensures var after := FailOrphan(db, agentId, id, now);
            DbOk(after) && agentId in after.agents && after.agents[agentId].activeTaskId.None?
            && after.agents[agentId].enabled == db.agents[agentId].enabled
  {
    ActiveIsKnown(db, agentId, id);
    hide DbOk, RowOk;
    OrphanedIsOk(db.tasks[id], now);
    ReleaseKeeps(db, agentId, id, Orphaned(db.tasks[id], now));
  }

  /** The pointer of an agent names one of its tasks, and that task can still fail. */
  lemma ActiveIsKnown(db: Db, agentId: AgentId, id: TaskId)
    requires DbOk(db) && agentId in db.agents && db.agents[agentId].activeTaskId == Some(id)
    ensures Active(db, agentId, id) && RowOk(db.tasks[id]) && HoldsSlot(db.tasks[id].status) && CanTransition(db.tasks[id].status, FAILED)
  {
  }

  lemma AcceptKeeps(db: Db, agentId: AgentId, taskId: WireId, token: Token, ready: bool, now: Time)
    requires DbOk(db)
    ensures DbOk(Accept(db, agentId, taskId, token, ready, now).db)
  {
    if taskId.Uuid? && LeaseHeld(db, agentId, taskId.id, token, now) && db.tasks[taskId.id].status == DISPATCHED {
      var t := db.tasks[taskId.id];
      RowIsOk(db, taskId.id);
      hide DbOk, Up, LeaseHeld;
      MovedWalks(t, PREPARING, now);
      hide Walk;
      PutKeeps(db, taskId.id, Moved(t, PREPARING, now).(startedAt := Some(now)));
    }
  }

  lemma ReportStatusKeeps(db: Db, agentId: AgentId, taskId: WireId, token: Token, status: Status, commit: WireCommit, ready: bool, now: Time)
    requires DbOk(db)
    ensures DbOk(ReportStatus(db, agentId, taskId, token, status, commit, ready, now).db)
  {
    if taskId.Uuid? && LeaseHeld(db, agentId, taskId.id, token, now) {
      var t := db.tasks[taskId.id];
      RowIsOk(db, taskId.id);
      hide DbOk, Up, LeaseHeld, RowOk, WithCommit;
      if ExecutionPhase(t.status) {
        ReportedIsOk(t, status, commit, now);
      }
      if t.status == status && ExecutionPhase(status) {
        PutKeeps(db, taskId.id, WithCommit(t, commit).(updatedAt := now));
      } else if (status == RUNNING && t.status == PREPARING) || (status == UPLOADING && t.status == RUNNING) {
        PutKeeps(db, taskId.id, WithCommit(Moved(t, status, now), commit));
      }
    }
  }

  lemma ReportedIsOk(t: Task, status: Status, commit: WireCommit, now: Time)
    requires RowOk(t) && ExecutionPhase(t.status)
    ensures RowOk(WithCommit(t, commit).(updatedAt := now)) && WithCommit(t, commit).status == t.status
            && WithCommit(t, commit).agentId == t.agentId
    ensures (status == RUNNING && t.status == PREPARING) || (status == UPLOADING && t.status == RUNNING) ==>
              var row := WithCommit(Moved(t, status, now), commit);
              RowOk(row) && row.status == status && row.agentId == t.agentId
  {
    if (status == RUNNING && t.status == PREPARING) || (status == UPLOADING && t.status == RUNNING) {
      MovedWalks(t, status, now);
    }
    hide Walk;
  }

  /** Ending an active task in a terminal status its status allows. */
  lemma FinishedKeeps(db: Db, agentId: AgentId, id: TaskId, row: Task, next: Status, now: Time, at: Time)
    requires DbOk(db) && Active(db, agentId, id) && Terminal(next) && CanTransition(db.tasks[id].status, next)
    requires var moved := Moved(db.tasks[id], next, now);
             row == moved.(exitCode := row.exitCode, artifactCount := row.artifactCount, artifactBytes := row.artifactBytes, sourceCommit := row.sourceCommit)
    ensures DbOk(Finished(db, agentId, id, row, at))
  {
    RowIsOk(db, id);
    hide DbOk;
    MovedWalks(db.tasks[id], next, now);
    hide Walk;
    ReleaseKeeps(db, agentId, id, Unleased(row).(finishedAt := Some(at)));
  }

  lemma ReportFailureKeeps(db: Db, agentId: AgentId, taskId: WireId, token: Token, exitCode: Option<int>, ready: bool, now: Time)
    requires DbOk(db)
    ensures DbOk(ReportFailure(db, agentId, taskId, token, exitCode, ready, now).db)
  {
    hide DbOk, Finished, Up, Moved;
    if taskId.Uuid? && LeaseHeld(db, agentId, taskId.id, token, now) {
      var t := db.tasks[taskId.id];
      if ExecutionPhase(t.status) || t.status == CANCELING {
        FinishedKeeps(db, agentId, taskId.id, Moved(t, FAILED, now).(exitCode := exitCode), FAILED, now, now);
      }
    }
  }

  lemma ReportCanceledKeeps(db: Db, agentId: AgentId, taskId: WireId, token: Token, ready: bool, now: Time)
    requires DbOk(db)
    ensures DbOk(ReportCanceled(db, agentId, taskId, token, ready, now).db)
  {
    hide DbOk, Finished, Moved;
    if taskId.Uuid? && Active(db, agentId, taskId.id) && db.tasks[taskId.id].status == CANCELING {
      FinishedKeeps(db, agentId, taskId.id, Moved(db.tasks[taskId.id], CANCELED, now), CANCELED, now, now);
    }
  }

  lemma CompleteKeeps(db: Db, agentId: AgentId, taskId: WireId, token: Token, exitCode: int, count: nat, bytes: nat,
                      commit: Option<string>, files: seq<Artifact>, finishedAt: Time, now: Time)
    requires DbOk(db)
    ensures DbOk(Complete(db, agentId, taskId, token, exitCode, count, bytes, commit, files, finishedAt, now).db)
  {
    hide DbOk, Finished, Moved, TotalSize, AllUploaded, Up;
    if taskId.Uuid? && LeaseHeld(db, agentId, taskId.id, token, now) && db.tasks[taskId.id].status == UPLOADING {
      var t := db.tasks[taskId.id];
      var done := Moved(t, SUCCEEDED, now).(exitCode := Some(0), artifactCount := |files|, artifactBytes := TotalSize(files));
      var row := if commit.Some? && t.sourceCommit.None? then done.(sourceCommit := commit) else done;
      FinishedKeeps(db, agentId, taskId.id, row, SUCCEEDED, now, finishedAt);
    }
  }

  lemma FailRejectedKeeps(db: Db, agentId: AgentId, taskId: WireId, token: Token, now: Time)
    requires DbOk(db)
    ensures DbOk(FailRejectedCompletion(db, agentId, taskId, token, now))
  {
    hide DbOk, Finished, Moved;
    if taskId.Uuid? && LeaseHeld(db, agentId, taskId.id, token, now) && db.tasks[taskId.id].status == UPLOADING {
      FinishedKeeps(db, agentId, taskId.id, Moved(db.tasks[taskId.id], FAILED, now), FAILED, now, now);
    }
  }

  lemma CanceledEarlyIsOk(t: Task, now: Time)
    requires RowOk(t) && t.status in {WAITING_AGENT, QUEUED}
    ensures RowOk(CanceledEarly(t, now))
  {
    MovedWalks(t, CANCELING, now);
    MovedWalks(Moved(t, CANCELING, now), CANCELED, now);
    hide Walk;
  }

  lemma CancelingIsOk(t: Task, now: Time)
    requires RowOk(t) && HoldsSlot(t.status) && t.status != CANCELING
    ensures RowOk(Canceling(t, now))
  {
  }

  lemma CancellationKeeps(db: Db, taskId: WireId, now: Time)
    requires DbOk(db)
    ensures DbOk(RequestCancellation(db, taskId, now).db)
  {
    if taskId.Uuid? && taskId.id in db.tasks {
      var id, t := taskId.id, db.tasks[taskId.id];
      RowIsOk(db, id);
      assert t.status != CREATED && (t.status == CANCELING ==> t.cancelRequestedAt.Some?);
      hide DbOk, RowOk, CanceledEarly, Canceling;
      CancelingShape(t, now);
      if t.status in {WAITING_AGENT, QUEUED} {
        CanceledEarlyIsOk(t, now);
        PutKeeps(db, id, CanceledEarly(t, now));
      } else if HoldsSlot(t.status) && t.status != CANCELING {
        CancelingIsOk(t, now);
        PutKeeps(db, id, Canceling(t, now));
      }
    }
  }

  lemma CancelingShape(t: Task, now: Time)
    ensures CanceledEarly(t, now).status == CANCELED && CanceledEarly(t, now).agentId == t.agentId
    ensures Canceling(t, now).status == CANCELING && Canceling(t, now).agentId == t.agentId
  {
  }

  lemma ReclaimDispatchKeeps(db: Db, id: TaskId, ready: bool, now: Time)
    requires DbOk(db)
    ensures DbOk(ReclaimDispatch(db, id, ready, now))
  {
    if id in db.tasks && Active(db, db.tasks[id].agentId, id) && db.tasks[id].status == DISPATCHED {
      var t := db.tasks[id];
      RowIsOk(db, id);
      BackToWaitingIsOk(t, now);
      RequeuedIsOk(t, now);
      hide DbOk, RowOk;
      ReleaseKeeps(db, t.agentId, id, Unleased(Moved(t, QUEUED, now)));
      ReleaseKeeps(db, t.agentId, id, BackToWaiting(t, now));
    }
  }

  lemma RequeuedIsOk(t: Task, now: Time)
    requires RowOk(t) && t.status == DISPATCHED
    ensures RowOk(Unleased(Moved(t, QUEUED, now)))
  {
  }

  lemma ReclaimCancellationKeeps(db: Db, id: TaskId, now: Time)
    requires DbOk(db)
    ensures DbOk(ReclaimCancellation(db, id, now))
  {
    if id in db.tasks && db.tasks[id].status == CANCELING {
      var t := db.tasks[id];
      RowIsOk(db, id);
      UnconfirmedIsOk(t, now);
      hide DbOk, RowOk, Unconfirmed;
      ReleaseKeeps(db, t.agentId, id, Unconfirmed(t, now));
      StatusKeeps(Point(Put(db, id, Unconfirmed(t, now)), t.agentId, None), t.agentId, OFFLINE);
    }
  }

  lemma UnconfirmedIsOk(t: Task, now: Time)
    requires RowOk(t) && t.status == CANCELING
    ensures RowOk(Unconfirmed(t, now)) && Unconfirmed(t, now).status == FAILED && Unconfirmed(t, now).agentId == t.agentId
  {
  }

  lemma ReclaimRecoveryKeeps(db: Db, id: TaskId, now: Time)
    requires DbOk(db)
    ensures DbOk(ReclaimRecovery(db, id, now))
  {
    if id in db.tasks && db.tasks[id].status == AGENT_LOST {
      var t := db.tasks[id];
      RowIsOk(db, id);
      hide DbOk, RowOk;
      OrphanedIsOk(t, now);
      ReleaseKeeps(db, t.agentId, id, Orphaned(t, now));
    }
  }

  lemma AgentRowsKeep(db: Db, agentId: AgentId, enabled: bool, connected: bool, online: bool)
    requires DbOk(db)
    ensures DbOk(AddAgent(db, agentId))
    ensures DbOk(SetEnabled(db, agentId, enabled, connected))
    ensures DbOk(SetLiveness(db, agentId, online))
  {
    hide RowOk, HoldsSlot;
    if agentId !in db.agents {
      forall id | id in db.tasks ensures db.tasks[id].agentId != agentId {
        assert db.tasks[id].agentId in db.agents;
      }
    }
  }
}
