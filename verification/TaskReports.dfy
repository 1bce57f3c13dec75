/** Reports of an agent: what they change, and that under any other token they change nothing. */
module TaskReports {
  import opened Options
  import opened TaskStatus
  import opened TaskRows
  import opened TaskInvariants
  import opened TaskRuns

  /** A report about a task under a token, by the agent that sent it. */
  predicate IsReport(e: Event) {
    e.AcceptEvent? || e.StatusEvent? || e.FailedEvent? || e.CanceledEvent? || e.CompletedEvent? || e.RejectedEvent?
  }

  /** Whether the sender is told that its report was taken; a rejected completion is never. */
  predicate IsTaken(db: Db, e: Event)
    requires IsReport(e)
  {
    match e
    case AcceptEvent(agentId, taskId, token, ready, now) => TaskRows.Accept(db, agentId, taskId, token, ready, now).reply == Done
    case StatusEvent(agentId, taskId, token, status, commit, ready, now) =>
      ReportStatus(db, agentId, taskId, token, status, commit, ready, now).reply == Done
    case FailedEvent(agentId, taskId, token, exitCode, ready, now) =>
      ReportFailure(db, agentId, taskId, token, exitCode, ready, now).reply == Done
    case CanceledEvent(agentId, taskId, token, ready, now) => ReportCanceled(db, agentId, taskId, token, ready, now).reply == Done
    case CompletedEvent(agentId, taskId, token, code, count, bytes, sourceCommit, files, finishedAt, now) =>
      Complete(db, agentId, taskId, token, code, count, bytes, sourceCommit, files, finishedAt, now).reply == Done
    case RejectedEvent(_, _, _, _) => false
    case _ => false
  }

  /** The token is the one the task was dispatched with: its lease, or, once it has ended, its log lease. */
  ghost predicate Entitled(db: Db, agentId: AgentId, taskId: WireId, token: Token) {
    taskId.Uuid? && taskId.id in db.tasks
    && var t := db.tasks[taskId.id];
       && t.agentId == agentId
       && (t.leaseHash == Some(token) || (t.status in {SUCCEEDED, FAILED, CANCELED} && t.logLeaseHash == Some(token)))
  }

  /** A report by another agent, about an unknown task, or under any other token is not taken and changes nothing. */
  lemma WrongTokenIsRefused(db: Db, window: nat, e: Event)
    requires IsReport(e) && !Entitled(db, e.agentId, e.taskId, e.token)
    ensures Step(db, window, e) == db && !IsTaken(db, e)
  {
    hide CommitAgrees, WithCommit, TotalSize, AllUploaded, Moved, Finished, Up;
  }

  /** The agent is connected, enabled and online, and the task is its own under this token, unexpired. */
  ghost predicate Live(db: Db, agentId: AgentId, taskId: WireId, token: Token, now: Time, id: TaskId) {
    && taskId == Uuid(id) && id in db.tasks && db.tasks[id].agentId == agentId
    && agentId in db.agents && db.agents[agentId].enabled && db.agents[agentId].status == ONLINE
    && db.tasks[id].leaseHash == Some(token) && db.tasks[id].leaseExpiresAt.Some? && now < db.tasks[id].leaseExpiresAt.value
  }

  /** Whoever holds the lease holds the slot. */
  lemma LiveIsHeld(db: Db, agentId: AgentId, taskId: WireId, token: Token, now: Time, id: TaskId)
    requires DbOk(db) && id in db.tasks
    ensures taskId == Uuid(id) ==>
              (Live(db, agentId, taskId, token, now, id) <==> Up(db, agentId) && LeaseHeld(db, agentId, id, token, now))
  {
    RowIsOk(db, id);
    hide DbOk, Walk, RecoveryOk, StartOk;
  }

  /** The log lease outlives the task: a report may be repeated under it. */
  ghost predicate Repeats(t: Task, agentId: AgentId, token: Token, now: Time, ended: Status) {
    && t.agentId == agentId && t.status == ended
    && t.logLeaseHash == Some(token) && t.logLeaseExpiresAt.Some? && now < t.logLeaseExpiresAt.value
  }

  /** A row that ended: without a lease, with the time of its end. */
  function Ended(t: Task, next: Status, now: Time, at: Time): Task {
    t.(status := next, leaseHash := None, leaseExpiresAt := None, finishedAt := Some(at), updatedAt := now,
       history := t.history + [Change(Some(t.status), next)])
  }

  function After(t: Task, next: Status, now: Time): Task {
    t.(status := next, updatedAt := now, history := t.history + [Change(Some(t.status), next)])
  }

  // --- Report by report: when it is taken, and what becomes of any row ---

  lemma AcceptEffect(db: Db, agentId: AgentId, taskId: WireId, token: Token, ready: bool, now: Time, id: TaskId)
    requires DbOk(db) && id in db.tasks
    ensures var t, tx := db.tasks[id], Accept(db, agentId, taskId, token, ready, now);
            var live := ready && Live(db, agentId, taskId, token, now, id);
            && id in tx.db.tasks
            && tx.db.tasks[id] == (if live && t.status == DISPATCHED then After(t, PREPARING, now).(startedAt := Some(now)) else t)
            && (taskId == Uuid(id) ==> (tx.reply == Done <==> live && (t.status == DISPATCHED || t.status == PREPARING)))
  {
    LiveIsHeld(db, agentId, taskId, token, now, id);
    hide DbOk, Up, LeaseHeld, Live;
  }

  /** The report is readable and names no other commit than the one recorded. */
  ghost predicate CommitFits(t: Task, commit: WireCommit) {
    !commit.Unreadable? && (commit.Commit? && t.sourceCommit.Some? ==> commit.value == t.sourceCommit.value)
  }

  /** The phase after the task's own. */
  predicate Follows(t: Task, status: Status) {
    (status == RUNNING && t.status == PREPARING) || (status == UPLOADING && t.status == RUNNING)
  }

  /** The task's own phase; the first one must come with a commit. */
  predicate Same(t: Task, status: Status, commit: WireCommit) {
    t.status == status && (status == RUNNING || status == UPLOADING || (status == PREPARING && commit.Commit?))
  }

  function Recorded(t: Task, commit: WireCommit): Option<string> {
    if commit.Commit? then Some(commit.value) else t.sourceCommit
  }

  lemma CommitRows(t: Task, status: Status, commit: WireCommit, now: Time)
    requires CommitFits(t, commit)
    ensures WithCommit(Moved(t, status, now), commit) == After(t, status, now).(sourceCommit := Recorded(t, commit))
    ensures WithCommit(t, commit) == t.(sourceCommit := Recorded(t, commit)) && CommitAgrees(t, commit)
    ensures WithCommit(t, commit) == t <==> Recorded(t, commit) == t.sourceCommit
  {
  }

  lemma StatusEffect(db: Db, agentId: AgentId, taskId: WireId, token: Token, status: Status, commit: WireCommit, ready: bool, now: Time, id: TaskId)
    requires DbOk(db) && id in db.tasks
    ensures var t, after := db.tasks[id], ReportStatus(db, agentId, taskId, token, status, commit, ready, now).db;
            var live := ready && Live(db, agentId, taskId, token, now, id) && CommitFits(t, commit);
            && id in after.tasks
            && after.tasks[id] == if live && Follows(t, status) then After(t, status, now).(sourceCommit := Recorded(t, commit))
                                  else if live && Same(t, status, commit) && Recorded(t, commit) != t.sourceCommit
                                  then t.(sourceCommit := Recorded(t, commit), updatedAt := now)
                                  else t
  {
    hide ReportStatus, CommitFits, Live, Recorded, After, Follows, Same;
    if taskId == Uuid(id) {
      OwnRow(db, agentId, token, status, commit, ready, now, id);
    } else {
      OtherRow(db, agentId, taskId, token, status, commit, ready, now, id);
      NotLive(db, agentId, taskId, token, now, id);
    }
  }

  lemma NotLive(db: Db, agentId: AgentId, taskId: WireId, token: Token, now: Time, id: TaskId)
    requires taskId != Uuid(id)
    ensures !Live(db, agentId, taskId, token, now, id)
  {
  }

  lemma FitsIs(t: Task, commit: WireCommit)
    ensures CommitFits(t, commit) <==> !commit.Unreadable? && CommitAgrees(t, commit)
  {
  }

  lemma OwnRow(db: Db, agentId: AgentId, token: Token, status: Status, commit: WireCommit, ready: bool, now: Time, id: TaskId)
    requires DbOk(db) && id in db.tasks
    ensures var t, after := db.tasks[id], ReportStatus(db, agentId, Uuid(id), token, status, commit, ready, now).db;
            var live := ready && Live(db, agentId, Uuid(id), token, now, id) && CommitFits(t, commit);
            && id in after.tasks
            && after.tasks[id] == if live && Follows(t, status) then After(t, status, now).(sourceCommit := Recorded(t, commit))
                                  else if live && Same(t, status, commit) && Recorded(t, commit) != t.sourceCommit
                                  then t.(sourceCommit := Recorded(t, commit), updatedAt := now)
                                  else t
  {
    hide DbOk, Up, LeaseHeld, Live, CommitFits, CommitAgrees, WithCommit, Moved, Recorded, After;
    var t := db.tasks[id];
    LiveIsHeld(db, agentId, Uuid(id), token, now, id);
    FitsIs(t, commit);
    if CommitFits(t, commit) {
      CommitRows(t, status, commit, now);
    }
  }

  lemma OtherRow(db: Db, agentId: AgentId, taskId: WireId, token: Token, status: Status, commit: WireCommit, ready: bool, now: Time, id: TaskId)
    requires id in db.tasks && taskId != Uuid(id)
    ensures var after := ReportStatus(db, agentId, taskId, token, status, commit, ready, now).db;
            id in after.tasks && after.tasks[id] == db.tasks[id]
  {
    hide Up, LeaseHeld, WithCommit, Moved;
  }

  lemma FailureEffect(db: Db, agentId: AgentId, taskId: WireId, token: Token, exitCode: Option<int>, ready: bool, now: Time, id: TaskId)
    requires DbOk(db) && id in db.tasks
    ensures var t, tx := db.tasks[id], ReportFailure(db, agentId, taskId, token, exitCode, ready, now);
            var valid := ready && (exitCode.Some? ==> -0x8000_0000 <= exitCode.value < 0x8000_0000);
            var live := valid && Live(db, agentId, taskId, token, now, id) && t.status in {PREPARING, RUNNING, UPLOADING, CANCELING};
            && id in tx.db.tasks
            && tx.db.tasks[id] == (if live then Ended(t, FAILED, now, now).(exitCode := exitCode) else t)
            && (taskId == Uuid(id) ==> (tx.reply == Done <==> live || (valid && Up(db, agentId) && Repeats(t, agentId, token, now, FAILED))))
  {
    LiveIsHeld(db, agentId, taskId, token, now, id);
    RowIsOk(db, id);
    hide DbOk, Up, LeaseHeld, Live, Walk, RecoveryOk, StartOk;
  }

  lemma CanceledEffect(db: Db, agentId: AgentId, taskId: WireId, token: Token, ready: bool, now: Time, id: TaskId)
    requires DbOk(db) && id in db.tasks
    ensures var t, tx := db.tasks[id], ReportCanceled(db, agentId, taskId, token, ready, now);
            var live := ready && taskId == Uuid(id) && t.agentId == agentId && t.status == CANCELING && t.leaseHash == Some(token);
            && id in tx.db.tasks
            && tx.db.tasks[id] == (if live then Ended(t, CANCELED, now, now) else t)
            && (taskId == Uuid(id) ==> (tx.reply == Done <==> live || (ready && Repeats(t, agentId, token, now, CANCELED))))
  {
    RowIsOk(db, id);
    hide DbOk, Up, Walk, RecoveryOk, StartOk;
  }

  /** The sizes from the first file on. */
  function Bytes(files: seq<Artifact>): nat {
    if files == [] then 0 else files[0].size + Bytes(files[1..])
  }

  lemma {:induction false} TotalCons(first: Artifact, rest: seq<Artifact>)
    ensures TotalSize([first] + rest) == first.size + TotalSize(rest)
  {
    var all := [first] + rest;
    if rest == [] {
      assert all[..0] == [] && TotalSize(all[..0]) == 0;
    } else {
      assert all[..|all| - 1] == [first] + rest[..|rest| - 1];
      TotalCons(first, rest[..|rest| - 1]);
    }
  }

  lemma {:induction false} TotalIsBytes(files: seq<Artifact>)
    ensures TotalSize(files) == Bytes(files)
  {
    if files != [] {
      assert files == [files[0]] + files[1..];
      TotalCons(files[0], files[1..]);
      TotalIsBytes(files[1..]);
    }
  }

  /** All declared artifacts arrived: at least one, every one uploaded, in number and size as declared. */
  ghost predicate AllArrived(files: seq<Artifact>, count: nat, bytes: nat) {
    files != [] && (forall i :: 0 <= i < |files| ==> files[i].uploaded) && |files| == count && Bytes(files) == bytes
  }

  lemma ArrivedIs(files: seq<Artifact>, count: nat, bytes: nat)
    ensures AllArrived(files, count, bytes) <==> files != [] && AllUploaded(files) && |files| == count && TotalSize(files) == bytes
  {
    TotalIsBytes(files);
    hide TotalSize, Bytes;
  }

  lemma CompletedEffect(db: Db, agentId: AgentId, taskId: WireId, token: Token, code: int, count: nat, bytes: nat,
                        commit: Option<string>, files: seq<Artifact>, finishedAt: Time, now: Time, id: TaskId)
    requires DbOk(db) && id in db.tasks
    ensures var t, tx := db.tasks[id], Complete(db, agentId, taskId, token, code, count, bytes, commit, files, finishedAt, now);
            var live := code == 0 && Live(db, agentId, taskId, token, now, id) && t.status == UPLOADING && AllArrived(files, count, bytes);
            var row := Ended(t, SUCCEEDED, now, finishedAt).(exitCode := Some(0), artifactCount := count, artifactBytes := bytes,
                         sourceCommit := if t.sourceCommit.Some? then t.sourceCommit else commit);
            id in tx.db.tasks && tx.db.tasks[id] == if live then row else t
  {
    LiveIsHeld(db, agentId, taskId, token, now, id);
    ArrivedIs(files, count, bytes);
    hide DbOk, Up, LeaseHeld, Live, TotalSize, AllArrived, AllUploaded;
  }

  lemma RejectedEffect(db: Db, agentId: AgentId, taskId: WireId, token: Token, now: Time, id: TaskId)
    requires DbOk(db) && id in db.tasks
    ensures var t, after := db.tasks[id], FailRejectedCompletion(db, agentId, taskId, token, now);
            && id in after.tasks
            && after.tasks[id] == if taskId == Uuid(id) && t.agentId == agentId && t.status == UPLOADING
                                     && t.leaseHash == Some(token) && t.leaseExpiresAt.Some? && now < t.leaseExpiresAt.value
                                  then Ended(t, FAILED, now, now) else t
  {
    RowIsOk(db, id);
    hide DbOk, Walk, RecoveryOk, StartOk;
  }

  // --- The answers ---

  lemma AcceptAnswer(db: Db, agentId: AgentId, token: Token, ready: bool, now: Time, id: TaskId)
    requires DbOk(db) && id in db.tasks
    ensures var t := db.tasks[id];
            Accept(db, agentId, Uuid(id), token, ready, now).reply
            == if !(ready && Live(db, agentId, Uuid(id), token, now, id)) then Rejected(TASK_LEASE_INVALID)
               else if t.status == DISPATCHED || t.status == PREPARING then Done
               else Rejected(TASK_INVALID_STATE)
  {
    LiveIsHeld(db, agentId, Uuid(id), token, now, id);
    hide DbOk, Up, LeaseHeld, Live;
  }

  lemma StatusAnswer(db: Db, agentId: AgentId, token: Token, status: Status, commit: WireCommit, ready: bool, now: Time, id: TaskId)
    requires DbOk(db) && id in db.tasks
    ensures var t := db.tasks[id];
            ReportStatus(db, agentId, Uuid(id), token, status, commit, ready, now).reply
            == if status !in {PREPARING, RUNNING, UPLOADING} || commit.Unreadable? || (status == PREPARING && commit == Absent)
               then Rejected(VALIDATION_FAILED)
               else if !(ready && Live(db, agentId, Uuid(id), token, now, id)) then Rejected(TASK_LEASE_INVALID)
               else if CommitFits(t, commit) && (t.status == status || Follows(t, status)) then Done
               else Rejected(TASK_INVALID_STATE)
  {
    LiveIsHeld(db, agentId, Uuid(id), token, now, id);
    FitsIs(db.tasks[id], commit);
    hide DbOk, Up, LeaseHeld, Live, Moved, WithCommit, CommitFits, CommitAgrees;
  }

  lemma FailureAnswer(db: Db, agentId: AgentId, token: Token, exitCode: Option<int>, ready: bool, now: Time, id: TaskId)
    requires DbOk(db) && id in db.tasks
    ensures var t := db.tasks[id];
            ReportFailure(db, agentId, Uuid(id), token, exitCode, ready, now).reply
            == if exitCode.Some? && !(-0x8000_0000 <= exitCode.value < 0x8000_0000) then Rejected(VALIDATION_FAILED)
               else if ready && Up(db, agentId) && Repeats(t, agentId, token, now, FAILED) then Done
               else if !(ready && Live(db, agentId, Uuid(id), token, now, id)) then Rejected(TASK_LEASE_INVALID)
               else if t.status in {PREPARING, RUNNING, UPLOADING, CANCELING} then Done
               else Rejected(TASK_INVALID_STATE)
  {
    LiveIsHeld(db, agentId, Uuid(id), token, now, id);
    RowIsOk(db, id);
    hide DbOk, Up, LeaseHeld, Live, Walk, RecoveryOk, StartOk, Moved, Finished;
  }

  lemma CanceledAnswer(db: Db, agentId: AgentId, token: Token, ready: bool, now: Time, id: TaskId)
    requires DbOk(db) && id in db.tasks
    ensures var t := db.tasks[id];
            ReportCanceled(db, agentId, Uuid(id), token, ready, now).reply
            == if ready && Repeats(t, agentId, token, now, CANCELED) then Done
               else if !(ready && t.agentId == agentId && t.leaseHash == Some(token)) then Rejected(TASK_LEASE_INVALID)
               else if t.status == CANCELING then Done
               else Rejected(TASK_INVALID_STATE)
  {
    RowIsOk(db, id);
    hide DbOk, Walk, RecoveryOk, StartOk, Moved, Finished;
  }

  lemma CompletedAnswer(db: Db, agentId: AgentId, token: Token, code: int, count: nat, bytes: nat,
                        commit: Option<string>, files: seq<Artifact>, finishedAt: Time, now: Time, id: TaskId)
    requires DbOk(db) && id in db.tasks
    ensures var t := db.tasks[id];
            var repeats := Up(db, agentId) && Repeats(t, agentId, token, now, SUCCEEDED);
            var live := Live(db, agentId, Uuid(id), token, now, id) && t.status == UPLOADING;
            Complete(db, agentId, Uuid(id), token, code, count, bytes, commit, files, finishedAt, now).reply
            == if code != 0 then Rejected(VALIDATION_FAILED)
               else if (repeats && t.artifactCount == count && t.artifactBytes == bytes) || (live && AllArrived(files, count, bytes)) then Done
               else if repeats || live then Rejected(TASK_INVALID_STATE)
               else Rejected(TASK_LEASE_INVALID)
  {
    LiveIsHeld(db, agentId, Uuid(id), token, now, id);
    ArrivedIs(files, count, bytes);
    hide DbOk, Up, LeaseHeld, Live, TotalSize, AllArrived, AllUploaded, Finished;
  }
}
