/** A task from its creation to its end, over server and agent: what a successful and a canceled build go through, and
    when a build whose command failed is recorded as succeeded. */
module Journeys {
  import opened Options
  import opened TaskStatus
  import opened TaskRows
  import opened TaskInvariants
  import opened TaskRuns
  import opened AgentTask
  import opened ExecutionOnce
  import opened CommandEnds
  import Reports = TaskReports
  import opened Reconnects
  import opened CommandOutcome

  // --- The agent's task on the way ---

  function Preparing(l: Lease): ActiveTask {
    NewActive(l).(preparation := true)
  }

  function Executing(l: Lease): ActiveTask {
    NewActive(l).(sourceCommit := true, workspace := true, artifactCleaned := true, inputFilesDownloaded := true,
                  configWritten := true, execution := true, executionCancel := true)
  }

  /** The command has ended and the list of its files was sent. */
  function Listed(l: Lease): ActiveTask {
    Executing(l).(execution := false, commandCompleted := true, manifest := true)
  }

  /** The server has the task in this status under the lease, with this commit. */
  ghost predicate Stands(db: Db, me: AgentId, l: Lease, status: Status, commit: string, now: Time) {
    && Up(db, me) && LeaseHeld(db, me, l.taskId, l.token, now)
    && db.tasks[l.taskId].status == status && db.tasks[l.taskId].sourceCommit == Some(commit)
  }

  // --- The moves ---

  function Reporting(me: AgentId, l: Lease, status: Status, commit: string, now: Time): Move {
    ServerMove(StatusEvent(me, Uuid(l.taskId), l.token, status, Commit(commit), true, now), false)
  }

  /** From the assignment to the running command. */
  function Starting(me: AgentId, l: Lease, commit: string, now: Time): seq<Move> {
    [ServerMove(AcceptEvent(me, Uuid(l.taskId), l.token, true, now), false), PreparationMove(l, Prepared, CALM),
     Reporting(me, l, PREPARING, commit, now), Reporting(me, l, RUNNING, commit, now)]
  }

  function Completion(me: AgentId, l: Lease, commit: string, files: seq<Artifact>, now: Time): Event {
    CompletedEvent(me, Uuid(l.taskId), l.token, 0, |files|, Reports.Bytes(files), Some(commit), files, now, now)
  }

  /** From the listed files to the end of the task. */
  function Delivering(me: AgentId, l: Lease, commit: string, files: seq<Artifact>, now: Time): seq<Move> {
    [Reporting(me, l, UPLOADING, commit, now), ManifestAckMove(l.taskId, true, CALM), UploadMove(true, CALM),
     ServerMove(Completion(me, l, commit, files, now), true), AckMove(Ack(l.taskId, SUCCEEDED))]
  }

  // --- One move ---

  lemma ReportMove(w: World, me: AgentId, window: nat, l: Lease, before: Status, status: Status, commit: string, now: Time)
    requires Up(w.db, me) && LeaseHeld(w.db, me, l.taskId, l.token, now) && w.db.tasks[l.taskId].status == before
    requires w.db.tasks[l.taskId].sourceCommit == Some(commit) || w.db.tasks[l.taskId].sourceCommit.None?
    requires (before, status) in {(PREPARING, PREPARING), (PREPARING, RUNNING), (RUNNING, UPLOADING)}
    ensures var v := Next(w, me, window, Reporting(me, l, status, commit, now));
            v == w.(db := v.db) && Stands(v.db, me, l, status, commit, now)
  {
  }

  lemma AcceptMove(w: World, me: AgentId, window: nat, l: Lease, now: Time)
    requires Up(w.db, me) && LeaseHeld(w.db, me, l.taskId, l.token, now) && w.db.tasks[l.taskId].status == DISPATCHED
    ensures var v := Next(w, me, window, ServerMove(AcceptEvent(me, Uuid(l.taskId), l.token, true, now), false));
            && v == w.(db := v.db) && Up(v.db, me) && LeaseHeld(v.db, me, l.taskId, l.token, now)
            && v.db.tasks[l.taskId].status == PREPARING && v.db.tasks[l.taskId].sourceCommit == w.db.tasks[l.taskId].sourceCommit
  {
    hide LeaseHeld, Up;
    AcceptingMove(w, me, window, l, now);
  }

  lemma StartMove(w: World, me: AgentId, window: nat, l: Lease)
    requires w.conn == Online && w.agent == Machine(Some(Preparing(l)), false) && w.starts[l] == 0
    ensures Next(w, me, window, PreparationMove(l, Prepared, CALM))
            == w.(agent := Machine(Some(Executing(l)), true), starts := w.starts[l := 1])
  {
  }

  lemma EndMove(w: World, me: AgentId, window: nat, l: Lease)
    requires w.conn == Online && w.agent == Machine(Some(Executing(l)), true)
    ensures Next(w, me, window, FinishedMove(true, CALM)) == w.(agent := Machine(Some(Listed(l)), false))
  {
  }

  lemma UploadMoves(w: World, me: AgentId, window: nat, l: Lease)
    requires w.conn == Online && w.agent == Machine(Some(Listed(l)), false)
    ensures var v := Next(w, me, window, ManifestAckMove(l.taskId, true, CALM));
            && v == w.(agent := Machine(Some(Listed(l).(upload := true)), false))
            && Next(v, me, window, UploadMove(true, CALM)) == w.(agent := Machine(Some(Listed(l).(pending := Some(PendingCompleted))), false))
  {
  }

  /** What a row says of a successful build. */
  ghost predicate Succeeded(db: Db, me: AgentId, id: TaskId, commit: string, files: seq<Artifact>) {
    && id in db.tasks && db.tasks[id].status == SUCCEEDED && db.tasks[id].exitCode == Some(0)
    && db.tasks[id].sourceCommit == Some(commit)
    && db.tasks[id].artifactCount == |files| && db.tasks[id].artifactBytes == Reports.Bytes(files)
    && me in db.agents && db.agents[me].activeTaskId.None?
  }

  predicate Arrived(files: seq<Artifact>) {
    files != [] && forall i :: 0 <= i < |files| ==> files[i].uploaded
  }

  lemma CompleteMove(w: World, me: AgentId, window: nat, l: Lease, commit: string, files: seq<Artifact>, now: Time)
    requires w.conn == Online && Stands(w.db, me, l, UPLOADING, commit, now) && Arrived(files)
    ensures var v := Next(w, me, window, ServerMove(Completion(me, l, commit, files, now), true));
            && v == w.(db := v.db, acks := v.acks) && Ack(l.taskId, SUCCEEDED) in v.acks
            && Succeeded(v.db, me, l.taskId, commit, files)
  {
    Reports.ArrivedIs(files, |files|, Reports.Bytes(files));
    Reports.TotalIsBytes(files);
    hide TotalSize, AllUploaded, Reports.Bytes, Reports.AllArrived;
    AllOf(files);
  }

  lemma AllOf(files: seq<Artifact>)
    requires Arrived(files)
    ensures Reports.AllArrived(files, |files|, Reports.Bytes(files))
  {
  }

  lemma ForgetMove(w: World, me: AgentId, window: nat, l: Lease)
    requires w.conn == Online && w.agent == Machine(Some(Listed(l).(pending := Some(PendingCompleted))), false)
    requires Ack(l.taskId, SUCCEEDED) in w.acks
    ensures Next(w, me, window, AckMove(Ack(l.taskId, SUCCEEDED))) == w.(agent := IDLE)
  {
  }

  // --- From the assignment to the end ---

  lemma Starts(w: World, me: AgentId, window: nat, l: Lease, commit: string, now: Time)
    requires w.conn == Online && w.agent == Machine(Some(Preparing(l)), false) && w.starts[l] == 0
    requires Up(w.db, me) && LeaseHeld(w.db, me, l.taskId, l.token, now) && w.db.tasks[l.taskId].status == DISPATCHED
    requires w.db.tasks[l.taskId].sourceCommit.None?
    ensures var v := RunMoves(w, me, window, Starting(me, l, commit, now));
            && v.conn == Online && v.agent == Machine(Some(Executing(l)), true) && v.starts == w.starts[l := 1]
            && Stands(v.db, me, l, RUNNING, commit, now)
  {
    hide Next, RunMoves, Up, LeaseHeld, Executing, Reporting;
    AcceptMove(w, me, window, l, now);
    var accepted := Next(w, me, window, ServerMove(AcceptEvent(me, Uuid(l.taskId), l.token, true, now), false));
    StartMove(accepted, me, window, l);
    var started := Next(accepted, me, window, PreparationMove(l, Prepared, CALM));
    ReportMove(started, me, window, l, PREPARING, PREPARING, commit, now);
    var told := Next(started, me, window, Reporting(me, l, PREPARING, commit, now));
    ReportMove(told, me, window, l, PREPARING, RUNNING, commit, now);
    TraceOfFour(w, me, window, Starting(me, l, commit, now), accepted, started, told, Next(told, me, window, Reporting(me, l, RUNNING, commit, now)));
  }

  lemma Delivers(w: World, me: AgentId, window: nat, l: Lease, commit: string, files: seq<Artifact>, now: Time)
    requires w.conn == Online && w.agent == Machine(Some(Listed(l)), false) && Stands(w.db, me, l, RUNNING, commit, now)
    requires Arrived(files)
    ensures var v := RunMoves(w, me, window, Delivering(me, l, commit, files, now));
            v.agent == IDLE && v.starts == w.starts && Succeeded(v.db, me, l.taskId, commit, files)
  {
    hide Next, RunMoves, Up, LeaseHeld, Listed, Reporting, Arrived, Succeeded, Completion;
    ReportMove(w, me, window, l, RUNNING, UPLOADING, commit, now);
    var told := Next(w, me, window, Reporting(me, l, UPLOADING, commit, now));
    UploadMoves(told, me, window, l);
    var accepted := Next(told, me, window, ManifestAckMove(l.taskId, true, CALM));
    var uploaded := Next(accepted, me, window, UploadMove(true, CALM));
    CompleteMove(uploaded, me, window, l, commit, files, now);
    var done := Next(uploaded, me, window, ServerMove(Completion(me, l, commit, files, now), true));
    ForgetMove(done, me, window, l);
    RunsThrough(w, me, window, Delivering(me, l, commit, files, now),
                [told, accepted, uploaded, done, Next(done, me, window, AckMove(Ack(l.taskId, SUCCEEDED)))]);
  }

  /** An agent without a task takes a new one, and its command runs. */
  function Until(me: AgentId, l: Lease, commit: string, now: Time): seq<Move> {
    Joining(me, now) + Assigning(me, l.taskId, l.token, now) + Starting(me, l, commit, now)
  }

  lemma UntilRuns(w: World, me: AgentId, window: nat, l: Lease, commit: string, now: Time)
    requires Inv(w) && w.agent == IDLE && l.taskId !in w.db.tasks && l.token !in w.issued
    ensures var v := RunMoves(w, me, window, Until(me, l, commit, now));
            && v.conn == Online && v.agent == Machine(Some(Executing(l)), true) && v.starts == w.starts[l := 1]
            && Stands(v.db, me, l, RUNNING, commit, now) && Inv(v)
  {
    var giving := Joining(me, now) + Assigning(me, l.taskId, l.token, now);
    NeverStarted(w, l);
    Gives(w, me, window, l.taskId, l.token, now);
    RunMovesConcat(w, me, window, giving, Starting(me, l, commit, now));
    RunMovesKeeps(w, me, window, Until(me, l, commit, now));
    var given := RunMoves(w, me, window, giving);
    hide RunMoves, Inv, Up, LeaseHeld, Stands, Executing, Starting;
    Starts(given, me, window, l, commit, now);
  }

  /** A build that succeeds: its command is started once, its row says so with commit and artifacts, and agent and slot
      are free again. */
  lemma TaskSucceeds(w: World, me: AgentId, window: nat, l: Lease, commit: string, files: seq<Artifact>, now: Time)
    requires Inv(w) && w.agent == IDLE && l.taskId !in w.db.tasks && l.token !in w.issued && Arrived(files)
    ensures var v := RunMoves(w, me, window, Until(me, l, commit, now) + [FinishedMove(true, CALM)] + Delivering(me, l, commit, files, now));
            v.agent == IDLE && v.starts == w.starts[l := 1] && Succeeded(v.db, me, l.taskId, commit, files)
  {
    var running := Until(me, l, commit, now);
    hide *;
    UntilRuns(w, me, window, l, commit, now);
    var v := RunMoves(w, me, window, running);
    EndMove(v, me, window, l);
    RunMovesSnoc(w, me, window, running, FinishedMove(true, CALM));
    Delivers(Next(v, me, window, FinishedMove(true, CALM)), me, window, l, commit, files, now);
    RunMovesConcat(w, me, window, running + [FinishedMove(true, CALM)], Delivering(me, l, commit, files, now));
  }

  // --- A cancellation ---

  /** The cancellation is requested, reaches the agent, is confirmed, and the confirmation is acknowledged. */
  function Stopping(me: AgentId, l: Lease, now: Time): seq<Move> {
    [ServerMove(CancelEvent(Uuid(l.taskId), now), true), CancelMove(l, CALM),
     ServerMove(CanceledEvent(me, Uuid(l.taskId), l.token, true, now), true), AckMove(Ack(l.taskId, CANCELED))]
  }

  /** The task that was stopped, with the confirmation to send. */
  function Stopped(l: Lease): ActiveTask {
    Executing(l).(execution := false, executionCancel := false, pending := Some(PendingCanceled))
  }

  lemma RequestMove(w: World, me: AgentId, window: nat, l: Lease, commit: string, now: Time)
    requires w.conn == Online && Stands(w.db, me, l, RUNNING, commit, now)
    ensures var v := Next(w, me, window, ServerMove(CancelEvent(Uuid(l.taskId), now), true));
            && v == w.(db := v.db, cancels := v.cancels) && l in v.cancels && Stands(v.db, me, l, CANCELING, commit, now)
  {
  }

  lemma StopMove(w: World, me: AgentId, window: nat, l: Lease)
    requires w.conn == Online && w.agent == Machine(Some(Executing(l)), true) && l in w.cancels
    ensures Next(w, me, window, CancelMove(l, CALM))
            == w.(agent := Machine(Some(Stopped(l)), false), canceled := w.canceled + {l})
  {
  }

  lemma ConfirmMove(w: World, me: AgentId, window: nat, l: Lease, commit: string, now: Time)
    requires w.conn == Online && Stands(w.db, me, l, CANCELING, commit, now)
    ensures var v := Next(w, me, window, ServerMove(CanceledEvent(me, Uuid(l.taskId), l.token, true, now), true));
            && v == w.(db := v.db, acks := v.acks) && Ack(l.taskId, CANCELED) in v.acks
            && l.taskId in v.db.tasks && v.db.tasks[l.taskId].status == CANCELED
            && me in v.db.agents && v.db.agents[me].activeTaskId.None?
  {
  }

  lemma DismissMove(w: World, me: AgentId, window: nat, l: Lease)
    requires w.conn == Online && w.agent == Machine(Some(Stopped(l)), false) && Ack(l.taskId, CANCELED) in w.acks
    ensures Next(w, me, window, AckMove(Ack(l.taskId, CANCELED))) == w.(agent := IDLE)
  {
  }

  lemma StopMoves(w: World, me: AgentId, window: nat, l: Lease, commit: string, now: Time)
    requires w.conn == Online && w.agent == Machine(Some(Executing(l)), true) && Stands(w.db, me, l, RUNNING, commit, now)
    ensures var v := RunMoves(w, me, window, Stopping(me, l, now));
            && v.agent == IDLE && v.starts == w.starts
            && l.taskId in v.db.tasks && v.db.tasks[l.taskId].status == CANCELED
            && me in v.db.agents && v.db.agents[me].activeTaskId.None?
  {
    hide Next, RunMoves, Stands, Executing, Stopped;
    RequestMove(w, me, window, l, commit, now);
    var requested := Next(w, me, window, ServerMove(CancelEvent(Uuid(l.taskId), now), true));
    StopMove(requested, me, window, l);
    var stopped := Next(requested, me, window, CancelMove(l, CALM));
    ConfirmMove(stopped, me, window, l, commit, now);
    var confirmed := Next(stopped, me, window, ServerMove(CanceledEvent(me, Uuid(l.taskId), l.token, true, now), true));
    DismissMove(confirmed, me, window, l);
    TraceOfFour(w, me, window, Stopping(me, l, now), requested, stopped, confirmed, Next(confirmed, me, window, AckMove(Ack(l.taskId, CANCELED))));
  }

  /** A running build that is canceled: its row says so, and agent and slot are free again. */
  lemma TaskIsCanceled(w: World, me: AgentId, window: nat, l: Lease, commit: string, now: Time)
    requires Inv(w) && w.agent == IDLE && l.taskId !in w.db.tasks && l.token !in w.issued
    ensures var v := RunMoves(w, me, window, Until(me, l, commit, now) + Stopping(me, l, now));
            && v.agent == IDLE && v.starts == w.starts[l := 1]
            && l.taskId in v.db.tasks && v.db.tasks[l.taskId].status == CANCELED
            && me in v.db.agents && v.db.agents[me].activeTaskId.None?
  {
    hide *;
    UntilRuns(w, me, window, l, commit, now);
    RunMovesConcat(w, me, window, Until(me, l, commit, now), Stopping(me, l, now));
    StopMoves(RunMoves(w, me, window, Until(me, l, commit, now)), me, window, l, commit, now);
  }

  // --- A failure that is recorded as a success ---

  const LOSING := CALM.(tailsKept := false)

  /** The command fails while the connection does, so that its log tails are not sent; then the agent reconnects. */
  function Losing(me: AgentId, l: Lease, now: Time): seq<Move> {
    [FinishedMove(false, LOSING)] + (Reconnecting(me, l.taskId, now, true, now) + [RecoverMove(CALM)])
  }

  function Lost(l: Lease): ActiveTask {
    Executing(l).(execution := false, commandCompleted := true)
  }

  lemma LosingMove(w: World, me: AgentId, window: nat, l: Lease)
    requires w.conn == Online && w.agent == Machine(Some(Executing(l)), true)
    ensures Next(w, me, window, FinishedMove(false, LOSING)) == Dropped(w.(agent := Machine(Some(Lost(l)), false)))
  {
  }

  lemma StandsHolds(w: World, me: AgentId, l: Lease, commit: string, now: Time)
    requires Stands(w.db, me, l, RUNNING, commit, now) && w.agent == Machine(Some(Lost(l)), false)
    ensures Holds(w, me, RUNNING, true, now)
  {
  }

  lemma LostGoesOn(w: World, v: World, me: AgentId, l: Lease, commit: string, now: Time)
    requires Stands(w.db, me, l, RUNNING, commit, now) && w.agent == Machine(Some(Lost(l)), false) && GoesOn(w, v, me)
    ensures v.conn == Online && Stands(v.db, me, l, RUNNING, commit, now)
  {
  }

  lemma LostRecovers(w: World, me: AgentId, window: nat, l: Lease, commit: string, now: Time)
    requires Inv(w) && Stands(w.db, me, l, RUNNING, commit, now) && w.agent == Machine(Some(Lost(l)), false) && window > 0
    ensures var v := RunMoves(w, me, window, Reconnecting(me, l.taskId, now, true, now) + [RecoverMove(CALM)]);
            && v.conn == Online && v.agent == Machine(Some(Listed(l)), false) && v.starts == w.starts
            && Stands(v.db, me, l, RUNNING, commit, now)
  {
    StandsHolds(w, me, l, commit, now);
    var v := RunMoves(w, me, window, Reconnecting(me, l.taskId, now, true, now) + [RecoverMove(CALM)]);
    hide Inv, Stands, Holds, RunMoves, GoesOn, Resumes;
    EndedCommandGoesOn(w, me, window, now, true, now, CALM);
    LostGoesOn(w, v, me, l, commit, now);
  }

  lemma DropStands(w: World, a: Machine)
    ensures Dropped(w.(agent := a)).agent == a && Dropped(w.(agent := a)).db == w.db && Dropped(w.(agent := a)).starts == w.starts
  {
  }

  lemma LosingMoves(w: World, me: AgentId, window: nat, l: Lease, commit: string, now: Time)
    requires Inv(w) && w.conn == Online && w.agent == Machine(Some(Executing(l)), true)
    requires Stands(w.db, me, l, RUNNING, commit, now) && window > 0
    ensures var v := RunMoves(w, me, window, Losing(me, l, now));
            && v.conn == Online && v.agent == Machine(Some(Listed(l)), false) && v.starts == w.starts
            && Stands(v.db, me, l, RUNNING, commit, now)
  {
    var ended := FinishedMove(false, LOSING);
    var again := Reconnecting(me, l.taskId, now, true, now) + [RecoverMove(CALM)];
    LosingIs(me, l, now);
    hide *;
    LosingMove(w, me, window, l);
    DropStands(w, Machine(Some(Lost(l)), false));
    MoveKeeps(w, me, window, ended);
    LostRecovers(Next(w, me, window, ended), me, window, l, commit, now);
    RunMovesConcat(w, me, window, [ended], again);
    OneMove(w, me, window, ended);
  }

  lemma LosingIs(me: AgentId, l: Lease, now: Time)
    ensures Losing(me, l, now) == [FinishedMove(false, LOSING)] + (Reconnecting(me, l.taskId, now, true, now) + [RecoverMove(CALM)])
  {
  }

  lemma OneMove(w: World, me: AgentId, window: nat, m: Move)
    ensures RunMoves(w, me, window, [m]) == Next(w, me, window, m)
  {
    hide Next;
    assert [m][1..] == [];
    assert RunMoves(Next(w, me, window, m), me, window, []) == Next(w, me, window, m);
  }

  /** A build whose command failed is recorded as succeeded, with exit code zero, if its log tails were lost with the
      connection and the agent was back in time. */
  lemma FailedCommandSucceeds(w: World, me: AgentId, window: nat, l: Lease, commit: string, files: seq<Artifact>, now: Time)
    requires Inv(w) && w.agent == IDLE && l.taskId !in w.db.tasks && l.token !in w.issued && Arrived(files) && window > 0
    ensures var v := RunMoves(w, me, window, Until(me, l, commit, now) + Losing(me, l, now) + Delivering(me, l, commit, files, now));
            v.agent == IDLE && v.starts == w.starts[l := 1] && Succeeded(v.db, me, l.taskId, commit, files)
  {
    var running := Until(me, l, commit, now);
    hide *;
    UntilRuns(w, me, window, l, commit, now);
    var v := RunMoves(w, me, window, running);
    LosingMoves(v, me, window, l, commit, now);
    RunMovesConcat(w, me, window, running, Losing(me, l, now));
    Delivers(RunMoves(v, me, window, Losing(me, l, now)), me, window, l, commit, files, now);
    RunMovesConcat(w, me, window, running + Losing(me, l, now), Delivering(me, l, commit, files, now));
  }

  // --- Exactly when ---

  lemma LosesTails(w: World, me: AgentId, window: nat, now: Time, x: Env)
    requires w.conn == Online && Executes(w.agent) && Holds(w, me, RUNNING, true, now) && !x.tailsKept
    ensures var v, t := Next(w, me, window, FinishedMove(false, x)), w.agent.active.value;
            && v.agent == Machine(Some(t.(execution := false, commandCompleted := true)), false)
            && Holds(v, me, RUNNING, true, now)
  {
  }

  lemma ManifestMove(v: World, me: AgentId, window: nat)
    requires v.conn == Online && v.agent.active.Some? && v.agent.active.value.manifest
    ensures Next(v, me, window, ManifestAckMove(v.agent.active.value.lease.taskId, true, CALM))
            == v.(agent := v.agent.(active := Some(v.agent.active.value.(upload := true))))
  {
    HandlerMoves(v, me, window, ManifestAckMove(v.agent.active.value.lease.taskId, true, CALM));
    hide Next;
  }

  lemma UploadedMove(v: World, me: AgentId, window: nat)
    requires v.conn == Online && v.agent.active.Some? && v.agent.active.value.manifest && v.agent.active.value.upload
    ensures var u := Next(v, me, window, UploadMove(true, CALM));
            Completes(u.agent) && u.agent.active.value.lease == v.agent.active.value.lease
  {
    HandlerMoves(v, me, window, UploadMove(true, CALM));
    hide Next;
  }

  lemma UploadsAgain(v: World, me: AgentId, window: nat)
    requires v.conn == Online && v.agent.active.Some? && v.agent.active.value.manifest
    ensures var u := RunMoves(v, me, window, [ManifestAckMove(v.agent.active.value.lease.taskId, true, CALM), UploadMove(true, CALM)]);
            Completes(u.agent) && u.agent.active.value.lease == v.agent.active.value.lease
  {
    hide Next, RunMoves, Completes;
    var id := v.agent.active.value.lease.taskId;
    var a := Next(v, me, window, ManifestAckMove(id, true, CALM));
    ManifestMove(v, me, window);
    UploadedMove(a, me, window);
    RunsThrough(v, me, window, [ManifestAckMove(id, true, CALM), UploadMove(true, CALM)], [a, Next(a, me, window, UploadMove(true, CALM))]);
  }

  lemma RelistsAfterLoss(v: World, me: AgentId, window: nat, now: Time)
    requires Inv(v) && Holds(v, me, RUNNING, true, now) && window > 0
    requires var t := v.agent.active.value;
             t.commandCompleted && t.executionCancel && t.workspace && !t.manifest && !t.upload && t.pending.None?
    ensures var u := RunMoves(v, me, window, Reconnecting(me, v.agent.active.value.lease.taskId, now, true, now) + [RecoverMove(CALM)]);
            && u.conn == Online && u.agent.active == Some(v.agent.active.value.(manifest := true))
  {
    hide Inv, Holds, RunMoves, Resumes;
    EndedCommandGoesOn(v, me, window, now, true, now, CALM);
  }

  /** The agent may still have a completion to send for this lease. */
  ghost predicate MayComplete(v: World, me: AgentId, window: nat, l: Lease) {
    exists more :: CompletesAfter(v, me, window, more, l)
  }

  ghost predicate CompletesAfter(v: World, me: AgentId, window: nat, more: seq<Move>, l: Lease) {
    var u := RunMoves(v, me, window, more); Completes(u.agent) && u.agent.active.value.lease == l
  }

  function Again(me: AgentId, id: TaskId, now: Time): seq<Move> {
    Reconnecting(me, id, now, true, now) + [RecoverMove(CALM)] + [ManifestAckMove(id, true, CALM), UploadMove(true, CALM)]
  }

  lemma MayCompleteAgain(v: World, me: AgentId, window: nat, now: Time)
    requires v.agent.active.Some? && Inv(v) && Holds(v, me, RUNNING, true, now) && window > 0
    requires var t := v.agent.active.value;
             t.commandCompleted && t.executionCancel && t.workspace && !t.manifest && !t.upload && t.pending.None?
    ensures CompletesAfter(v, me, window, Again(me, v.agent.active.value.lease.taskId, now), v.agent.active.value.lease)
  {
    hide Inv, Holds, RunMoves, Completes, Reconnecting;
    var id := v.agent.active.value.lease.taskId;
    var back := Reconnecting(me, id, now, true, now) + [RecoverMove(CALM)];
    RelistsAfterLoss(v, me, window, now);
    UploadsAgain(RunMoves(v, me, window, back), me, window);
    RunMovesConcat(v, me, window, back, [ManifestAckMove(id, true, CALM), UploadMove(true, CALM)]);
  }

  lemma MayCompleteAfterLoss(w: World, me: AgentId, window: nat, now: Time, x: Env)
    requires Inv(w) && w.conn == Online && Executes(w.agent) && Holds(w, me, RUNNING, true, now) && window > 0 && !x.tailsKept
    ensures MayComplete(Next(w, me, window, FinishedMove(false, x)), me, window, w.agent.active.value.lease)
  {
    LosesTails(w, me, window, now, x);
    MoveKeeps(w, me, window, FinishedMove(false, x));
    hide Inv, Holds, Next, RunMoves, Again, CompletesAfter;
    MayCompleteAgain(Next(w, me, window, FinishedMove(false, x)), me, window, now);
  }

  /** The command fails while the server holds its task. The agent may then still report it as completed exactly if the
      log tails were not kept. */
  lemma FailureIsLostExactly(w: World, me: AgentId, window: nat, now: Time, x: Env)
    requires Inv(w) && w.conn == Online && Executes(w.agent) && Holds(w, me, RUNNING, true, now) && window > 0
    ensures MayComplete(Next(w, me, window, FinishedMove(false, x)), me, window, w.agent.active.value.lease) <==> !x.tailsKept
  {
    var l := w.agent.active.value.lease;
    var v := Next(w, me, window, FinishedMove(false, x));
    hide Inv, Holds, Next, RunMoves, Completes, Executes, MayComplete;
    if x.tailsKept {
      forall more ensures !CompletesAfter(v, me, window, more, l) {
        FailureStaysFailure(w, me, window, x, more);
      }
      NeverCompletes(v, me, window, l);
    } else {
      MayCompleteAfterLoss(w, me, window, now, x);
    }
  }

  lemma NeverCompletes(v: World, me: AgentId, window: nat, l: Lease)
    requires forall more :: !CompletesAfter(v, me, window, more, l)
    ensures !MayComplete(v, me, window, l)
  {
    hide CompletesAfter;
  }
}
