/** Agent and server over a lost connection: what a task that was being prepared, run or uploaded goes on with. */
module Reconnects {
  import opened Options
  import opened TaskStatus
  import opened TaskRows
  import opened TaskInvariants
  import opened TaskRuns
  import opened TaskRecovery
  import opened TaskEffects
  import opened AgentTask
  import opened ExecutionOnce
  import opened CommandEnds

  /** The connection breaks, the server notices, and the agent connects again and sends its hello. */
  function Reconnecting(me: AgentId, id: TaskId, lostAt: Time, capable: bool, now: Time): seq<Move> {
    [DropMove, ServerMove(DisconnectEvent(me, id, lostAt), false), ConnectMove, HelloMove(capable, now)]
  }

  /** The server holds the agent's task, in this phase and under the agent's lease, which is not over yet. */
  ghost predicate Holds(w: World, me: AgentId, phase: Status, capable: bool, now: Time) {
    && w.agent.active.Some?
    && var l := w.agent.active.value.lease;
       && l.taskId in w.db.tasks && w.db.tasks[l.taskId].agentId == me && w.db.tasks[l.taskId].status == phase
       && w.db.tasks[l.taskId].leaseHash == Some(l.token)
       && w.db.tasks[l.taskId].leaseExpiresAt.Some? && now < w.db.tasks[l.taskId].leaseExpiresAt.value
       && (w.db.tasks[l.taskId].interactive ==> capable)
       && me in w.db.agents && w.db.agents[me].enabled
  }

  /** The answer to the hello is under way: RESUME in that phase. Agent and starts are as they were, and so is the row
      but for its history and update time. */
  ghost predicate Resumes(w: World, v: World, me: AgentId, phase: Status) {
    && w.agent.active.Some?
    && var id := w.agent.active.value.lease.taskId;
       && v.conn == Answered(Some(Decision(id, RESUME(phase))))
       && v.agent == w.agent && v.starts == w.starts
       && id in w.db.tasks && id in v.db.tasks && SameButHistory(w.db.tasks[id], v.db.tasks[id])
       && Active(v.db, me, id) && Up(v.db, me)
  }

  /** The agent is connected again, and the task goes on in the row it had. */
  ghost predicate GoesOn(w: World, v: World, me: AgentId) {
    && v.conn == Online && w.agent.active.Some?
    && var id := w.agent.active.value.lease.taskId;
       && id in w.db.tasks && id in v.db.tasks && SameButHistory(w.db.tasks[id], v.db.tasks[id])
       && Active(v.db, me, id) && Up(v.db, me)
  }

  // --- The moves up to the answer ---

  ghost function AfterHello(w: World, me: AgentId, window: nat, lostAt: Time, capable: bool, now: Time): HelloTx
    requires w.agent.active.Some?
  {
    Hello(DisconnectTask(w.db, me, w.agent.active.value.lease.taskId, window, lostAt), me, Reported(w.agent), capable, now)
  }

  lemma DropsAndConnects(w: World, me: AgentId, window: nat, id: TaskId, lostAt: Time)
    ensures Next(w, me, window, DropMove) == Dropped(w)
    ensures var lost := Next(Dropped(w), me, window, ServerMove(DisconnectEvent(me, id, lostAt), false));
            && lost == Dropped(w).(db := DisconnectTask(w.db, me, id, window, lostAt))
            && Next(lost, me, window, ConnectMove) == lost.(conn := HelloSent)
  {
    hide DisconnectTask;
  }

  lemma GreetsBack(w: World, me: AgentId, window: nat, capable: bool, now: Time)
    requires w.conn == HelloSent
    ensures var hello := Hello(w.db, me, Reported(w.agent), capable, now);
            Next(w, me, window, HelloMove(capable, now)) == w.(db := hello.db, conn := Answered(hello.decision))
  {
    hide Hello;
  }

  lemma DropKeepsAgent(w: World)
    ensures Dropped(w).agent == w.agent && Dropped(w).starts == w.starts && Dropped(w).canceled == w.canceled && Dropped(w).db == w.db
  {
  }

  lemma AfterHelloIs(w: World, me: AgentId, window: nat, lostAt: Time, capable: bool, now: Time)
    requires w.agent.active.Some?
    ensures AfterHello(w, me, window, lostAt, capable, now)
            == Hello(DisconnectTask(w.db, me, w.agent.active.value.lease.taskId, window, lostAt), me, Reported(w.agent), capable, now)
  {
    hide Hello, DisconnectTask, Reported;
  }

  lemma ReconnectingIs(me: AgentId, id: TaskId, lostAt: Time, capable: bool, now: Time)
    ensures Reconnecting(me, id, lostAt, capable, now)
            == [DropMove, ServerMove(DisconnectEvent(me, id, lostAt), false), ConnectMove, HelloMove(capable, now)]
  {
  }

  lemma TraceOfFour(w: World, me: AgentId, window: nat, moves: seq<Move>, a: World, b: World, c: World, d: World)
    requires |moves| == 4 && a == Next(w, me, window, moves[0]) && b == Next(a, me, window, moves[1])
    requires c == Next(b, me, window, moves[2]) && d == Next(c, me, window, moves[3])
    ensures RunMoves(w, me, window, moves) == d
  {
    hide Next, RunMoves;
    RunsThrough(w, me, window, moves, [a, b, c, d]);
  }

  lemma Reconnects(w: World, me: AgentId, window: nat, lostAt: Time, capable: bool, now: Time)
    requires w.agent.active.Some?
    ensures var hello := AfterHello(w, me, window, lostAt, capable, now);
            RunMoves(w, me, window, Reconnecting(me, w.agent.active.value.lease.taskId, lostAt, capable, now))
            == Dropped(w).(db := hello.db, conn := Answered(hello.decision))
  {
    hide *;
    var id := w.agent.active.value.lease.taskId;
    var dropped := Dropped(w);
    var lost := dropped.(db := DisconnectTask(w.db, me, id, window, lostAt));
    var sent := lost.(conn := HelloSent);
    DropKeepsAgent(w);
    DropsAndConnects(w, me, window, id, lostAt);
    GreetsBack(sent, me, window, capable, now);
    AfterHelloIs(w, me, window, lostAt, capable, now);
    ReconnectingIs(me, id, lostAt, capable, now);
    TraceOfFour(w, me, window, Reconnecting(me, id, lostAt, capable, now), dropped, lost, sent, Next(sent, me, window, HelloMove(capable, now)));
  }

  // --- The answer ---

  lemma HolderIsActive(w: World, me: AgentId, phase: Status, capable: bool, now: Time)
    requires DbOk(w.db) && Holds(w, me, phase, capable, now) && ExecutionPhase(phase)
    ensures Active(w.db, me, w.agent.active.value.lease.taskId)
  {
    RowIsOk(w.db, w.agent.active.value.lease.taskId);
    hide DbOk, Walk;
  }

  lemma ResumedIsUp(db: Db, me: AgentId, current: Option<CurrentTask>, capable: bool, now: Time)
    requires var hello := Hello(db, me, current, capable, now);
             hello.decision.Some? && hello.decision.value.action.RESUME?
    ensures Up(Hello(db, me, current, capable, now).db, me)
  {
    hide FailOrphan;
  }

  /** If the agent reports the phase the server holds, it may go on in it. */
  lemma HolderResumes(w: World, me: AgentId, window: nat, phase: Status, lostAt: Time, capable: bool, now: Time)
    requires DbOk(w.db) && Holds(w, me, phase, capable, now) && ExecutionPhase(phase) && now < lostAt + window
    requires Reported(w.agent) == Some(CurrentTask(Uuid(w.agent.active.value.lease.taskId), w.agent.active.value.lease.token, phase))
    ensures var id, hello := w.agent.active.value.lease.taskId, AfterHello(w, me, window, lostAt, capable, now);
            && hello.decision == Some(Decision(id, RESUME(phase)))
            && id in w.db.tasks && id in hello.db.tasks && SameButHistory(w.db.tasks[id], hello.db.tasks[id])
            && Active(hello.db, me, id) && Up(hello.db, me)
  {
    HolderIsActive(w, me, phase, capable, now);
    ResumedIsUp(DisconnectTask(w.db, me, w.agent.active.value.lease.taskId, window, lostAt), me, Reported(w.agent), capable, now);
    hide DbOk, Up, DisconnectTask, Hello, SameButHistory, Active, Reported;
    DisconnectThenResume(w.db, me, w.agent.active.value.lease.taskId, w.agent.active.value.lease.token, capable, window, lostAt, now);
  }

  lemma ReportedResumes(w: World, me: AgentId, window: nat, phase: Status, lostAt: Time, capable: bool, now: Time)
    requires DbOk(w.db) && Holds(w, me, phase, capable, now) && ExecutionPhase(phase) && now < lostAt + window
    requires Reported(w.agent) == Some(CurrentTask(Uuid(w.agent.active.value.lease.taskId), w.agent.active.value.lease.token, phase))
    ensures Resumes(w, RunMoves(w, me, window, Reconnecting(me, w.agent.active.value.lease.taskId, lostAt, capable, now)), me, phase)
  {
    HolderResumes(w, me, window, phase, lostAt, capable, now);
    Reconnects(w, me, window, lostAt, capable, now);
    DropKeepsAgent(w);
    hide RunMoves, AfterHello, DbOk, SameButHistory, Active, Up, Reported, Dropped, Reconnecting;
  }

  lemma RecoversWith(w: World, me: AgentId, window: nat, moves: seq<Move>, x: Env)
    ensures RunMoves(w, me, window, moves + [RecoverMove(x)]) == Next(RunMoves(w, me, window, moves), me, window, RecoverMove(x))
  {
    hide Next, RunMoves;
    RunMovesSnoc(w, me, window, moves, RecoverMove(x));
  }

  /** What the agent does with the answer is what it does with it alone. */
  lemma Recovers(w: World, v: World, me: AgentId, window: nat, phase: Status, x: Env, agent: Machine)
    requires Resumes(w, v, me, phase)
    requires HandleRecovery(w.agent, Some(Decision(w.agent.active.value.lease.taskId, RESUME(phase))), x) == Handled(agent, true, false)
    ensures var next := Next(v, me, window, RecoverMove(x));
            GoesOn(w, next, me) && next.agent == agent && next.starts == w.starts
  {
    hide HandleRecovery, SameButHistory, Active, Up;
  }

  // --- What goes on ---

  /** The agent reconnects and is told RESUME in this phase; then it is connected again, the row goes on as it was,
      the agent is `agent`, and no command was started. */
  ghost predicate CarriesOn(w: World, me: AgentId, window: nat, phase: Status, lostAt: Time, capable: bool, now: Time, x: Env, agent: Machine)
    requires w.agent.active.Some?
  {
    var moves := Reconnecting(me, w.agent.active.value.lease.taskId, lostAt, capable, now);
    && Resumes(w, RunMoves(w, me, window, moves), me, phase)
    && var v := RunMoves(w, me, window, moves + [RecoverMove(x)]);
       GoesOn(w, v, me) && v.agent == agent && v.starts == w.starts
  }

  lemma Carries(w: World, me: AgentId, window: nat, phase: Status, lostAt: Time, capable: bool, now: Time, x: Env, agent: Machine)
    requires w.agent.active.Some?
    requires var moves := Reconnecting(me, w.agent.active.value.lease.taskId, lostAt, capable, now);
             && Resumes(w, RunMoves(w, me, window, moves), me, phase)
             && var v := RunMoves(w, me, window, moves + [RecoverMove(x)]);
                GoesOn(w, v, me) && v.agent == agent && v.starts == w.starts
    ensures CarriesOn(w, me, window, phase, lostAt, capable, now, x, agent)
  {
    hide Resumes, GoesOn, RunMoves, Reconnecting;
  }

  lemma CarriesOnWith(w: World, me: AgentId, window: nat, phase: Status, lostAt: Time, capable: bool, now: Time, x: Env, agent: Machine)
    requires DbOk(w.db) && Holds(w, me, phase, capable, now) && ExecutionPhase(phase) && now < lostAt + window
    requires Reported(w.agent) == Some(CurrentTask(Uuid(w.agent.active.value.lease.taskId), w.agent.active.value.lease.token, phase))
    requires HandleRecovery(w.agent, Some(Decision(w.agent.active.value.lease.taskId, RESUME(phase))), x) == Handled(agent, true, false)
    ensures CarriesOn(w, me, window, phase, lostAt, capable, now, x, agent)
  {
    var moves := Reconnecting(me, w.agent.active.value.lease.taskId, lostAt, capable, now);
    ReportedResumes(w, me, window, phase, lostAt, capable, now);
    hide *;
    RecoversWith(w, me, window, moves, x);
    Recovers(w, RunMoves(w, me, window, moves), me, window, phase, x, agent);
    Carries(w, me, window, phase, lostAt, capable, now, x, agent);
  }

  /** A running command runs on: the agent keeps the very same task and starts nothing. */
  lemma CommandRunsOn(w: World, me: AgentId, window: nat, lostAt: Time, capable: bool, now: Time, x: Env)
    requires Inv(w) && Holds(w, me, RUNNING, capable, now) && now < lostAt + window
    requires var t := w.agent.active.value; t.execution && !t.commandCompleted && !t.manifest && !t.upload
    ensures CarriesOn(w, me, window, RUNNING, lostAt, capable, now, x, w.agent)
  {
    CarriesOnWith(w, me, window, RUNNING, lostAt, capable, now, x, w.agent);
  }

  /** So does a preparation. */
  lemma PreparationGoesOn(w: World, me: AgentId, window: nat, lostAt: Time, capable: bool, now: Time, x: Env)
    requires Inv(w) && Holds(w, me, PREPARING, capable, now) && now < lostAt + window
    requires var t := w.agent.active.value;
             t.preparation && !t.execution && !t.executionCancel && !t.commandCompleted && !t.manifest && !t.upload
    ensures CarriesOn(w, me, window, PREPARING, lostAt, capable, now, x, w.agent)
  {
    CarriesOnWith(w, me, window, PREPARING, lostAt, capable, now, x, w.agent);
  }

  /** So does an upload, and a manifest whose answer was lost is sent again. */
  lemma UploadGoesOn(w: World, me: AgentId, window: nat, lostAt: Time, capable: bool, now: Time, x: Env)
    requires Inv(w) && Holds(w, me, UPLOADING, capable, now) && now < lostAt + window
    requires w.agent.active.value.commandCompleted && w.agent.active.value.manifest
    requires !w.agent.active.value.upload ==> x.manifestFits && x.manifestSent
    ensures CarriesOn(w, me, window, UPLOADING, lostAt, capable, now, x, w.agent)
  {
    CarriesOnWith(w, me, window, UPLOADING, lostAt, capable, now, x, w.agent);
  }

  /** A command that ended before its files could be listed is not started again: its files are listed now. */
  lemma EndedCommandGoesOn(w: World, me: AgentId, window: nat, lostAt: Time, capable: bool, now: Time, x: Env)
    requires Inv(w) && Holds(w, me, RUNNING, capable, now) && now < lostAt + window
    requires var t := w.agent.active.value;
             t.commandCompleted && t.executionCancel && t.workspace && !t.manifest && !t.upload && t.pending.None?
    requires x.statusSent && x.scanned && x.manifestFits && x.manifestSent
    ensures CarriesOn(w, me, window, RUNNING, lostAt, capable, now, x,
                      w.agent.(active := Some(w.agent.active.value.(manifest := true))))
  {
    CarriesOnWith(w, me, window, RUNNING, lostAt, capable, now, x, w.agent.(active := Some(w.agent.active.value.(manifest := true))));
  }

  /** A prepared task whose command was not started yet is started after the reconnect, once. */
  lemma PreparedTaskStarts(w: World, me: AgentId, window: nat, lostAt: Time, capable: bool, now: Time, x: Env)
    requires Inv(w) && Holds(w, me, PREPARING, capable, now) && now < lostAt + window
    requires var t := w.agent.active.value;
             && t.sourceCommit && t.workspace && t.configWritten && !t.preparation && !t.execution && !t.executionCancel
             && !t.commandCompleted && !t.manifest && !t.upload && t.pending.None?
    requires x.leaseLeft && x.spawned && x.runningSent
    ensures var l := w.agent.active.value.lease;
            var moves := Reconnecting(me, l.taskId, lostAt, capable, now);
            && Resumes(w, RunMoves(w, me, window, moves), me, PREPARING)
            && var v := RunMoves(w, me, window, moves + [RecoverMove(x)]);
               && GoesOn(w, v, me) && v.starts == w.starts[l := 1] && w.starts[l] == 0
               && v.agent == Machine(Some(w.agent.active.value.(execution := true, executionCancel := true)), true)
  {
    var moves := Reconnecting(me, w.agent.active.value.lease.taskId, lostAt, capable, now);
    ReportedResumes(w, me, window, PREPARING, lostAt, capable, now);
    RunMovesKeeps(w, me, window, moves + [RecoverMove(x)]);
    StartsOnce(RunMoves(w, me, window, moves + [RecoverMove(x)]), w.agent.active.value.lease);
    hide *;
    RecoversWith(w, me, window, moves, x);
    RecoversStarting(w, RunMoves(w, me, window, moves), me, window, x);
  }

  lemma StartsOnce(w: World, l: Lease)
    requires Inv(w)
    ensures w.starts[l] <= 1
  {
    hide DbOk, Dead, AgentOk;
  }

  lemma RecoversStarting(w: World, v: World, me: AgentId, window: nat, x: Env)
    requires Resumes(w, v, me, PREPARING)
    requires var t := w.agent.active.value;
             && t.sourceCommit && t.workspace && t.configWritten && !t.preparation && !t.execution && !t.executionCancel
             && !t.commandCompleted && !t.manifest && !t.upload && t.pending.None?
    requires x.leaseLeft && x.spawned && x.runningSent
    ensures var next, l := Next(v, me, window, RecoverMove(x)), w.agent.active.value.lease;
            && GoesOn(w, next, me) && next.starts == w.starts[l := w.starts[l] + 1]
            && next.agent == Machine(Some(w.agent.active.value.(execution := true, executionCancel := true)), true)
  {
    hide SameButHistory, Active, Up;
  }

  // --- What is canceled ---

  /** The task is being canceled at the server, while the agent may not know: it still may confirm. */
  ghost predicate Cancels(w: World, me: AgentId, capable: bool, now: Time) {
    && w.agent.active.Some?
    && var l := w.agent.active.value.lease;
       && l.taskId in w.db.tasks && w.db.tasks[l.taskId].agentId == me && w.db.tasks[l.taskId].status == CANCELING
       && w.db.tasks[l.taskId].leaseHash == Some(l.token) && w.db.tasks[l.taskId].cancelRequestedAt.Some?
       && ((w.db.tasks[l.taskId].leaseExpiresAt.Some? && now < w.db.tasks[l.taskId].leaseExpiresAt.value)
           || now - w.db.tasks[l.taskId].cancelRequestedAt.value < 30_000)
       && (w.db.tasks[l.taskId].interactive ==> capable)
       && me in w.db.agents && w.db.agents[me].enabled
  }

  lemma CanceledIsAnswered(w: World, me: AgentId, window: nat, lostAt: Time, capable: bool, now: Time)
    requires DbOk(w.db) && Cancels(w, me, capable, now)
    ensures var t, hello := w.agent.active.value, AfterHello(w, me, window, lostAt, capable, now);
            && hello.decision == Some(Decision(t.lease.taskId, CANCEL(Phase(t)))) && hello.db.tasks == w.db.tasks
  {
    var id := w.agent.active.value.lease.taskId;
    SlotFacts(w.db, id);
    CancelingIsNotParked(w.db, me, id, window, lostAt);
    CancelingContinues(w, me, capable, now);
    HelloContinues(w.db, me, id, Reported(w.agent), capable, now);
    assert w.db.tasks == w.db.tasks[id := w.db.tasks[id]];
    hide DbOk, Hello, DisconnectTask, Continues, Active, Phase;
  }

  lemma CancelingIsNotParked(db: Db, me: AgentId, id: TaskId, window: nat, lostAt: Time)
    requires id in db.tasks && db.tasks[id].status == CANCELING
    ensures DisconnectTask(db, me, id, window, lostAt) == db
  {
  }

  lemma CancelingContinues(w: World, me: AgentId, capable: bool, now: Time)
    requires Cancels(w, me, capable, now)
    ensures Continues(w.db.tasks[w.agent.active.value.lease.taskId], w.agent.active.value.lease.taskId, Reported(w.agent), capable, now)
  {
  }

  /** What the agent does with CANCEL: nothing of the task runs any more, and the confirmation is its result. */
  lemma RecoversCanceling(w: World, v: World, me: AgentId, window: nat, x: Env)
    requires w.agent.active.Some? && v.agent == w.agent && v.starts == w.starts
    requires v.conn == Answered(Some(Decision(w.agent.active.value.lease.taskId, CANCEL(Phase(w.agent.active.value)))))
    requires x.tailsKept && !x.cleanupFailed && x.resultSent && (x.foundWorkspace && w.agent.active.value.workspace ==> x.released)
    ensures var t, next := w.agent.active.value, Next(v, me, window, RecoverMove(x));
            && next.db == v.db && next.conn == Online && next.starts == w.starts && !next.agent.listening && next.agent.active.Some?
            && next.agent.active.value == t.(preparation := false, execution := false, executionCancel := false, upload := false,
                                             workspace := t.workspace || x.foundWorkspace, pending := Some(PendingCanceled))
  {
    hide Phase;
  }

  /** A cancellation that was requested before or during the loss reaches the agent with the answer to its hello:
      whatever the task was doing ends, no command is started, and the result to send is its cancellation. */
  lemma CancellationReachesAgent(w: World, me: AgentId, window: nat, lostAt: Time, capable: bool, now: Time, x: Env)
    requires Inv(w) && Cancels(w, me, capable, now)
    requires x.tailsKept && !x.cleanupFailed && x.resultSent && (x.foundWorkspace && w.agent.active.value.workspace ==> x.released)
    ensures var t := w.agent.active.value;
            var v := RunMoves(w, me, window, Reconnecting(me, t.lease.taskId, lostAt, capable, now) + [RecoverMove(x)]);
            && v.db.tasks == w.db.tasks && v.conn == Online && v.starts == w.starts && !v.agent.listening && v.agent.active.Some?
            && v.agent.active.value == t.(preparation := false, execution := false, executionCancel := false, upload := false,
                                          workspace := t.workspace || x.foundWorkspace, pending := Some(PendingCanceled))
  {
    var moves := Reconnecting(me, w.agent.active.value.lease.taskId, lostAt, capable, now);
    CanceledIsAnswered(w, me, window, lostAt, capable, now);
    DropKeepsAgent(w);
    hide *;
    Reconnects(w, me, window, lostAt, capable, now);
    RecoversWith(w, me, window, moves, x);
    RecoversCanceling(w, RunMoves(w, me, window, moves), me, window, x);
  }
}
