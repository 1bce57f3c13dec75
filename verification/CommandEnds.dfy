/** Whose command an end belongs to. The end of a command carries no lease: it counts for the task that is active
    when it arrives. That is the right task exactly as long as no task is acknowledged away while its command runs
    and another is taken before the end arrives. */
module CommandEnds {
  import opened Options
  import opened TaskStatus
  import opened TaskRows
  import opened TaskClaim
  import opened TaskInvariants
  import opened TaskRuns
  import opened TaskEvolution
  import opened AgentTask
  import opened ExecutionOnce

  /** If the agent waits for the end of a command and has a task, that task's command was started. */
  ghost predicate EndsOwn(w: World) {
    w.agent.listening && w.agent.active.Some? ==> w.starts[w.agent.active.value.lease] == 1
  }

  /** The agent waits for the end of a command but has no task. */
  ghost predicate ListensIdly(w: World) {
    w.agent.listening && w.agent.active.None?
  }

  ghost predicate Takes(w: World, v: World) {
    w.agent.active.None? && v.agent.active.Some?
  }

  // --- One handler ---

  /** The same task, and no more listening than before. */
  ghost predicate Within(a: Machine, b: Machine) {
    && a.active.Some? && b.active.Some? && b.active.value.lease == a.active.value.lease
    && (b.listening ==> a.listening)
  }

  /** A handler of the active task keeps it, and only a start makes the agent listen; or it drops both. */
  ghost predicate Hears(a: Machine, h: Handled) {
    if h.agent.active.Some? then Within(a, h.agent.(listening := h.agent.listening && !h.started)) else !h.agent.listening
  }

  lemma FailHears(a: Machine, b: Machine, x: Env)
    requires Within(a, b)
    ensures Hears(a, FailActive(b, x))
  {
  }

  lemma RunningHears(a: Machine, b: Machine, x: Env)
    requires Within(a, b)
    ensures Hears(a, Handled(Running(b), true, true)) && Hears(a, Handled(FailActive(Running(b), x).agent, x.failureSent, true))
  {
  }

  lemma StartHears(a: Machine, b: Machine, x: Env)
    requires Within(a, b)
    ensures Hears(a, StartCommand(b, x))
  {
    hide Hears, FailActive, Running;
    FailHears(a, b, x);
    RunningHears(a, b, x);
  }

  lemma MaterializeHears(a: Machine, b: Machine, x: Env)
    requires Within(a, b)
    ensures Hears(a, MaterializeAndStart(b, x))
  {
    hide StartCommand, FailActive, Hears;
    var ready := With(b, b.active.value.(inputFilesDownloaded := true));
    FailHears(a, b, x);
    FailHears(a, ready, x);
    StartHears(a, With(ready, ready.active.value.(configWritten := true)), x);
  }

  lemma PrepareHears(a: Machine, b: Machine, x: Env)
    requires Within(a, b)
    ensures Hears(a, PrepareAndStart(b, x))
  {
    var prepared := b.active.value.(sourceCommit := true, workspace := true);
    assert Within(a, With(b, prepared)) && Within(a, With(b, prepared.(artifactCleaned := true)));
    hide MaterializeAndStart, FailActive, Hears, Within, With;
    SameHears(a, With(b, prepared));
    FailHears(a, With(b, prepared), x);
    MaterializeHears(a, With(b, prepared.(artifactCleaned := true)), x);
  }

  lemma SameHears(a: Machine, b: Machine)
    requires Within(a, b)
    ensures Hears(a, Handled(b, false, false)) && Hears(a, Handled(b, true, false))
  {
  }

  lemma PreparationHears(a: Machine, lease: Lease, result: Preparation, x: Env)
    requires a.active.Some?
    ensures Hears(a, HandlePreparation(a, lease, result, x))
  {
    hide PrepareAndStart, FailActive, Unpreparing;
    var t := a.active.value;
    UnpreparingShape(t, x.foundWorkspace);
    UnpreparingShape(t, false);
    FailHears(a, With(a, Unpreparing(t, x.foundWorkspace)), x);
    FailHears(a, With(a, Unpreparing(t, false)), x);
    PrepareHears(a, With(a, Unpreparing(t, false)), x);
  }

  lemma ResumeHears(a: Machine, b: Machine, uploading: bool, x: Env)
    requires Within(a, b)
    ensures Hears(a, ResumeActive(b, uploading, x))
  {
    hide StartCommand, MaterializeAndStart, FailActive;
    StartHears(a, b, x);
    MaterializeHears(a, b, x);
    FailHears(a, b, x);
    FailHears(a, With(b, b.active.value.(manifest := true)), x);
  }

  lemma CancelHears(a: Machine, lease: Lease, x: Env)
    requires a.active.Some?
    ensures Hears(a, HandleCancel(a, lease, x)) && Within(a, HandleCancel(a, lease, x).agent)
  {
  }

  lemma RecoveryHears(a: Machine, decision: Option<Decision>, x: Env)
    requires a.active.Some?
    ensures Hears(a, HandleRecovery(a, decision, x))
  {
    hide ResumeActive, HandleCancel;
    var canceled := HandleCancel(a, a.active.value.lease, x);
    CancelHears(a, a.active.value.lease, x);
    ResumeHears(a, canceled.agent, false, x);
    ResumeHears(a, a, true, x);
    ResumeHears(a, a, false, x);
  }

  lemma SendHears(a: Machine, b: Machine, x: Env)
    requires Within(a, b)
    ensures Hears(a, SendManifest(b, x))
  {
  }

  lemma FinishedHears(a: Machine, succeeded: bool, x: Env)
    requires a.active.Some?
    ensures Hears(a, HandleFinished(a, succeeded, x))
  {
    hide FailActive, SendManifest;
    var t := a.active.value.(execution := false, commandCompleted := true);
    var done := a.(listening := false, active := Some(t));
    FailHears(a, done, x);
    SendHears(a, With(done, t.(manifest := true)), x);
  }

  lemma ManifestAckHears(a: Machine, id: TaskId, accepted: bool, x: Env)
    requires a.active.Some?
    ensures Hears(a, HandleManifestAck(a, id, accepted, x))
  {
  }

  lemma UploadHears(a: Machine, uploaded: bool, x: Env)
    requires a.active.Some?
    ensures Hears(a, HandleUploadResult(a, uploaded, x))
  {
  }

  // --- One move ---

  /** The only move after which the agent listens without a task: it had one, whose result was acknowledged. */
  ghost predicate FreesListening(w: World, v: World, m: Move) {
    m.AckMove? && w.agent.listening && w.agent.active.Some? && v.agent.active.None?
  }

  /** What one move does to the listening of the agent. */
  ghost predicate Follows(w: World, v: World, m: Move) {
    && (w.agent.active.Some? && EndsOwn(w) ==> EndsOwn(v))
    && (Takes(w, v) ==> m.AssignmentMove? && v.agent.listening == w.agent.listening && v.starts[v.agent.active.value.lease] == 0)
    && (ListensIdly(v) ==> ListensIdly(w) || FreesListening(w, v, m))
  }

  lemma HandleFollows(w: World, h: Handled, m: Move)
    requires w.agent.active.Some? && Hears(w.agent, h) && Inv(Handle(w, h))
    ensures Follows(w, Handle(w, h), m)
  {
    hide DbOk, TokensIssued, AgentFine, CanceledAreDead, AcksAreTrue, AnswerFits;
  }

  /** A move that leaves the agent's task and start counts alone. */
  lemma SameFollows(w: World, v: World, m: Move)
    requires v.agent == w.agent && v.starts == w.starts
    ensures Follows(w, v, m)
  {
  }

  lemma IdleFollows(w: World, v: World, m: Move)
    requires w.agent.active.None? && v.agent.active.None? && (v.agent.listening ==> w.agent.listening)
    ensures Follows(w, v, m)
  {
  }

  /** The world a handler's result is counted in may differ from w in everything but the agent and its starts. */
  lemma HandledFollows(w: World, u: World, h: Handled, m: Move)
    requires u.agent == w.agent && u.starts == w.starts
    requires w.agent.active.Some? ==> Hears(w.agent, h) && Inv(Handle(u, h))
    requires w.agent.active.None? ==> h.agent.active.None? && (h.agent.listening ==> w.agent.listening)
    ensures Follows(w, Handle(u, h), m)
  {
    if w.agent.active.Some? {
      HandleFollows(u, h, m);
      hide Inv, Hears, Handle;
    } else {
      IdleFollows(w, Handle(u, h), m);
    }
  }

  lemma IdleHandlers(a: Machine, m: Move)
    requires a.active.None?
    ensures match m
            case RecoverMove(_) => true
            case CancelMove(lease, x) => HandleCancel(a, lease, x).agent == a
            case PreparationMove(lease, result, x) => HandlePreparation(a, lease, result, x).agent == a
            case FinishedMove(succeeded, x) => HandleFinished(a, succeeded, x).agent == a.(listening := false)
            case ManifestAckMove(id, accepted, x) => HandleManifestAck(a, id, accepted, x).agent == a
            case UploadMove(uploaded, x) => HandleUploadResult(a, uploaded, x).agent == a
            case _ => true
  {
  }

  lemma AssignmentFollows(w: World, me: AgentId, window: nat, lease: Lease, x: Env)
    requires Inv(w)
    ensures Follows(w, Next(w, me, window, AssignmentMove(lease, x)), AssignmentMove(lease, x))
  {
    hide DbOk, TokensIssued, AgentFine, CanceledAreDead, AcksAreTrue, AnswerFits;
    if w.conn == Online && lease in w.assignments {
      assert w.starts[lease] == 0;
    }
  }

  lemma AckFollows(w: World, me: AgentId, window: nat, ack: Ack)
    requires Inv(w)
    ensures Follows(w, Next(w, me, window, AckMove(ack)), AckMove(ack))
  {
    hide Inv;
  }

  lemma RecoverMoves(w: World, me: AgentId, window: nat, x: Env) returns (u: World)
    requires w.conn.Answered?
    ensures Next(w, me, window, RecoverMove(x)) == Handle(u, HandleRecovery(w.agent, w.conn.decision, x))
    ensures u.agent == w.agent && u.starts == w.starts
    ensures w.agent.active.None? ==> HandleRecovery(w.agent, w.conn.decision, x).agent == w.agent
  {
    u := w.(conn := Online, canceled :=
              if w.agent.active.Some? && w.conn.decision.Some? && w.conn.decision.value.action.CANCEL?
              then w.canceled + {w.agent.active.value.lease} else w.canceled);
    hide Handle, ResumeActive, HandleCancel;
  }

  lemma RecoverFollows(w: World, me: AgentId, window: nat, x: Env)
    requires Inv(w) && w.conn.Answered?
    ensures Follows(w, Next(w, me, window, RecoverMove(x)), RecoverMove(x))
  {
    hide *;
    RecoverKeeps(w, me, window, x);
    var u := RecoverMoves(w, me, window, x);
    if w.agent.active.Some? {
      RecoveryHears(w.agent, w.conn.decision, x);
    }
    HandledFollows(w, u, HandleRecovery(w.agent, w.conn.decision, x), RecoverMove(x));
  }

  /** What the handlers of an agent that is online are handed, and where their results are counted. */
  lemma HandlerMoves(w: World, me: AgentId, window: nat, m: Move)
    requires w.conn == Online
    ensures match m
            case CancelMove(lease, x) =>
              Next(w, me, window, m) == if lease in w.cancels then Handle(w.(canceled := w.canceled + {lease}), HandleCancel(w.agent, lease, x)) else w
            case PreparationMove(lease, result, x) => Next(w, me, window, m) == Handle(w, HandlePreparation(w.agent, lease, result, x))
            case FinishedMove(succeeded, x) => Next(w, me, window, m) == Handle(w, HandleFinished(w.agent, succeeded, x))
            case ManifestAckMove(id, accepted, x) => Next(w, me, window, m) == Handle(w, HandleManifestAck(w.agent, id, accepted, x))
            case UploadMove(uploaded, x) => Next(w, me, window, m) == Handle(w, HandleUploadResult(w.agent, uploaded, x))
            case _ => true
  {
  }

  lemma HandlerFollows(w: World, me: AgentId, window: nat, m: Move)
    requires Inv(w) && w.conn == Online && w.agent.active.Some?
    requires m.CancelMove? || m.PreparationMove? || m.FinishedMove? || m.ManifestAckMove? || m.UploadMove?
    ensures Follows(w, Next(w, me, window, m), m)
  {
    MoveKeeps(w, me, window, m);
    HandlerMoves(w, me, window, m);
    hide *;
    var a := w.agent;
    match m
    case CancelMove(lease, x) =>
      SameFollows(w, w, m);
      if lease in w.cancels {
        CancelHears(a, lease, x);
        HandledFollows(w, w.(canceled := w.canceled + {lease}), HandleCancel(a, lease, x), m);
      }
    case PreparationMove(lease, result, x) =>
      PreparationHears(a, lease, result, x);
      HandledFollows(w, w, HandlePreparation(a, lease, result, x), m);
    case FinishedMove(succeeded, x) =>
      FinishedHears(a, succeeded, x);
      HandledFollows(w, w, HandleFinished(a, succeeded, x), m);
    case ManifestAckMove(id, accepted, x) =>
      ManifestAckHears(a, id, accepted, x);
      HandledFollows(w, w, HandleManifestAck(a, id, accepted, x), m);
    case UploadMove(uploaded, x) =>
      UploadHears(a, uploaded, x);
      HandledFollows(w, w, HandleUploadResult(a, uploaded, x), m);
  }

  lemma IdleHandlerFollows(w: World, me: AgentId, window: nat, m: Move)
    requires Inv(w) && w.conn == Online && w.agent.active.None?
    requires m.CancelMove? || m.PreparationMove? || m.FinishedMove? || m.ManifestAckMove? || m.UploadMove?
    ensures Follows(w, Next(w, me, window, m), m)
  {
    HandlerMoves(w, me, window, m);
    IdleHandlers(w.agent, m);
    hide *;
    var a := w.agent;
    match m
    case CancelMove(lease, x) =>
      SameFollows(w, w, m);
      if lease in w.cancels {
        HandledFollows(w, w.(canceled := w.canceled + {lease}), HandleCancel(a, lease, x), m);
      }
    case PreparationMove(lease, result, x) => HandledFollows(w, w, HandlePreparation(a, lease, result, x), m);
    case FinishedMove(succeeded, x) => HandledFollows(w, w, HandleFinished(a, succeeded, x), m);
    case ManifestAckMove(id, accepted, x) => HandledFollows(w, w, HandleManifestAck(a, id, accepted, x), m);
    case UploadMove(uploaded, x) => HandledFollows(w, w, HandleUploadResult(a, uploaded, x), m);
  }

  lemma RestartFollows(w: World, me: AgentId, window: nat)
    ensures Follows(w, Next(w, me, window, RestartMove), RestartMove)
  {
  }

  lemma MoveFollows(w: World, me: AgentId, window: nat, m: Move)
    requires Inv(w)
    ensures Follows(w, Next(w, me, window, m), m)
  {
    hide Inv, Follows, Handle, Step, HandleRecovery, Hello;
    match m
    case AssignmentMove(lease, x) => AssignmentFollows(w, me, window, lease, x);
    case AckMove(ack) => AckFollows(w, me, window, ack);
    case RestartMove => RestartFollows(w, me, window);
    case RecoverMove(x) =>
      SameFollows(w, w, m);
      if w.conn.Answered? {
        RecoverFollows(w, me, window, x);
      }
    case ServerMove(e, sent) => SameFollows(w, Next(w, me, window, m), m);
    case ConnectMove => SameFollows(w, Next(w, me, window, m), m);
    case HelloMove(capable, now) => SameFollows(w, Next(w, me, window, m), m);
    case DropMove => SameFollows(w, Next(w, me, window, m), m);
    case _ =>
      SameFollows(w, w, m);
      if w.conn == Online {
        if w.agent.active.Some? {
          HandlerFollows(w, me, window, m);
        } else {
          IdleHandlerFollows(w, me, window, m);
        }
      }
  }

  // --- Runs ---

  /** The world after the first n moves. */
  ghost function At(w: World, me: AgentId, window: nat, moves: seq<Move>, n: nat): World
    requires n <= |moves|
  {
    RunMoves(w, me, window, moves[..n])
  }

  lemma {:induction false} RunMovesSnoc(w: World, me: AgentId, window: nat, moves: seq<Move>, last: Move)
    ensures RunMoves(w, me, window, moves + [last]) == Next(RunMoves(w, me, window, moves), me, window, last)
    decreases |moves|
  {
    hide Next;
    if moves == [] {
      assert moves + [last] == [last] && [last][1..] == [];
    } else {
      assert (moves + [last])[1..] == moves[1..] + [last];
      RunMovesSnoc(Next(w, me, window, moves[0]), me, window, moves[1..], last);
    }
  }

  lemma AtNext(w: World, me: AgentId, window: nat, moves: seq<Move>, n: nat)
    requires n < |moves| && Inv(w)
    ensures At(w, me, window, moves, n + 1) == Next(At(w, me, window, moves, n), me, window, moves[n])
    ensures Inv(At(w, me, window, moves, n)) && Follows(At(w, me, window, moves, n), At(w, me, window, moves, n + 1), moves[n])
  {
    hide Next, Inv, Follows;
    assert moves[..n + 1] == moves[..n] + [moves[n]];
    RunMovesSnoc(w, me, window, moves[..n], moves[n]);
    RunMovesKeeps(w, me, window, moves[..n]);
    MoveFollows(At(w, me, window, moves, n), me, window, moves[n]);
  }

  /** Move j acknowledges the active task's result away while the agent listens. */
  ghost predicate FreesAt(w: World, me: AgentId, window: nat, moves: seq<Move>, j: nat) {
    j < |moves| && FreesListening(At(w, me, window, moves, j), At(w, me, window, moves, j + 1), moves[j])
  }

  /** Move k takes the next task while the agent still listens. */
  ghost predicate TakesAt(w: World, me: AgentId, window: nat, moves: seq<Move>, k: nat) {
    k < |moves| && ListensIdly(At(w, me, window, moves, k)) && Takes(At(w, me, window, moves, k), At(w, me, window, moves, k + 1))
  }

  ghost predicate ListensBetween(w: World, me: AgentId, window: nat, moves: seq<Move>, j: nat, k: nat) {
    k <= |moves| && forall i :: j < i <= k ==> ListensIdly(At(w, me, window, moves, i))
  }

  lemma ListeningStep(w: World, me: AgentId, window: nat, moves: seq<Move>, n: nat)
    requires n < |moves| && Inv(w) && ListensIdly(At(w, me, window, moves, n + 1))
    ensures ListensIdly(At(w, me, window, moves, n)) || FreesAt(w, me, window, moves, n)
  {
    AtNext(w, me, window, moves, n);
    hide Inv, Next, At, ListensIdly;
  }

  lemma {:induction false} ListeningComesFromAck(w: World, me: AgentId, window: nat, moves: seq<Move>, k: nat) returns (j: nat)
    requires Inv(w) && !ListensIdly(w) && k <= |moves| && ListensIdly(At(w, me, window, moves, k))
    ensures j < k && FreesAt(w, me, window, moves, j) && ListensBetween(w, me, window, moves, j, k)
    decreases k
  {
    assert k > 0 by {
      assert moves[..0] == [];
    }
    hide Inv, Next, ListensIdly, At, FreesAt;
    ListeningStep(w, me, window, moves, k - 1);
    if FreesAt(w, me, window, moves, k - 1) {
      j := k - 1;
    } else {
      j := ListeningComesFromAck(w, me, window, moves, k - 1);
    }
  }

  lemma OwnStep(w: World, me: AgentId, window: nat, moves: seq<Move>, n: nat)
    requires n < |moves| && Inv(w) && EndsOwn(At(w, me, window, moves, n)) && !TakesAt(w, me, window, moves, n)
    ensures EndsOwn(At(w, me, window, moves, n + 1))
  {
    AtNext(w, me, window, moves, n);
    hide Inv, Next, At;
  }

  lemma {:induction false} OwnUntilTaken(w: World, me: AgentId, window: nat, moves: seq<Move>, n: nat)
    requires Inv(w) && EndsOwn(w) && n <= |moves| && forall k :: 0 <= k < n ==> !TakesAt(w, me, window, moves, k)
    ensures EndsOwn(At(w, me, window, moves, n))
    decreases n
  {
    hide Inv, Next, EndsOwn, TakesAt;
    if n == 0 {
      assert moves[..0] == [];
    } else {
      OwnUntilTaken(w, me, window, moves, n - 1);
      OwnStep(w, me, window, moves, n - 1);
    }
  }

  lemma TakenIsNotOwn(w: World, me: AgentId, window: nat, moves: seq<Move>, k: nat)
    requires Inv(w) && TakesAt(w, me, window, moves, k)
    ensures !EndsOwn(At(w, me, window, moves, k + 1))
  {
    AtNext(w, me, window, moves, k);
    hide Inv, Next, At, FreesListening;
  }

  ghost predicate AlwaysOwn(w: World, me: AgentId, window: nat, moves: seq<Move>) {
    forall n :: 0 <= n <= |moves| ==> EndsOwn(At(w, me, window, moves, n))
  }

  ghost predicate FreesThenTakes(w: World, me: AgentId, window: nat, moves: seq<Move>, j: nat, k: nat) {
    j < k && FreesAt(w, me, window, moves, j) && ListensBetween(w, me, window, moves, j, k) && TakesAt(w, me, window, moves, k)
  }

  lemma StartIsOwn()
    ensures Inv(START) && EndsOwn(START) && !ListensIdly(START)
  {
    StartIsFine();
  }

  /** Over every run: an end always belongs to the active task if and only if no task is acknowledged away while its
      command runs and another one taken before that command's end. */
  lemma EndsReachTheirTask(w: World, me: AgentId, window: nat, moves: seq<Move>)
    requires Inv(w) && EndsOwn(w) && !ListensIdly(w)
    ensures AlwaysOwn(w, me, window, moves) <==> !exists j, k :: FreesThenTakes(w, me, window, moves, j, k)
  {
    hide Inv, Next, RunMoves, EndsOwn, FreesAt, ListensBetween;
    if exists k: nat :: TakesAt(w, me, window, moves, k) {
      var k: nat :| TakesAt(w, me, window, moves, k);
      var j := ListeningComesFromAck(w, me, window, moves, k);
      assert FreesThenTakes(w, me, window, moves, j, k);
      TakenIsNotOwn(w, me, window, moves, k);
    } else {
      forall n | 0 <= n <= |moves| ensures EndsOwn(At(w, me, window, moves, n)) {
        OwnUntilTaken(w, me, window, moves, n);
      }
    }
  }

  lemma EndsReachTheirTaskFromStart(me: AgentId, window: nat, moves: seq<Move>)
    ensures AlwaysOwn(START, me, window, moves) <==> !exists j, k :: FreesThenTakes(START, me, window, moves, j, k)
  {
    StartIsOwn();
    EndsReachTheirTask(START, me, window, moves);
    hide Inv, AlwaysOwn, FreesThenTakes;
  }

  // --- Runs on which an end is charged to the wrong task ---

  const CALM := Env(true, true, true, true, true, true, true, true, true, true, true, true, true, true, true, false, false)

  /** The agent is registered, enabled, and connects without a task. */
  function Joining(me: AgentId, now: Time): seq<Move> {
    [ServerMove(AgentEvent(me), false), ServerMove(EnableEvent(me, true, true), false), ConnectMove, HelloMove(true, now), RecoverMove(CALM)]
  }

  function Granting(token: Token, now: Time): ClaimContext {
    ClaimContext({}, {}, true, token, now + 1, now)
  }

  /** A new task is created, claimed and assigned. */
  function Assigning(me: AgentId, id: TaskId, token: Token, now: Time): seq<Move> {
    [ServerMove(CreateEvent(id, me, false, true, now), false), ServerMove(ClaimEvent(me, Some(Uuid(id)), Granting(token, now), true), true),
     AssignmentMove(Lease(id, token), CALM)]
  }

  lemma {:induction false} RunMovesConcat(w: World, me: AgentId, window: nat, a: seq<Move>, b: seq<Move>)
    ensures RunMoves(w, me, window, a + b) == RunMoves(RunMoves(w, me, window, a), me, window, b)
    decreases |a|
  {
    hide Next;
    if a == [] {
      assert a + b == b;
    } else {
      assert (a + b)[1..] == a[1..] + b;
      RunMovesConcat(Next(w, me, window, a[0]), me, window, a[1..], b);
    }
  }

  /** The worlds after each of the moves. */
  ghost predicate Trace(w: World, me: AgentId, window: nat, moves: seq<Move>, worlds: seq<World>) {
    && |worlds| == |moves| && (moves != [] ==> worlds[0] == Next(w, me, window, moves[0]))
    && forall i :: 0 < i < |moves| ==> worlds[i] == Next(worlds[i - 1], me, window, moves[i])
  }

  lemma {:induction false} RunsThrough(w: World, me: AgentId, window: nat, moves: seq<Move>, worlds: seq<World>)
    requires Trace(w, me, window, moves, worlds) && moves != []
    ensures RunMoves(w, me, window, moves) == worlds[|worlds| - 1]
    decreases |moves|
  {
    hide Next;
    if |moves| > 1 {
      assert worlds[1] == Next(worlds[0], me, window, moves[1]);
      RunsThrough(worlds[0], me, window, moves[1..], worlds[1..]);
    } else {
      assert moves[1..] == [];
      assert RunMoves(worlds[0], me, window, []) == worlds[0];
    }
  }

  /** An agent without a task that is connected, and whose row is online and points to nothing. */
  ghost predicate Ready(w: World, me: AgentId) {
    w.agent.active.None? && w.conn == Online && Up(w.db, me) && w.db.agents[me].activeTaskId.None?
  }

  /** The agent, what it started, and which tasks and tokens there are. */
  ghost predicate SameAgent(w: World, v: World) {
    v.agent == w.agent && v.starts == w.starts && v.issued == w.issued && v.db.tasks.Keys == w.db.tasks.Keys
  }

  lemma OrphanShape(db: Db, me: AgentId, id: TaskId, now: Time)
    ensures var after := FailOrphan(db, me, id, now);
            && after.tasks.Keys == db.tasks.Keys && after.agents.Keys == db.agents.Keys
            && (me in db.agents ==> after.agents[me].enabled == db.agents[me].enabled)
  {
  }

  lemma HelloClearsPointer(db: Db, me: AgentId, now: Time)
    requires me in db.agents && db.agents[me].enabled
    ensures var hello := Hello(db, me, None, true, now);
            hello.decision.None? && Up(hello.db, me) && hello.db.agents[me].activeTaskId.None? && hello.db.tasks.Keys == db.tasks.Keys
  {
    var active := db.agents[me].activeTaskId;
    if active.Some? {
      OrphanShape(db, me, active.value, now);
    }
    hide FailOrphan, Resumable;
  }

  lemma RegistrationMoves(w: World, me: AgentId, window: nat) returns (added: World, enabled: World, connected: World)
    ensures added == Next(w, me, window, ServerMove(AgentEvent(me), false))
    ensures enabled == Next(added, me, window, ServerMove(EnableEvent(me, true, true), false))
    ensures connected == Next(enabled, me, window, ConnectMove)
    ensures SameAgent(w, connected) && connected.conn == HelloSent && me in connected.db.agents && connected.db.agents[me].enabled
  {
    added := Next(w, me, window, ServerMove(AgentEvent(me), false));
    enabled := Next(added, me, window, ServerMove(EnableEvent(me, true, true), false));
    connected := Next(enabled, me, window, ConnectMove);
  }

  lemma HandshakeMoves(w: World, me: AgentId, window: nat, now: Time) returns (answered: World, recovered: World)
    requires w.agent.active.None? && w.conn == HelloSent && me in w.db.agents && w.db.agents[me].enabled
    ensures answered == Next(w, me, window, HelloMove(true, now))
    ensures recovered == Next(answered, me, window, RecoverMove(CALM))
    ensures SameAgent(w, recovered) && Ready(recovered, me)
  {
    HelloClearsPointer(w.db, me, now);
    hide Hello;
    answered := Next(w, me, window, HelloMove(true, now));
    recovered := Next(answered, me, window, RecoverMove(CALM));
  }

  lemma Joined(w: World, me: AgentId, window: nat, now: Time)
    requires w.agent.active.None?
    ensures var v := RunMoves(w, me, window, Joining(me, now));
            Ready(v, me) && SameAgent(w, v)
  {
    var added, enabled, connected := RegistrationMoves(w, me, window);
    var answered, recovered := HandshakeMoves(connected, me, window, now);
    hide Next, Ready, RunMoves;
    RunsThrough(w, me, window, Joining(me, now), [added, enabled, connected, answered, recovered]);
  }

  /** The world after a task was assigned under a fresh lease. */
  ghost predicate Given(w: World, v: World, me: AgentId, lease: Lease, now: Time) {
    && v.agent == w.agent.(active := Some(NewActive(lease).(preparation := true)))
    && v.conn == Online && v.starts == w.starts && v.issued == w.issued + {lease.token}
    && v.db.tasks.Keys == w.db.tasks.Keys + {lease.taskId}
    && Up(v.db, me) && LeaseHeld(v.db, me, lease.taskId, lease.token, now) && v.db.tasks[lease.taskId].status == DISPATCHED
    && v.db.tasks[lease.taskId].sourceCommit.None?
  }

  lemma CreatesQueued(db: Db, id: TaskId, me: AgentId, now: Time)
    requires id !in db.tasks && Up(db, me)
    ensures CreateTask(db, id, me, false, true, now).db == Put(db, id, NewTask(me, false, true, now))
    ensures NewTask(me, false, true, now).status == QUEUED && NewTask(me, false, true, now).sourceCommit.None?
  {
  }

  lemma ClaimsOnly(db: Db, me: AgentId, id: TaskId, token: Token, now: Time)
    requires Up(db, me) && db.agents[me].activeTaskId.None? && Known(db, me, id)
    requires db.tasks[id].status == QUEUED && !db.tasks[id].interactive
    ensures Claim(db, me, Some(Uuid(id)), Granting(token, now), true)
            == ClaimTx(Point(Put(db, id, Dispatched(db.tasks[id], Granting(token, now))), me, Some(id)), Assigned(id), [])
  {
    assert First(db, me, Some(id), id);
    ClaimTurn(db, me, Some(id), Granting(token, now), MAX_CLAIM_VALIDATION_SKIPS, id);
    hide ClaimLoop, First;
  }

  lemma CreatingMove(w: World, me: AgentId, window: nat, id: TaskId, now: Time)
    requires Ready(w, me) && id !in w.db.tasks
    ensures Next(w, me, window, ServerMove(CreateEvent(id, me, false, true, now), false))
            == w.(db := Put(w.db, id, NewTask(me, false, true, now)))
  {
    CreatesQueued(w.db, id, me, now);
    hide CreateTask, NewTask;
  }

  lemma ClaimingMove(w: World, me: AgentId, window: nat, id: TaskId, token: Token, now: Time)
    requires Ready(w, me) && Known(w.db, me, id) && w.db.tasks[id].status == QUEUED && !w.db.tasks[id].interactive
    requires token !in w.issued
    ensures Next(w, me, window, ServerMove(ClaimEvent(me, Some(Uuid(id)), Granting(token, now), true), true))
            == w.(db := Point(Put(w.db, id, Dispatched(w.db.tasks[id], Granting(token, now))), me, Some(id)),
                  issued := w.issued + {token}, assignments := w.assignments + {Lease(id, token)})
  {
    ClaimsOnly(w.db, me, id, token, now);
    hide Claim, Dispatched, Point, Put;
  }

  lemma TakingMove(w: World, me: AgentId, window: nat, lease: Lease)
    requires w.agent.active.None? && w.conn == Online && lease in w.assignments
    ensures var v := Next(w, me, window, AssignmentMove(lease, CALM));
            && v.agent == w.agent.(active := Some(NewActive(lease).(preparation := true)))
            && v.conn == Online && v.starts == w.starts && v.issued == w.issued && v.db == w.db
  {
  }

  lemma LeaseIsGranted(db: Db, me: AgentId, id: TaskId, token: Token, now: Time)
    requires Up(db, me) && id in db.tasks && db.tasks[id].agentId == me
    ensures var next := Point(Put(db, id, Dispatched(db.tasks[id], Granting(token, now))), me, Some(id));
            && Up(next, me) && LeaseHeld(next, me, id, token, now) && next.tasks[id].status == DISPATCHED
            && next.tasks.Keys == db.tasks.Keys && next.tasks[id].sourceCommit == db.tasks[id].sourceCommit
  {
  }

  lemma AssigningMoves(w: World, me: AgentId, window: nat, id: TaskId, token: Token, now: Time)
    requires Ready(w, me) && id !in w.db.tasks && token !in w.issued
    ensures Given(w, RunMoves(w, me, window, Assigning(me, id, token, now)), me, Lease(id, token), now)
  {
    var row := NewTask(me, false, true, now);
    CreatingMove(w, me, window, id, now);
    var created := w.(db := Put(w.db, id, row));
    CreatesQueued(w.db, id, me, now);
    ClaimingMove(created, me, window, id, token, now);
    LeaseIsGranted(created.db, me, id, token, now);
    var claimed := Next(created, me, window, ServerMove(ClaimEvent(me, Some(Uuid(id)), Granting(token, now), true), true));
    hide Next, RunMoves, Up, LeaseHeld, Dispatched, Point;
    TakingMove(claimed, me, window, Lease(id, token));
    var taken := Next(claimed, me, window, AssignmentMove(Lease(id, token), CALM));
    RunsThrough(w, me, window, Assigning(me, id, token, now), [created, claimed, taken]);
  }

  /** An agent without a task can always be given one under a fresh lease, whatever it still listens to. */
  lemma Gives(w: World, me: AgentId, window: nat, id: TaskId, token: Token, now: Time)
    requires w.agent.active.None? && id !in w.db.tasks && token !in w.issued
    ensures Given(w, RunMoves(w, me, window, Joining(me, now) + Assigning(me, id, token, now)), me, Lease(id, token), now)
  {
    Joined(w, me, window, now);
    var v := RunMoves(w, me, window, Joining(me, now));
    AssigningMoves(v, me, window, id, token, now);
    RunMovesConcat(w, me, window, Joining(me, now), Assigning(me, id, token, now));
    hide RunMoves, Ready;
  }

  lemma NeverStarted(w: World, lease: Lease)
    requires Inv(w) && lease.token !in w.issued
    ensures w.starts[lease] == 0
  {
    hide DbOk, AgentFine, CanceledAreDead, AcksAreTrue, AnswerFits;
  }

  /** If the agent listens without a task, a task it is given next is marked completed, and reported as failed, by the
      end of the earlier command. */
  lemma LateEndHits(w: World, me: AgentId, window: nat, id: TaskId, token: Token, now: Time, x: Env)
    requires Inv(w) && ListensIdly(w) && id !in w.db.tasks && token !in w.issued && x.tailsKept
    ensures var v := RunMoves(w, me, window, Joining(me, now) + Assigning(me, id, token, now) + [FinishedMove(false, x)]);
            && v.starts == w.starts && v.starts[Lease(id, token)] == 0
            && v.agent.active.Some? && v.agent.active.value.lease == Lease(id, token) && v.agent.active.value.commandCompleted
            && v.agent.active.value.pending == Some(PendingFailed)
  {
    var giving := Joining(me, now) + Assigning(me, id, token, now);
    NeverStarted(w, Lease(id, token));
    Gives(w, me, window, id, token, now);
    RunMovesSnoc(w, me, window, giving, FinishedMove(false, x));
    var v := RunMoves(w, me, window, giving);
    hide RunMoves, Inv, LeaseHeld, Up;
  }

  lemma {:induction false} FreshNat(s: set<nat>) returns (n: nat)
    ensures forall m :: m in s ==> m < n
    decreases |s|
  {
    if s == {} {
      n := 0;
    } else {
      var m :| m in s;
      var rest := s - {m};
      var k := FreshNat(rest);
      n := if k <= m then m + 1 else k;
      assert forall i :: i in s ==> i == m || i in rest;
    }
  }

  /** No task is acknowledged away while its command runs. */
  ghost predicate FreesNone(w: World, me: AgentId, window: nat, moves: seq<Move>) {
    forall j :: 0 <= j < |moves| ==> !FreesAt(w, me, window, moves, j)
  }

  lemma NoAckFreesNone(w: World, me: AgentId, window: nat, moves: seq<Move>)
    requires forall j :: 0 <= j < |moves| ==> !moves[j].AckMove?
    ensures FreesNone(w, me, window, moves)
  {
    hide At;
  }

  lemma GivingBreaks(v: World, me: AgentId, window: nat) returns (more: seq<Move>)
    requires Inv(v) && ListensIdly(v)
    ensures FreesNone(v, me, window, more) && !AlwaysOwn(v, me, window, more)
  {
    var id := FreshNat(v.db.tasks.Keys);
    var token := FreshNat(v.issued);
    more := Joining(me, 0) + Assigning(me, id, token, 0);
    assert forall j :: 0 <= j < |more| ==> !more[j].AckMove?;
    NoAckFreesNone(v, me, window, more);
    NeverStarted(v, Lease(id, token));
    Gives(v, me, window, id, token, 0);
    hide Inv, RunMoves, FreesNone, Joining, Assigning;
    assert more[..|more|] == more;
    assert !EndsOwn(At(v, me, window, more, |more|));
  }

  /** Before a result acknowledgement that makes the agent forget its task, whether it listens decides: if it does not,
      every end reaches its task until some task is acknowledged away while listening; if it does, not. */
  lemma AckGuardIsExact(w: World, me: AgentId, window: nat, ack: Ack)
    requires Inv(w) && w.agent.active.Some? && Next(w, me, window, AckMove(ack)).agent.active.None?
    ensures var v := Next(w, me, window, AckMove(ack));
            w.agent.listening <==> exists more :: FreesNone(v, me, window, more) && !AlwaysOwn(v, me, window, more)
  {
    var v := Next(w, me, window, AckMove(ack));
    AckMoveFrees(w, me, window, ack);
    MoveKeeps(w, me, window, AckMove(ack));
    hide Inv, Next, AlwaysOwn, FreesNone;
    if w.agent.listening {
      var more := GivingBreaks(v, me, window);
    } else {
      forall more | FreesNone(v, me, window, more) ensures AlwaysOwn(v, me, window, more) {
        OwnWithoutFrees(v, me, window, more);
      }
    }
  }

  lemma AckMoveFrees(w: World, me: AgentId, window: nat, ack: Ack)
    requires Inv(w) && w.agent.active.Some? && Next(w, me, window, AckMove(ack)).agent.active.None?
    ensures Next(w, me, window, AckMove(ack)).agent.listening == w.agent.listening
  {
    hide Inv;
  }

  lemma OwnWithoutFrees(v: World, me: AgentId, window: nat, more: seq<Move>)
    requires Inv(v) && EndsOwn(v) && !ListensIdly(v) && FreesNone(v, me, window, more)
    ensures AlwaysOwn(v, me, window, more)
  {
    EndsReachTheirTask(v, me, window, more);
    hide Inv, AlwaysOwn, FreesAt, ListensBetween, TakesAt;
  }

  // --- A concrete run ---

  /** The command starts but its start cannot be reported: the task fails, and the failure is acknowledged. */
  function Failing(me: AgentId, lease: Lease, now: Time): seq<Move> {
    [ServerMove(AcceptEvent(me, Uuid(lease.taskId), lease.token, true, now), false),
     PreparationMove(lease, Prepared, CALM.(runningSent := false)),
     ServerMove(FailedEvent(me, Uuid(lease.taskId), lease.token, None, true, now), true),
     AckMove(Ack(lease.taskId, FAILED))]
  }

  lemma AcceptingMove(w: World, me: AgentId, window: nat, lease: Lease, now: Time)
    requires Up(w.db, me) && LeaseHeld(w.db, me, lease.taskId, lease.token, now) && w.db.tasks[lease.taskId].status == DISPATCHED
    ensures var v := Next(w, me, window, ServerMove(AcceptEvent(me, Uuid(lease.taskId), lease.token, true, now), false));
            && v == w.(db := v.db) && v.db.tasks.Keys == w.db.tasks.Keys
            && Up(v.db, me) && LeaseHeld(v.db, me, lease.taskId, lease.token, now) && v.db.tasks[lease.taskId].status == PREPARING
            && v.db.tasks[lease.taskId].sourceCommit == w.db.tasks[lease.taskId].sourceCommit
  {
  }

  lemma StartingMove(w: World, me: AgentId, window: nat, lease: Lease)
    requires w.conn == Online && w.agent.active == Some(NewActive(lease).(preparation := true)) && w.starts[lease] == 0
    ensures var v := Next(w, me, window, PreparationMove(lease, Prepared, CALM.(runningSent := false)));
            && v == w.(agent := v.agent, starts := w.starts[lease := 1])
            && v.agent.listening && v.agent.active.Some? && v.agent.active.value.lease == lease
            && v.agent.active.value.pending == Some(PendingFailed)
  {
  }

  lemma FailureMove(w: World, me: AgentId, window: nat, lease: Lease, now: Time)
    requires w.conn == Online && Up(w.db, me) && LeaseHeld(w.db, me, lease.taskId, lease.token, now)
    requires w.db.tasks[lease.taskId].status == PREPARING
    ensures var v := Next(w, me, window, ServerMove(FailedEvent(me, Uuid(lease.taskId), lease.token, None, true, now), true));
            && v == w.(db := v.db, acks := v.acks) && v.db.tasks.Keys == w.db.tasks.Keys
            && Ack(lease.taskId, FAILED) in v.acks && v.db.tasks[lease.taskId].status == FAILED
  {
  }

  lemma ForgettingMove(w: World, me: AgentId, window: nat, lease: Lease)
    requires w.conn == Online && w.agent.active.Some? && w.agent.active.value.lease == lease
    requires w.agent.active.value.pending == Some(PendingFailed) && Ack(lease.taskId, FAILED) in w.acks
    ensures Next(w, me, window, AckMove(Ack(lease.taskId, FAILED))) == w.(agent := w.agent.(active := None))
  {
  }

  lemma FailingMoves(w: World, me: AgentId, window: nat, lease: Lease, now: Time)
    requires w.conn == Online && w.agent.active == Some(NewActive(lease).(preparation := true)) && w.starts[lease] == 0
    requires Up(w.db, me) && LeaseHeld(w.db, me, lease.taskId, lease.token, now) && w.db.tasks[lease.taskId].status == DISPATCHED
    ensures var v := RunMoves(w, me, window, Failing(me, lease, now));
            && ListensIdly(v) && v.starts == w.starts[lease := 1] && v.issued == w.issued && v.db.tasks.Keys == w.db.tasks.Keys
            && lease.taskId in v.db.tasks && v.db.tasks[lease.taskId].status == FAILED
  {
    AcceptingMove(w, me, window, lease, now);
    var accepted := Next(w, me, window, ServerMove(AcceptEvent(me, Uuid(lease.taskId), lease.token, true, now), false));
    hide Next, RunMoves, Up, LeaseHeld;
    StartingMove(accepted, me, window, lease);
    var started := Next(accepted, me, window, PreparationMove(lease, Prepared, CALM.(runningSent := false)));
    FailureMove(started, me, window, lease, now);
    var failed := Next(started, me, window, ServerMove(FailedEvent(me, Uuid(lease.taskId), lease.token, None, true, now), true));
    ForgettingMove(failed, me, window, lease);
    var forgotten := Next(failed, me, window, AckMove(Ack(lease.taskId, FAILED)));
    RunsThrough(w, me, window, Failing(me, lease, now), [accepted, started, failed, forgotten]);
  }

  const FIRST := Lease(7, 70)
  const SECOND := Lease(8, 80)

  /** The first task ends at the server while its command runs on. */
  function Early(): seq<Move> {
    Joining(1, 0) + Assigning(1, 7, 70, 0) + Failing(1, FIRST, 0)
  }

  lemma FirstGiven(window: nat)
    ensures Given(START, RunMoves(START, 1, window, Joining(1, 0) + Assigning(1, 7, 70, 0)), 1, FIRST, 0)
  {
    hide RunMoves, Given, Joining, Assigning;
    Gives(START, 1, window, 7, 70, 0);
  }

  lemma EarlyFails(given: World, window: nat)
    requires Given(START, given, 1, FIRST, 0)
    ensures var v := RunMoves(given, 1, window, Failing(1, FIRST, 0));
            ListensIdly(v) && v.starts[FIRST] == 1 && v.starts[SECOND] == 0 && 8 !in v.db.tasks && 80 !in v.issued
  {
    hide RunMoves, Failing;
    FailingMoves(given, 1, window, FIRST, 0);
  }

  lemma EarlyListens(window: nat)
    ensures var v := RunMoves(START, 1, window, Early());
            Inv(v) && ListensIdly(v) && v.starts[FIRST] == 1 && 8 !in v.db.tasks && 80 !in v.issued
  {
    StartIsFine();
    assert Early() == Joining(1, 0) + Assigning(1, 7, 70, 0) + Failing(1, FIRST, 0);
    hide *;
    var giving := Joining(1, 0) + Assigning(1, 7, 70, 0);
    RunMovesKeeps(START, 1, window, Early());
    FirstGiven(window);
    RunMovesConcat(START, 1, window, giving, Failing(1, FIRST, 0));
    EarlyFails(RunMoves(START, 1, window, giving), window);
  }

  function LateEnd(): seq<Move> {
    Early() + (Joining(1, 0) + Assigning(1, 8, 80, 0) + [FinishedMove(false, CALM)])
  }

  /** A run in which the second task's command is never started, and yet the task is marked completed and failed. */
  lemma LateEndHappens(window: nat)
    ensures var v := RunMoves(START, 1, window, LateEnd());
            && v.starts[FIRST] == 1 && v.starts[SECOND] == 0
            && v.agent.active.Some? && v.agent.active.value.lease == SECOND && v.agent.active.value.commandCompleted
            && v.agent.active.value.pending == Some(PendingFailed)
  {
    EarlyListens(window);
    hide Inv, RunMoves, ListensIdly, Early, Joining, Assigning;
    LateEndHits(RunMoves(START, 1, window, Early()), 1, window, 8, 80, 0, CALM);
    RunMovesConcat(START, 1, window, Early(), Joining(1, 0) + Assigning(1, 8, 80, 0) + [FinishedMove(false, CALM)]);
  }
}
