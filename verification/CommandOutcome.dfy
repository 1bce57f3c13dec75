/** What becomes of the end of a command: the agent has a completion to send only for a command that succeeded, or
    whose failing end lost its log tails on the way. */
module CommandOutcome {
  import opened Options
  import opened TaskStatus
  import opened TaskRows
  import opened TaskInvariants
  import opened TaskRuns
  import opened AgentTask
  import opened ExecutionOnce
  import opened CommandEnds

  // --- One handler ---

  /** The same task with the same manifest; nothing is completed by it. */
  ghost predicate Kept(t: ActiveTask, b: Machine) {
    && b.active.Some?
    && var u := b.active.value;
       && u.lease == t.lease && u.manifest == t.manifest && u.commandCompleted == t.commandCompleted && (u.upload ==> t.upload)
       && (u.pending == t.pending || u.pending == Some(PendingFailed) || u.pending == Some(PendingCanceled))
  }

  lemma FailKept(t: ActiveTask, b: Machine, x: Env)
    requires Kept(t, b)
    ensures Kept(t, FailActive(b, x).agent)
  {
  }

  lemma RunningKept(t: ActiveTask, b: Machine)
    requires Kept(t, b)
    ensures Kept(t, Running(b))
  {
  }

  lemma StartKept(t: ActiveTask, b: Machine, x: Env)
    requires Kept(t, b)
    ensures Kept(t, StartCommand(b, x).agent)
  {
    FailKept(t, b, x);
    RunningKept(t, b);
    FailKept(t, Running(b), x);
    hide Kept, FailActive, Running;
  }

  lemma MaterializeKept(t: ActiveTask, b: Machine, x: Env)
    requires Kept(t, b)
    ensures Kept(t, MaterializeAndStart(b, x).agent)
  {
    hide StartCommand, FailActive;
    var ready := With(b, b.active.value.(inputFilesDownloaded := true));
    FailKept(t, b, x);
    FailKept(t, ready, x);
    StartKept(t, With(ready, ready.active.value.(configWritten := true)), x);
  }

  lemma PrepareKept(t: ActiveTask, b: Machine, x: Env)
    requires Kept(t, b)
    ensures Kept(t, PrepareAndStart(b, x).agent)
  {
    hide MaterializeAndStart, FailActive;
    var prepared := b.active.value.(sourceCommit := true, workspace := true);
    FailKept(t, With(b, prepared), x);
    MaterializeKept(t, With(b, prepared.(artifactCleaned := true)), x);
  }

  lemma PreparationKept(a: Machine, lease: Lease, result: Preparation, x: Env)
    requires a.active.Some?
    ensures Kept(a.active.value, HandlePreparation(a, lease, result, x).agent)
  {
    hide PrepareAndStart, FailActive;
    var t := a.active.value;
    FailKept(t, With(a, Unpreparing(t, x.foundWorkspace)), x);
    FailKept(t, With(a, Unpreparing(t, false)), x);
    PrepareKept(t, With(a, Unpreparing(t, false)), x);
  }

  lemma CancelKept(a: Machine, lease: Lease, x: Env)
    requires a.active.Some?
    ensures Kept(a.active.value, HandleCancel(a, lease, x).agent)
  {
  }

  /** A manifest appears only after an end of the command that is still open, or was taken by this handler; the result
      becomes a completion only by an upload. */
  ghost predicate Reaches(a: Machine, b: Machine, ended: bool, uploaded: bool)
    requires a.active.Some?
  {
    b.active.Some? ==>
      var t, u := a.active.value, b.active.value;
      && u.lease == t.lease
      && (u.manifest || (u.commandCompleted && u.pending.None?) ==> t.manifest || (t.commandCompleted && t.pending.None?) || ended)
      && ((t.upload ==> t.manifest) ==> (u.upload ==> u.manifest))
      && (u.pending == Some(PendingCompleted) ==> t.pending == Some(PendingCompleted) || uploaded)
  }

  lemma KeptReaches(a: Machine, b: Machine)
    requires a.active.Some? && Kept(a.active.value, b)
    ensures Reaches(a, b, false, false)
  {
  }

  lemma SendReaches(a: Machine, b: Machine, x: Env)
    requires a.active.Some? && Reaches(a, b, false, false)
    requires b.active.Some?
    ensures Reaches(a, SendManifest(b, x).agent, false, false)
  {
  }

  lemma ResumeReaches(a: Machine, b: Machine, uploading: bool, x: Env)
    requires a.active.Some? && Kept(a.active.value, b)
    ensures Reaches(a, ResumeActive(b, uploading, x).agent, false, false)
  {
    hide StartCommand, MaterializeAndStart, FailActive, SendManifest;
    var t := a.active.value;
    KeptReaches(a, b);
    FailKept(t, b, x);
    KeptReaches(a, FailActive(b, x).agent);
    StartKept(t, b, x);
    KeptReaches(a, StartCommand(b, x).agent);
    MaterializeKept(t, b, x);
    KeptReaches(a, MaterializeAndStart(b, x).agent);
    if b.active.value.commandCompleted && b.active.value.pending.None? {
      SendReaches(a, b, x);
      SendReaches(a, With(b, b.active.value.(manifest := true)), x);
    }
  }

  lemma RecoveryReaches(a: Machine, decision: Option<Decision>, x: Env)
    requires a.active.Some?
    ensures Reaches(a, HandleRecovery(a, decision, x).agent, false, false)
  {
    hide ResumeActive, HandleCancel, Phase;
    var canceled := HandleCancel(a, a.active.value.lease, x);
    CancelKept(a, a.active.value.lease, x);
    KeptReaches(a, canceled.agent);
    KeptReaches(a, a);
    ResumeReaches(a, canceled.agent, false, x);
    ResumeReaches(a, a, true, x);
    ResumeReaches(a, a, false, x);
  }

  lemma FinishedReaches(a: Machine, succeeded: bool, x: Env)
    requires a.active.Some?
    ensures Reaches(a, HandleFinished(a, succeeded, x).agent, a.listening && (succeeded || !x.tailsKept), false)
  {
  }

  lemma UploadReaches(a: Machine, uploaded: bool, x: Env)
    requires a.active.Some?
    ensures Reaches(a, HandleUploadResult(a, uploaded, x).agent, false, a.active.value.upload && uploaded)
  {
  }

  lemma ManifestAckReaches(a: Machine, id: TaskId, accepted: bool, x: Env)
    requires a.active.Some?
    ensures Reaches(a, HandleManifestAck(a, id, accepted, x).agent, false, false)
  {
  }

  lemma ResultAckReaches(a: Machine, id: TaskId, status: Status)
    requires a.active.Some?
    ensures Reaches(a, HandleResultAck(a, id, status).agent, false, false)
  {
  }

  // --- One move ---

  /** The end of the active task's command arrives: a success, or a failure whose log tails are lost. */
  ghost predicate EndsOpen(w: World, m: Move, l: Lease) {
    && m.FinishedMove? && w.conn == Online && w.agent.listening && w.agent.active.Some? && w.agent.active.value.lease == l
    && (m.succeeded || !m.x.tailsKept)
  }

  /** The upload of the active task's artifacts ends well. */
  ghost predicate Uploads(w: World, m: Move, l: Lease) {
    && m.UploadMove? && m.uploaded && w.conn == Online && w.agent.active.Some? && w.agent.active.value.lease == l
    && w.agent.active.value.upload
  }

  /** A task that is just taken, or the one there was, with what this move adds to it. */
  ghost predicate Moves(w: World, v: World, m: Move) {
    v.agent.active.Some? ==>
      if w.agent.active.None? then v.agent.active.value == NewActive(v.agent.active.value.lease).(preparation := true)
      else Reaches(w.agent, v.agent, EndsOpen(w, m, w.agent.active.value.lease), Uploads(w, m, w.agent.active.value.lease))
  }

  lemma SameMoves(w: World, v: World, m: Move)
    requires v.agent == w.agent
    ensures Moves(w, v, m)
  {
  }

  lemma IdleMoves(w: World, v: World, m: Move)
    requires v.agent.active.None?
    ensures Moves(w, v, m)
  {
  }

  lemma HandledMoves(w: World, u: World, h: Handled, m: Move, ended: bool, uploaded: bool)
    requires w.agent.active.Some? && Reaches(w.agent, h.agent, ended, uploaded)
    requires ended ==> EndsOpen(w, m, w.agent.active.value.lease)
    requires uploaded ==> Uploads(w, m, w.agent.active.value.lease)
    ensures Moves(w, Handle(u, h), m)
  {
  }

  lemma AssignmentMoves(w: World, me: AgentId, window: nat, lease: Lease, x: Env)
    ensures Moves(w, Next(w, me, window, AssignmentMove(lease, x)), AssignmentMove(lease, x))
  {
  }

  lemma IdleHandlerMoves(w: World, me: AgentId, window: nat, m: Move)
    requires w.agent.active.None? && !m.AssignmentMove?
    ensures Next(w, me, window, m).agent.active.None?
  {
    hide Step, Hello, NewAssignments, NewCancels, NewAcks;
  }

  lemma RecoverMoveMoves(w: World, me: AgentId, window: nat, x: Env)
    requires w.conn.Answered? && w.agent.active.Some?
    ensures Moves(w, Next(w, me, window, RecoverMove(x)), RecoverMove(x))
  {
    hide *;
    var u := RecoverMoves(w, me, window, x);
    RecoveryReaches(w.agent, w.conn.decision, x);
    HandledMoves(w, u, HandleRecovery(w.agent, w.conn.decision, x), RecoverMove(x), false, false);
  }

  lemma AckIs(w: World, me: AgentId, window: nat, ack: Ack)
    requires w.conn == Online && ack in w.acks
    ensures Next(w, me, window, AckMove(ack)) == Handle(w, HandleResultAck(w.agent, ack.taskId, ack.status))
  {
    hide Handle, HandleResultAck;
  }

  lemma AckMoveMoves(w: World, me: AgentId, window: nat, ack: Ack)
    requires w.conn == Online && ack in w.acks && w.agent.active.Some?
    ensures Moves(w, Next(w, me, window, AckMove(ack)), AckMove(ack))
  {
    hide *;
    AckIs(w, me, window, ack);
    ResultAckReaches(w.agent, ack.taskId, ack.status);
    HandledMoves(w, w, HandleResultAck(w.agent, ack.taskId, ack.status), AckMove(ack), false, false);
  }

  lemma EndsOpenIs(w: World, succeeded: bool, x: Env)
    requires w.conn == Online && w.agent.active.Some?
    ensures EndsOpen(w, FinishedMove(succeeded, x), w.agent.active.value.lease) <==> w.agent.listening && (succeeded || !x.tailsKept)
  {
  }

  lemma UploadsIs(w: World, uploaded: bool, x: Env)
    requires w.conn == Online && w.agent.active.Some?
    ensures Uploads(w, UploadMove(uploaded, x), w.agent.active.value.lease) <==> w.agent.active.value.upload && uploaded
  {
  }

  lemma HandlerMovesOn(w: World, me: AgentId, window: nat, m: Move)
    requires w.conn == Online && w.agent.active.Some?
    requires m.CancelMove? || m.PreparationMove? || m.FinishedMove? || m.ManifestAckMove? || m.UploadMove?
    ensures Moves(w, Next(w, me, window, m), m)
  {
    HandlerMoves(w, me, window, m);
    hide *;
    var a := w.agent;
    match m
    case CancelMove(lease, x) =>
      SameMoves(w, w, m);
      if lease in w.cancels {
        CancelKept(a, lease, x);
        KeptReaches(a, HandleCancel(a, lease, x).agent);
        HandledMoves(w, w.(canceled := w.canceled + {lease}), HandleCancel(a, lease, x), m, false, false);
      }
    case PreparationMove(lease, result, x) =>
      PreparationKept(a, lease, result, x);
      KeptReaches(a, HandlePreparation(a, lease, result, x).agent);
      HandledMoves(w, w, HandlePreparation(a, lease, result, x), m, false, false);
    case FinishedMove(succeeded, x) =>
      FinishedReaches(a, succeeded, x);
      EndsOpenIs(w, succeeded, x);
      HandledMoves(w, w, HandleFinished(a, succeeded, x), m, a.listening && (succeeded || !x.tailsKept), false);
    case ManifestAckMove(id, accepted, x) =>
      ManifestAckReaches(a, id, accepted, x);
      HandledMoves(w, w, HandleManifestAck(a, id, accepted, x), m, false, false);
    case UploadMove(uploaded, x) =>
      UploadReaches(a, uploaded, x);
      UploadsIs(w, uploaded, x);
      HandledMoves(w, w, HandleUploadResult(a, uploaded, x), m, false, a.active.value.upload && uploaded);
  }

  /** Moves that leave the agent's task alone or find none. */
  lemma OtherMoves(w: World, me: AgentId, window: nat, m: Move)
    requires w.agent.active.Some?
    requires m.ServerMove? || m.ConnectMove? || m.HelloMove? || m.DropMove? || m.RestartMove?
             || (m.RecoverMove? && !w.conn.Answered?) || (m.AckMove? && (w.conn != Online || m.ack !in w.acks))
             || (m.AssignmentMove? && w.agent.active.Some?)
             || ((m.CancelMove? || m.PreparationMove? || m.FinishedMove? || m.ManifestAckMove? || m.UploadMove?) && w.conn != Online)
    ensures Next(w, me, window, m).agent == w.agent || Next(w, me, window, m).agent.active.None?
  {
    hide Step, Hello, NewAssignments, NewCancels, NewAcks;
  }

  lemma MoveReaches(w: World, me: AgentId, window: nat, m: Move)
    ensures Moves(w, Next(w, me, window, m), m)
  {
    hide *;
    var v := Next(w, me, window, m);
    if m.AssignmentMove? {
      AssignmentMoves(w, me, window, m.lease, m.x);
    } else if w.agent.active.None? {
      IdleHandlerMoves(w, me, window, m);
      IdleMoves(w, v, m);
    } else if m.RecoverMove? && w.conn.Answered? {
      RecoverMoveMoves(w, me, window, m.x);
    } else if m.AckMove? && w.conn == Online && m.ack in w.acks {
      AckMoveMoves(w, me, window, m.ack);
    } else if (m.CancelMove? || m.PreparationMove? || m.FinishedMove? || m.ManifestAckMove? || m.UploadMove?) && w.conn == Online {
      HandlerMovesOn(w, me, window, m);
    } else {
      OtherMoves(w, me, window, m);
      if v.agent == w.agent {
        SameMoves(w, v, m);
      } else {
        IdleMoves(w, v, m);
      }
    }
  }

  // --- Runs ---

  /** The end of the task's command is one whose files are listed, or will be. */
  ghost predicate Open(a: Machine) {
    a.active.Some? && (a.active.value.manifest || (a.active.value.commandCompleted && a.active.value.pending.None?))
  }

  ghost predicate Completes(a: Machine) {
    a.active.Some? && a.active.value.pending == Some(PendingCompleted)
  }

  ghost predicate UploadsListed(a: Machine) {
    a.active.Some? && a.active.value.upload ==> a.active.value.manifest
  }

  /** What one move adds, seen from the world after it. */
  lemma StepBack(w: World, v: World, m: Move)
    requires Moves(w, v, m)
    ensures v.agent.active.Some? && (Open(v.agent) || Completes(v.agent)) ==>
              w.agent.active.Some? && w.agent.active.value.lease == v.agent.active.value.lease
    ensures Open(v.agent) ==> Open(w.agent) || EndsOpen(w, m, v.agent.active.value.lease)
    ensures Completes(v.agent) ==> Completes(w.agent) || Uploads(w, m, v.agent.active.value.lease)
    ensures UploadsListed(w.agent) ==> UploadsListed(v.agent)
  {
    hide EndsOpen, Uploads;
  }

  lemma AtStep(w: World, me: AgentId, window: nat, moves: seq<Move>, n: nat)
    requires n < |moves|
    ensures At(w, me, window, moves, n + 1) == Next(At(w, me, window, moves, n), me, window, moves[n])
    ensures Moves(At(w, me, window, moves, n), At(w, me, window, moves, n + 1), moves[n])
  {
    hide Next, Moves;
    assert moves[..n + 1] == moves[..n] + [moves[n]];
    RunMovesSnoc(w, me, window, moves[..n], moves[n]);
    MoveReaches(At(w, me, window, moves, n), me, window, moves[n]);
  }

  lemma AtZero(w: World, me: AgentId, window: nat, moves: seq<Move>)
    ensures At(w, me, window, moves, 0) == w
  {
    assert moves[..0] == [];
  }

  lemma {:induction false} EndOf(w: World, me: AgentId, window: nat, moves: seq<Move>, n: nat) returns (j: nat)
    requires n <= |moves| && w.agent.active.None? && Open(At(w, me, window, moves, n).agent)
    ensures j < n && EndsOpen(At(w, me, window, moves, j), moves[j], At(w, me, window, moves, n).agent.active.value.lease)
    decreases n
  {
    AtZero(w, me, window, moves);
    hide At, Next, EndsOpen;
    j := n - 1;
    AtStep(w, me, window, moves, n - 1);
    StepBack(At(w, me, window, moves, n - 1), At(w, me, window, moves, n), moves[n - 1]);
    if !EndsOpen(At(w, me, window, moves, n - 1), moves[n - 1], At(w, me, window, moves, n).agent.active.value.lease) {
      j := EndOf(w, me, window, moves, n - 1);
    }
  }

  lemma {:induction false} UploadOf(w: World, me: AgentId, window: nat, moves: seq<Move>, n: nat) returns (k: nat)
    requires n <= |moves| && w.agent.active.None? && Completes(At(w, me, window, moves, n).agent)
    ensures k < n && Uploads(At(w, me, window, moves, k), moves[k], At(w, me, window, moves, n).agent.active.value.lease)
    decreases n
  {
    AtZero(w, me, window, moves);
    hide At, Next, Uploads;
    k := n - 1;
    AtStep(w, me, window, moves, n - 1);
    StepBack(At(w, me, window, moves, n - 1), At(w, me, window, moves, n), moves[n - 1]);
    if !Uploads(At(w, me, window, moves, n - 1), moves[n - 1], At(w, me, window, moves, n).agent.active.value.lease) {
      k := UploadOf(w, me, window, moves, n - 1);
    }
  }

  lemma {:induction false} AlwaysListed(w: World, me: AgentId, window: nat, moves: seq<Move>, n: nat)
    requires n <= |moves| && w.agent.active.None?
    ensures UploadsListed(At(w, me, window, moves, n).agent)
    decreases n
  {
    AtZero(w, me, window, moves);
    hide At, Next;
    if n > 0 {
      AtStep(w, me, window, moves, n - 1);
      AlwaysListed(w, me, window, moves, n - 1);
      StepBack(At(w, me, window, moves, n - 1), At(w, me, window, moves, n), moves[n - 1]);
    }
  }

  /** On every run the agent has a completion to send only after its artifacts were uploaded, and that only after an
      end of its command: a success, or a failure whose log tails were lost. */
  lemma CompletionHasItsEnd(me: AgentId, window: nat, moves: seq<Move>, n: nat) returns (j: nat, k: nat)
    requires n <= |moves| && Completes(At(START, me, window, moves, n).agent)
    ensures var l := At(START, me, window, moves, n).agent.active.value.lease;
            && j < k < n
            && Uploads(At(START, me, window, moves, k), moves[k], l)
            && EndsOpen(At(START, me, window, moves, j), moves[j], l)
            && (AlwaysOwn(START, me, window, moves) ==> At(START, me, window, moves, j).starts[l] == 1)
  {
    hide At, AlwaysOwn;
    k := UploadOf(START, me, window, moves, n);
    AlwaysListed(START, me, window, moves, k);
    j := EndOf(START, me, window, moves, k);
    if AlwaysOwn(START, me, window, moves) {
      OwnAt(START, me, window, moves, j);
    }
  }

  lemma OwnAt(w: World, me: AgentId, window: nat, moves: seq<Move>, j: nat)
    requires j <= |moves| && AlwaysOwn(w, me, window, moves)
    ensures EndsOwn(At(w, me, window, moves, j))
  {
    hide At, EndsOwn;
  }

  // --- A result that stays ---

  /** The lease was taken; if its task is still there, it waits for nothing and its result is not a completion. */
  ghost predicate Settled(w: World, l: Lease) {
    && l in w.taken
    && (w.agent.active.Some? && w.agent.active.value.lease == l ==>
          var t := w.agent.active.value;
          && !w.agent.listening && !t.preparation && !t.manifest && !t.upload
          && t.pending.Some? && t.pending != Some(PendingCompleted))
  }

  /** A handler leaves such a task as it is, but for another result that is no completion; or it drops it. */
  ghost predicate StaysSettled(a: Machine, b: Machine) {
    b.active.Some? ==>
      && a.active.Some? && b.active.value.lease == a.active.value.lease
      && !b.listening && !b.active.value.preparation && !b.active.value.manifest && !b.active.value.upload
      && b.active.value.pending.Some? && b.active.value.pending != Some(PendingCompleted)
  }

  ghost predicate SettledTask(a: Machine) {
    && a.active.Some? && !a.listening && !a.active.value.preparation && !a.active.value.manifest && !a.active.value.upload
    && a.active.value.pending.Some? && a.active.value.pending != Some(PendingCompleted)
  }

  lemma CancelSettles(a: Machine, lease: Lease, x: Env)
    requires SettledTask(a)
    ensures SettledTask(HandleCancel(a, lease, x).agent) && StaysSettled(a, HandleCancel(a, lease, x).agent)
  {
  }

  lemma ResumeSettles(a: Machine, uploading: bool, x: Env)
    requires SettledTask(a)
    ensures ResumeActive(a, uploading, x).agent == a && StaysSettled(a, a)
  {
    hide StartCommand, MaterializeAndStart, FailActive, SendManifest;
  }

  lemma RecoverySettles(a: Machine, decision: Option<Decision>, x: Env)
    requires SettledTask(a)
    ensures StaysSettled(a, HandleRecovery(a, decision, x).agent)
  {
    hide ResumeActive, HandleCancel, Phase;
    var canceled := HandleCancel(a, a.active.value.lease, x);
    CancelSettles(a, a.active.value.lease, x);
    ResumeSettles(canceled.agent, false, x);
    ResumeSettles(a, true, x);
    ResumeSettles(a, false, x);
  }

  lemma HandlersSettle(a: Machine, m: Move)
    requires SettledTask(a)
    ensures match m
            case PreparationMove(lease, result, x) => StaysSettled(a, HandlePreparation(a, lease, result, x).agent)
            case FinishedMove(succeeded, x) => StaysSettled(a, HandleFinished(a, succeeded, x).agent)
            case ManifestAckMove(id, accepted, x) => StaysSettled(a, HandleManifestAck(a, id, accepted, x).agent)
            case UploadMove(uploaded, x) => StaysSettled(a, HandleUploadResult(a, uploaded, x).agent)
            case AckMove(ack) => StaysSettled(a, HandleResultAck(a, ack.taskId, ack.status).agent)
            case _ => true
  {
    hide PrepareAndStart, FailActive, SendManifest;
  }

  lemma HandleSettles(w: World, u: World, h: Handled, l: Lease)
    requires Settled(w, l) && w.agent.active.Some? && w.agent.active.value.lease == l && u.taken == w.taken && StaysSettled(w.agent, h.agent)
    ensures Settled(Handle(u, h), l)
  {
  }

  /** Moves of the agent's own task. */
  lemma OwnMoveSettles(w: World, me: AgentId, window: nat, m: Move, l: Lease)
    requires Settled(w, l) && w.agent.active.Some? && w.agent.active.value.lease == l && w.conn == Online
    requires m.CancelMove? || m.PreparationMove? || m.FinishedMove? || m.ManifestAckMove? || m.UploadMove?
    ensures Settled(Next(w, me, window, m), l)
  {
    HandlerMoves(w, me, window, m);
    HandlersSettle(w.agent, m);
    SettledIs(w, l);
    hide *;
    match m
    case CancelMove(lease, x) =>
      if lease in w.cancels {
        CancelSettles(w.agent, lease, x);
        HandleSettles(w, w.(canceled := w.canceled + {lease}), HandleCancel(w.agent, lease, x), l);
      }
    case PreparationMove(lease, result, x) => HandleSettles(w, w, HandlePreparation(w.agent, lease, result, x), l);
    case FinishedMove(succeeded, x) => HandleSettles(w, w, HandleFinished(w.agent, succeeded, x), l);
    case ManifestAckMove(id, accepted, x) => HandleSettles(w, w, HandleManifestAck(w.agent, id, accepted, x), l);
    case UploadMove(uploaded, x) => HandleSettles(w, w, HandleUploadResult(w.agent, uploaded, x), l);
  }

  lemma SettledIs(w: World, l: Lease)
    requires Settled(w, l) && w.agent.active.Some? && w.agent.active.value.lease == l
    ensures SettledTask(w.agent)
  {
  }

  lemma AnswerSettles(w: World, me: AgentId, window: nat, m: Move, l: Lease)
    requires Settled(w, l) && w.agent.active.Some? && w.agent.active.value.lease == l
    requires (m.RecoverMove? && w.conn.Answered?) || (m.AckMove? && w.conn == Online && m.ack in w.acks)
    ensures Settled(Next(w, me, window, m), l)
  {
    SettledIs(w, l);
    HandlersSettle(w.agent, m);
    if m.RecoverMove? {
      RecoverySettles(w.agent, w.conn.decision, m.x);
    }
    hide HandleRecovery, HandleResultAck, SettledTask, StaysSettled;
  }

  lemma TakenGrows(w: World, me: AgentId, window: nat, m: Move)
    ensures w.taken <= Next(w, me, window, m).taken
  {
    hide Step, Hello, NewAssignments, NewCancels, NewAcks, HandleRecovery, HandleCancel, HandlePreparation, HandleFinished,
      HandleManifestAck, HandleUploadResult, HandleResultAck, HandleAssignment;
  }

  /** A task is only taken under a lease that was never taken. */
  lemma OthersStay(w: World, me: AgentId, window: nat, m: Move, l: Lease)
    requires Inv(w) && l in w.taken && !(w.agent.active.Some? && w.agent.active.value.lease == l)
    ensures var a := Next(w, me, window, m).agent; !(a.active.Some? && a.active.value.lease == l)
  {
    hide Inv, Next, EndsOpen, Uploads;
    MoveReaches(w, me, window, m);
    if w.agent.active.None? {
      AssignedIsFresh(w, me, window, m);
    }
  }

  lemma AssignedIsFresh(w: World, me: AgentId, window: nat, m: Move)
    requires Inv(w) && w.agent.active.None?
    ensures var a := Next(w, me, window, m).agent; a.active.Some? ==> a.active.value.lease !in w.taken
  {
    if m.AssignmentMove? {
      FreshAssignment(w, me, window, m.lease, m.x);
    } else {
      IdleHandlerMoves(w, me, window, m);
    }
    hide *;
  }

  lemma FreshAssignment(w: World, me: AgentId, window: nat, lease: Lease, x: Env)
    requires Inv(w) && w.agent.active.None?
    ensures var a := Next(w, me, window, AssignmentMove(lease, x)).agent; a.active.Some? ==> a.active.value.lease !in w.taken
  {
    hide DbOk, TokensIssued, AgentFine, CanceledAreDead, AcksAreTrue, AnswerFits;
  }

  lemma SameSettles(w: World, v: World, l: Lease)
    requires Settled(w, l) && w.taken <= v.taken && (v.agent == w.agent || v.agent.active.None?)
    ensures Settled(v, l)
  {
  }

  lemma OtherSettles(v: World, l: Lease)
    requires l in v.taken && !(v.agent.active.Some? && v.agent.active.value.lease == l)
    ensures Settled(v, l)
  {
  }

  lemma IsTaken(w: World, l: Lease)
    requires Settled(w, l)
    ensures l in w.taken
  {
  }

  lemma MoveSettles(w: World, me: AgentId, window: nat, m: Move, l: Lease)
    requires Inv(w) && Settled(w, l)
    ensures Settled(Next(w, me, window, m), l)
  {
    hide *;
    var v := Next(w, me, window, m);
    TakenGrows(w, me, window, m);
    IsTaken(w, l);
    if !(w.agent.active.Some? && w.agent.active.value.lease == l) {
      OthersStay(w, me, window, m, l);
      OtherSettles(v, l);
    } else if (m.CancelMove? || m.PreparationMove? || m.FinishedMove? || m.ManifestAckMove? || m.UploadMove?) && w.conn == Online {
      OwnMoveSettles(w, me, window, m, l);
    } else if (m.RecoverMove? && w.conn.Answered?) || (m.AckMove? && w.conn == Online && m.ack in w.acks) {
      AnswerSettles(w, me, window, m, l);
    } else {
      OtherMoves(w, me, window, m);
      SameSettles(w, v, l);
    }
  }

  lemma {:induction false} RunSettles(w: World, me: AgentId, window: nat, moves: seq<Move>, l: Lease)
    requires Inv(w) && Settled(w, l)
    ensures Settled(RunMoves(w, me, window, moves), l)
    decreases |moves|
  {
    hide Inv, Next, Settled;
    if moves != [] {
      MoveKeeps(w, me, window, moves[0]);
      MoveSettles(w, me, window, moves[0], l);
      RunSettles(Next(w, me, window, moves[0]), me, window, moves[1..], l);
    }
  }

  /** A running command: its task is neither in preparation nor listed, and has no result yet. */
  ghost predicate Executes(a: Machine) {
    && a.listening && a.active.Some?
    && var t := a.active.value; t.execution && t.executionCancel && t.workspace && !t.preparation && !t.commandCompleted
                                && !t.manifest && !t.upload && t.pending.None?
  }

  lemma FailureSettles(w: World, me: AgentId, window: nat, x: Env)
    requires Inv(w) && w.conn == Online && Executes(w.agent) && x.tailsKept
    ensures Settled(Next(w, me, window, FinishedMove(false, x)), w.agent.active.value.lease)
  {
    hide DbOk, TokensIssued, AgentFine, CanceledAreDead, AcksAreTrue, AnswerFits;
  }

  lemma SettledIsNoCompletion(w: World, l: Lease)
    requires Settled(w, l)
    ensures !(Completes(w.agent) && w.agent.active.value.lease == l)
  {
  }

  /** A failed command whose log tails are kept has no completion to send, whatever happens afterwards. */
  lemma FailureStaysFailure(w: World, me: AgentId, window: nat, x: Env, more: seq<Move>)
    requires Inv(w) && w.conn == Online && Executes(w.agent) && x.tailsKept
    ensures var v := RunMoves(Next(w, me, window, FinishedMove(false, x)), me, window, more);
            !(Completes(v.agent) && v.agent.active.value.lease == w.agent.active.value.lease)
  {
    var l := w.agent.active.value.lease;
    FailureSettles(w, me, window, x);
    MoveKeeps(w, me, window, FinishedMove(false, x));
    var ended := Next(w, me, window, FinishedMove(false, x));
    hide Inv, Next, RunMoves, Settled, Completes;
    RunSettles(ended, me, window, more, l);
    SettledIsNoCompletion(RunMoves(ended, me, window, more), l);
  }
}
