/** One agent and the server together, over any number of connections: a command is started at most once per
    lease, and a task the agent forgets has ended at the server as the agent was told. */
module ExecutionOnce {
  import opened Options
  import opened TaskStatus
  import opened TaskRows
  import opened TaskClaim
  import opened TaskInvariants
  import opened TaskRuns
  import opened TaskEvolution
  import opened TaskRecovery
  import opened AgentTask

  /** The agent's connection: while it waits for the answer to its hello it handles nothing else. */
  datatype Conn = Offline | HelloSent | Answered(decision: Option<Decision>) | Online

  datatype Ack = Ack(taskId: TaskId, status: Status)

  datatype World = World(
    db: Db,
    agent: Machine,
    conn: Conn,
    /** Messages on their way to the agent, in this connection. */
    assignments: set<Lease>,
    cancels: set<Lease>,
    acks: set<Ack>,
    /** How often a command was started under each lease; the leases the agent took, those it was told to
        cancel, and the tokens the server issued. */
    starts: multiset<Lease>,
    taken: set<Lease>,
    canceled: set<Lease>,
    issued: set<Token>)

  const START := World(EMPTY, IDLE, Offline, {}, {}, {}, multiset{}, {}, {}, {})

  datatype Move =
    /** Any transaction of the server, for this agent or another; `sent` says whether a message it causes goes out. */
    | ServerMove(e: Event, sent: bool)
    | ConnectMove
    | HelloMove(capable: bool, now: Time)
    | RecoverMove(x: Env)
    | AssignmentMove(lease: Lease, x: Env)
    | CancelMove(lease: Lease, x: Env)
    | AckMove(ack: Ack)
    | PreparationMove(lease: Lease, result: Preparation, x: Env)
    | FinishedMove(succeeded: bool, x: Env)
    | ManifestAckMove(id: TaskId, accepted: bool, x: Env)
    | UploadMove(uploaded: bool, x: Env)
    | DropMove
    /** The agent's process ends and starts again; it remembers no task. */
    | RestartMove

  function Dropped(w: World): World {
    w.(conn := Offline, assignments := {}, cancels := {}, acks := {})
  }

  /** The world after a handler of the agent: its start counts, and an error ends the connection. */
  ghost function Handle(w: World, h: Handled): World {
    var counted := if h.started && w.agent.active.Some?
      then w.(agent := h.agent, starts := w.starts[w.agent.active.value.lease := w.starts[w.agent.active.value.lease] + 1])
      else w.(agent := h.agent);
    if h.ok then counted else Dropped(counted)
  }

  /** The hello the agent sends. */
  function Reported(a: Machine): Option<CurrentTask> {
    if a.active.None? then None
    else Some(CurrentTask(Uuid(a.active.value.lease.taskId), a.active.value.lease.token, Phase(a.active.value)))
  }

  /** The assignments, cancellations and acknowledgements a transaction sends to agent `me`. */
  ghost function NewAssignments(db: Db, me: AgentId, e: Event): set<Lease> {
    if e.ClaimEvent? && e.agentId == me && Claim(db, e.agentId, e.requested, e.x, e.ready).result.Assigned?
    then {Lease(Claim(db, e.agentId, e.requested, e.x, e.ready).result.id, e.x.token)}
    else {}
  }

  ghost function NewCancels(db: Db, me: AgentId, e: Event): set<Lease> {
    if e.CancelEvent? && e.taskId.Uuid? then
      var after := RequestCancellation(db, e.taskId, e.now);
      var id := e.taskId.id;
      if after.reply == Done && Known(after.db, me, id) && after.db.tasks[id].status == CANCELING && after.db.tasks[id].leaseHash.Some?
      then {Lease(id, after.db.tasks[id].leaseHash.value)}
      else {}
    else {}
  }

  ghost function NewAcks(db: Db, me: AgentId, e: Event): set<Ack> {
    match e
    case FailedEvent(a, Uuid(id), token, exitCode, ready, now) =>
      if a == me && ReportFailure(db, a, Uuid(id), token, exitCode, ready, now).reply == Done then {Ack(id, FAILED)} else {}
    case CanceledEvent(a, Uuid(id), token, ready, now) =>
      if a == me && ReportCanceled(db, a, Uuid(id), token, ready, now).reply == Done then {Ack(id, CANCELED)} else {}
    case CompletedEvent(a, Uuid(id), token, code, count, bytes, sourceCommit, files, finishedAt, now) =>
      if a == me && Complete(db, a, Uuid(id), token, code, count, bytes, sourceCommit, files, finishedAt, now).reply == Done
      then {Ack(id, SUCCEEDED)} else {}
    case _ => {}
  }

  function NowIssued(e: Event, issued: set<Token>): set<Token> {
    if e.ClaimEvent? then issued + {e.x.token} else issued
  }

  ghost function Served(w: World, me: AgentId, window: nat, e: Event, sent: bool): World {
    var stepped := w.(db := Step(w.db, window, e), issued := NowIssued(e, w.issued));
    if !sent || w.conn == Offline then stepped
    else stepped.(assignments := w.assignments + NewAssignments(w.db, me, e), cancels := w.cancels + NewCancels(w.db, me, e),
                  acks := w.acks + NewAcks(w.db, me, e))
  }

  ghost function Next(w: World, me: AgentId, window: nat, m: Move): World {
    match m
    case ServerMove(e, sent) =>
      if e.ClaimEvent? && e.x.token in w.issued then w else Served(w, me, window, e, sent)
    case ConnectMove => Dropped(w).(conn := HelloSent)
    case HelloMove(capable, now) =>
      if w.conn != HelloSent then w
      else
        var hello := Hello(w.db, me, Reported(w.agent), capable, now);
        w.(db := hello.db, conn := Answered(hello.decision))
    case RecoverMove(x) =>
      if !w.conn.Answered? then w
      else
        var marked := if w.agent.active.Some? && w.conn.decision.Some? && w.conn.decision.value.action.CANCEL?
          then w.canceled + {w.agent.active.value.lease} else w.canceled;
        Handle(w.(conn := Online, canceled := marked), HandleRecovery(w.agent, w.conn.decision, x))
    case AssignmentMove(lease, x) =>
      if w.conn != Online || lease !in w.assignments then w
      else Handle(w.(assignments := w.assignments - {lease}, taken := w.taken + {lease}), HandleAssignment(w.agent, lease, x))
    case CancelMove(lease, x) =>
      if w.conn != Online || lease !in w.cancels then w
      else Handle(w.(canceled := w.canceled + {lease}), HandleCancel(w.agent, lease, x))
    case AckMove(ack) =>
      if w.conn != Online || ack !in w.acks then w else Handle(w, HandleResultAck(w.agent, ack.taskId, ack.status))
    case PreparationMove(lease, result, x) =>
      if w.conn != Online then w else Handle(w, HandlePreparation(w.agent, lease, result, x))
    case FinishedMove(succeeded, x) => if w.conn != Online then w else Handle(w, HandleFinished(w.agent, succeeded, x))
    case ManifestAckMove(id, accepted, x) => if w.conn != Online then w else Handle(w, HandleManifestAck(w.agent, id, accepted, x))
    case UploadMove(uploaded, x) => if w.conn != Online then w else Handle(w, HandleUploadResult(w.agent, uploaded, x))
    case DropMove => Dropped(w)
    case RestartMove => Dropped(w).(agent := IDLE)
  }

  // --- The invariant ---

  /** The server will never again execute or resume under this lease. */
  ghost predicate Dead(db: Db, l: Lease) {
    !(l.taskId in db.tasks && LiveToken(db.tasks[l.taskId]) == Some(l.token))
  }

  ghost predicate TokensIssued(w: World) {
    && (forall id :: id in w.db.tasks && w.db.tasks[id].leaseHash.Some? ==> w.db.tasks[id].leaseHash.value in w.issued)
    && (forall l :: l in w.taken || l in w.assignments || l in w.cancels || l in w.canceled ==> l.token in w.issued)
  }

  /** Only leases the agent took were started, each once; an assignment on its way is of a lease not taken yet. */
  ghost predicate StartsOk(w: World) {
    && (forall l {:trigger w.starts[l]} :: w.starts[l] <= 1)
    && (forall l :: w.starts[l] > 0 ==> l in w.taken)
    && (w.agent.active.Some? ==> w.agent.active.value.lease in w.taken)
    && (forall l :: l in w.assignments ==> l !in w.taken)
  }

  ghost predicate AgentFine(w: World) {
    w.agent.active.Some? ==> AgentOk(w.agent, w.starts[w.agent.active.value.lease], w.canceled)
  }

  ghost predicate CanceledAreDead(w: World) {
    forall l :: l in w.cancels || l in w.canceled ==> Dead(w.db, l)
  }

  ghost predicate AcksAreTrue(w: World) {
    forall k :: k in w.acks ==> k.taskId in w.db.tasks && w.db.tasks[k.taskId].status == k.status && Terminal(k.status)
  }

  /** The answer under way fits the waiting agent: it may resume only a lease it was not told to cancel. */
  ghost predicate AnswerFits(w: World) {
    w.conn.Answered? && w.conn.decision.Some? && w.agent.active.Some? ==>
      var lease := w.agent.active.value.lease;
      && (w.conn.decision.value.action.RESUME? ==> lease !in w.canceled)
      && (w.conn.decision.value.action.CANCEL? ==> Dead(w.db, lease))
  }

  ghost predicate Inv(w: World) {
    DbOk(w.db) && TokensIssued(w) && StartsOk(w) && AgentFine(w) && CanceledAreDead(w) && AcksAreTrue(w) && AnswerFits(w)
  }

  lemma StartIsFine()
    ensures Inv(START)
  {
  }

  // --- Moves of the server ---

  /** A dead lease stays dead, as no token is issued twice. */
  lemma DeadStaysDead(a: Db, b: Db, issued: Option<Token>, l: Lease)
    requires RowsEvolve(a, b, issued) && Dead(a, l) && issued != Some(l.token)
    ensures Dead(b, l)
  {
  }

  lemma RowsKeepIssued(a: Db, b: Db, e: Event, issued: set<Token>)
    requires RowsEvolve(a, b, Issued(e))
    requires forall id :: id in a.tasks && a.tasks[id].leaseHash.Some? ==> a.tasks[id].leaseHash.value in issued
    ensures forall id :: id in b.tasks && b.tasks[id].leaseHash.Some? ==>
              b.tasks[id].leaseHash.value in NowIssued(e, issued)
  {
  }

  lemma FinishedStaysFinished(a: Db, b: Db, issued: Option<Token>, k: Ack)
    requires RowsEvolve(a, b, issued) && k.taskId in a.tasks && a.tasks[k.taskId].status == k.status && Terminal(k.status)
    ensures k.taskId in b.tasks && b.tasks[k.taskId].status == k.status
  {
  }

  /** An acknowledged report is one whose task is in the reported status. */
  lemma AcksMeanStatus(db: Db, me: AgentId, window: nat, e: Event, k: Ack)
    requires k in NewAcks(db, me, e)
    ensures k.taskId in Step(db, window, e).tasks && Step(db, window, e).tasks[k.taskId].status == k.status && Terminal(k.status)
  {
    hide CommitAgrees, TotalSize, AllUploaded, LogLeaseHeld, Up;
  }

  /** A cancellation message goes out only for a task that is being canceled. */
  lemma CancelsAreDead(db: Db, me: AgentId, window: nat, e: Event, l: Lease)
    requires l in NewCancels(db, me, e)
    ensures var next := Step(db, window, e);
            Dead(next, l) && l.taskId in next.tasks && next.tasks[l.taskId].leaseHash == Some(l.token)
  {
  }

  lemma ServedTokens(w: World, me: AgentId, window: nat, e: Event, sent: bool)
    requires Inv(w)
    ensures TokensIssued(Served(w, me, window, e, sent))
  {
    var next := Step(w.db, window, e);
    StepEvolves(w.db, window, e);
    RowsKeepIssued(w.db, next, e, w.issued);
    hide DbOk, Step, RowsEvolve, StartsOk, AgentFine, CanceledAreDead, AcksAreTrue, AnswerFits, NewAssignments, NewCancels, NewAcks;
    forall l: Lease | l in NewCancels(w.db, me, e) ensures l.token in NowIssued(e, w.issued) {
      CancelsAreDead(w.db, me, window, e, l);
    }
    forall l: Lease | l in NewAssignments(w.db, me, e) ensures l.token in NowIssued(e, w.issued) {
      AssignmentsAreFresh(w.db, me, e, l);
    }
  }

  lemma ServedStarts(w: World, me: AgentId, window: nat, e: Event, sent: bool)
    requires Inv(w) && (e.ClaimEvent? ==> e.x.token !in w.issued)
    ensures StartsOk(Served(w, me, window, e, sent)) && AgentFine(Served(w, me, window, e, sent))
  {
  }

  lemma ServedDead(w: World, me: AgentId, window: nat, e: Event, sent: bool)
    requires Inv(w) && (e.ClaimEvent? ==> e.x.token !in w.issued)
    ensures CanceledAreDead(Served(w, me, window, e, sent)) && AnswerFits(Served(w, me, window, e, sent))
  {
    var next := Step(w.db, window, e);
    StepEvolves(w.db, window, e);
    hide DbOk, Step, RowsEvolve, Dead, AcksAreTrue, AgentFine, NewCancels;
    forall l: Lease | l.token in w.issued && Dead(w.db, l) ensures Dead(next, l) {
      DeadStaysDead(w.db, next, Issued(e), l);
    }
    forall l: Lease | l in NewCancels(w.db, me, e) ensures Dead(next, l) {
      CancelsAreDead(w.db, me, window, e, l);
    }
  }

  lemma ServedAcks(w: World, me: AgentId, window: nat, e: Event, sent: bool)
    requires Inv(w)
    ensures AcksAreTrue(Served(w, me, window, e, sent))
  {
    var next := Step(w.db, window, e);
    StepEvolves(w.db, window, e);
    hide DbOk, Step, RowsEvolve, TokensIssued, StartsOk, AgentFine, CanceledAreDead, AnswerFits, NewAcks;
    forall k: Ack | k in w.acks ensures k.taskId in next.tasks && next.tasks[k.taskId].status == k.status {
      FinishedStaysFinished(w.db, next, Issued(e), k);
    }
    forall k: Ack | k in NewAcks(w.db, me, e) ensures k.taskId in next.tasks && next.tasks[k.taskId].status == k.status && Terminal(k.status) {
      AcksMeanStatus(w.db, me, window, e, k);
    }
  }

  lemma ServerKeeps(w: World, me: AgentId, window: nat, e: Event, sent: bool)
    requires Inv(w)
    ensures Inv(Next(w, me, window, ServerMove(e, sent)))
  {
    StepKeeps(w.db, window, e);
    hide DbOk, Step, TokensIssued, StartsOk, AgentFine, CanceledAreDead, AcksAreTrue, AnswerFits;
    if !(e.ClaimEvent? && e.x.token in w.issued) {
      ServedTokens(w, me, window, e, sent);
      ServedStarts(w, me, window, e, sent);
      ServedDead(w, me, window, e, sent);
      ServedAcks(w, me, window, e, sent);
    }
  }

  lemma AssignmentsAreFresh(db: Db, me: AgentId, e: Event, l: Lease)
    requires l in NewAssignments(db, me, e)
    ensures e.ClaimEvent? && l.token == e.x.token
  {
  }

  // --- The handshake ---

  /** CANCEL is answered only to the holder of a lease that is being canceled. */
  lemma CancelOnlyCanceling(db: Db, me: AgentId, current: Option<CurrentTask>, capable: bool, now: Time)
    requires Hello(db, me, current, capable, now).decision.Some? && Hello(db, me, current, capable, now).decision.value.action.CANCEL?
    ensures var hello := Hello(db, me, current, capable, now);
            && current.Some? && current.value.taskId.Uuid?
            && current.value.taskId.id in hello.db.tasks && hello.db.tasks[current.value.taskId.id].status == CANCELING
  {
  }

  lemma HelloAnswerFits(w: World, me: AgentId, capable: bool, now: Time)
    requires Inv(w) && w.conn == HelloSent
    ensures var hello := Hello(w.db, me, Reported(w.agent), capable, now);
            AnswerFits(w.(db := hello.db, conn := Answered(hello.decision)))
  {
    var current := Reported(w.agent);
    var hello := Hello(w.db, me, current, capable, now);
    hide DbOk, Hello, TokensIssued, StartsOk, AgentFine, AcksAreTrue;
    if hello.decision.Some? && w.agent.active.Some? {
      if hello.decision.value.action.RESUME? {
        ResumeOnlyRestores(w.db, me, current, capable, now);
      } else if hello.decision.value.action.CANCEL? {
        CancelOnlyCanceling(w.db, me, current, capable, now);
      }
    }
  }

  lemma HelloMoveKeeps(w: World, me: AgentId, window: nat, capable: bool, now: Time)
    requires Inv(w)
    ensures Inv(Next(w, me, window, HelloMove(capable, now)))
  {
    if w.conn == HelloSent {
      var e := HelloEvent(me, Reported(w.agent), capable, now);
      HelloAnswerFits(w, me, capable, now);
      ServedTokens(w, me, window, e, false);
      ServedStarts(w, me, window, e, false);
      ServedDead(w, me, window, e, false);
      ServedAcks(w, me, window, e, false);
      StepKeeps(w.db, window, e);
      assert Served(w, me, window, e, false) == w.(db := Hello(w.db, me, Reported(w.agent), capable, now).db);
      hide DbOk, Hello, Step, Dead, AgentOk, Served;
    }
  }

  // --- Moves of the agent ---

  /** A handler of the active task keeps the invariant, provided it keeps the flags. */
  lemma HandleKeeps(w: World, h: Handled)
    requires Inv(w) && w.agent.active.Some? && !w.conn.Answered?
    requires HandledOk(h, w.agent.active.value.lease, w.starts[w.agent.active.value.lease], w.canceled)
    ensures Inv(Handle(w, h))
  {
  }

  /** So does a handler that finds no task. */
  lemma IdleKeeps(w: World, h: Handled)
    requires Inv(w) && w.agent.active.None? && h.agent.active.None? && !w.conn.Answered?
    ensures Inv(Handle(w, h))
  {
  }

  lemma RecoverKeeps(w: World, me: AgentId, window: nat, x: Env)
    requires Inv(w)
    ensures Inv(Next(w, me, window, RecoverMove(x)))
  {
    hide DbOk, Dead, ResumeActive, HandleCancel, AgentOk, HandledOk;
    if w.conn.Answered? {
      var decision := w.conn.decision;
      if w.agent.active.None? {
        IdleKeeps(w.(conn := Online), HandleRecovery(w.agent, decision, x));
      } else {
        var lease := w.agent.active.value.lease;
        var marked := if decision.Some? && decision.value.action.CANCEL? then w.canceled + {lease} else w.canceled;
        var v := w.(conn := Online, canceled := marked);
        MarkingKeeps(w, marked);
        RecoveryKeepsFlags(w.agent, w.starts[lease], decision, x, w.canceled);
        HandleKeeps(v, HandleRecovery(w.agent, decision, x));
      }
    }
  }

  /** Marking the lease of a CANCEL answer keeps the invariant. */
  lemma MarkingKeeps(w: World, marked: set<Lease>)
    requires Inv(w) && w.conn.Answered? && w.agent.active.Some?
    requires marked == w.canceled
             || (marked == w.canceled + {w.agent.active.value.lease} && w.conn.decision.Some? && w.conn.decision.value.action.CANCEL?)
    ensures Inv(w.(conn := Online, canceled := marked))
  {
  }

  lemma RecoveryKeepsFlags(a: Machine, n: nat, decision: Option<Decision>, x: Env, canceled: set<Lease>)
    requires a.active.Some? && AgentOk(a, n, canceled)
    requires decision.Some? && decision.value.action.RESUME? ==> a.active.value.lease !in canceled
    ensures var marked := if decision.Some? && decision.value.action.CANCEL? then canceled + {a.active.value.lease} else canceled;
            HandledOk(HandleRecovery(a, decision, x), a.active.value.lease, n, marked)
  {
    hide ResumeActive, HandleCancel, FlagsOk;
    var lease := a.active.value.lease;
    QuietKeepsFlags(a, n, canceled);
    if decision.Some? {
      match decision.value.action
      case RESUME(status) => ResumeActiveKeeps(a, n, status == UPLOADING, x, canceled);
      case CANCEL(status) =>
        CancelKeeps(a, n, lease, x, canceled);
        var h := HandleCancel(a, lease, x);
        if h.ok {
          ResumeActiveKeeps(h.agent, n, false, x, canceled + {lease});
        }
      case ABANDON =>
    }
  }

  lemma QuietKeepsFlags(a: Machine, n: nat, canceled: set<Lease>)
    requires a.active.Some? && AgentOk(a, n, canceled)
    ensures HandledOk(Handled(a, false, false), a.active.value.lease, n, canceled)
    ensures HandledOk(Handled(a, false, false), a.active.value.lease, n, canceled + {a.active.value.lease})
  {
  }

  lemma AssignmentMoveKeeps(w: World, me: AgentId, window: nat, lease: Lease, x: Env)
    requires Inv(w)
    ensures Inv(Next(w, me, window, AssignmentMove(lease, x)))
  {
    hide DbOk, Dead;
    if w.conn == Online && lease in w.assignments {
      assert w.starts[lease] == 0;
    }
  }

  lemma CancelMoveKeeps(w: World, me: AgentId, window: nat, lease: Lease, x: Env)
    requires Inv(w)
    ensures Inv(Next(w, me, window, CancelMove(lease, x)))
  {
    hide DbOk, Dead, HandleCancel, HandledOk, FlagsOk;
    if w.conn == Online && lease in w.cancels {
      var v := w.(canceled := w.canceled + {lease});
      MarkedFlags(w, lease);
      assert Inv(v);
      var h := HandleCancel(w.agent, lease, x);
      if w.agent.active.Some? {
        var n := w.starts[w.agent.active.value.lease];
        CancelKeeps(w.agent, n, lease, x, w.canceled);
        MoreCanceled(h, w.agent.active.value.lease, n, w.canceled, lease);
        HandleKeeps(v, h);
      } else {
        IdleCancels(w.agent, lease, x);
        IdleKeeps(v, h);
      }
    }
  }

  lemma MarkedFlags(w: World, lease: Lease)
    requires AgentFine(w)
    ensures AgentFine(w.(canceled := w.canceled + {lease}))
  {
  }

  lemma MoreCanceled(h: Handled, mine: Lease, n: nat, canceled: set<Lease>, lease: Lease)
    requires HandledOk(h, mine, n, if mine == lease then canceled + {lease} else canceled)
    ensures HandledOk(h, mine, n, canceled + {lease})
  {
  }

  lemma IdleCancels(a: Machine, lease: Lease, x: Env)
    requires a.active.None?
    ensures HandleCancel(a, lease, x).agent.active.None?
  {
  }

  /** The handlers of what happens to the active task itself. */
  lemma LocalMoveKeeps(w: World, me: AgentId, window: nat, m: Move)
    requires Inv(w) && (m.AckMove? || m.PreparationMove? || m.FinishedMove? || m.ManifestAckMove? || m.UploadMove?)
    ensures Inv(Next(w, me, window, m))
  {
    hide Inv, Handle, HandlePreparation, HandleFinished, HandleManifestAck, HandleUploadResult, HandleResultAck;
    if w.conn == Online {
      if w.agent.active.Some? {
        var a := w.agent;
        var n := w.starts[a.active.value.lease];
        InvHasFlags(w);
        match m
        case AckMove(ack) => ResultAckKeeps(a, n, w.canceled, ack.taskId, ack.status); HandleKeeps(w, HandleResultAck(a, ack.taskId, ack.status));
        case PreparationMove(lease, result, x) =>
          PreparationKeeps(a, n, lease, result, x, w.canceled);
          HandleKeeps(w, HandlePreparation(a, lease, result, x));
        case FinishedMove(succeeded, x) => CommandEndKeeps(a, n, succeeded, x, w.canceled); HandleKeeps(w, HandleFinished(a, succeeded, x));
        case ManifestAckMove(id, accepted, x) => ManifestAckKeeps(a, n, w.canceled, x, id, accepted); HandleKeeps(w, HandleManifestAck(a, id, accepted, x));
        case UploadMove(uploaded, x) => UploadKeeps(a, n, w.canceled, x, uploaded); HandleKeeps(w, HandleUploadResult(a, uploaded, x));
      } else {
        IdleStaysIdle(w.agent, m);
        match m
        case AckMove(ack) => IdleKeeps(w, HandleResultAck(w.agent, ack.taskId, ack.status));
        case PreparationMove(lease, result, x) => IdleKeeps(w, HandlePreparation(w.agent, lease, result, x));
        case FinishedMove(succeeded, x) => IdleKeeps(w, HandleFinished(w.agent, succeeded, x));
        case ManifestAckMove(id, accepted, x) => IdleKeeps(w, HandleManifestAck(w.agent, id, accepted, x));
        case UploadMove(uploaded, x) => IdleKeeps(w, HandleUploadResult(w.agent, uploaded, x));
      }
    }
  }

  lemma InvHasFlags(w: World)
    requires Inv(w) && w.agent.active.Some?
    ensures AgentOk(w.agent, w.starts[w.agent.active.value.lease], w.canceled)
  {
  }

  lemma IdleStaysIdle(a: Machine, m: Move)
    requires a.active.None?
    ensures match m
            case AckMove(ack) => HandleResultAck(a, ack.taskId, ack.status).agent.active.None?
            case PreparationMove(lease, result, x) => HandlePreparation(a, lease, result, x).agent.active.None?
            case FinishedMove(succeeded, x) => HandleFinished(a, succeeded, x).agent.active.None?
            case ManifestAckMove(id, accepted, x) => HandleManifestAck(a, id, accepted, x).agent.active.None?
            case UploadMove(uploaded, x) => HandleUploadResult(a, uploaded, x).agent.active.None?
            case _ => true
  {
  }

  lemma DropKeeps(w: World, me: AgentId, window: nat, m: Move)
    requires Inv(w) && (m.ConnectMove? || m.DropMove? || m.RestartMove?)
    ensures Inv(Next(w, me, window, m))
  {
    hide DbOk, Dead, AgentOk;
  }

  lemma MoveKeeps(w: World, me: AgentId, window: nat, m: Move)
    requires Inv(w)
    ensures Inv(Next(w, me, window, m))
  {
    hide Inv, Next;
    match m
    case ServerMove(e, sent) => ServerKeeps(w, me, window, e, sent);
    case HelloMove(capable, now) => HelloMoveKeeps(w, me, window, capable, now);
    case RecoverMove(x) => RecoverKeeps(w, me, window, x);
    case AssignmentMove(lease, x) => AssignmentMoveKeeps(w, me, window, lease, x);
    case CancelMove(lease, x) => CancelMoveKeeps(w, me, window, lease, x);
    case ConnectMove => DropKeeps(w, me, window, m);
    case DropMove => DropKeeps(w, me, window, m);
    case RestartMove => DropKeeps(w, me, window, m);
    case _ => LocalMoveKeeps(w, me, window, m);
  }

  // --- Runs ---

  ghost function RunMoves(w: World, me: AgentId, window: nat, moves: seq<Move>): World
    decreases |moves|
  {
    if moves == [] then w else RunMoves(Next(w, me, window, moves[0]), me, window, moves[1..])
  }

  lemma {:induction false} RunMovesKeeps(w: World, me: AgentId, window: nat, moves: seq<Move>)
    requires Inv(w)
    ensures Inv(RunMoves(w, me, window, moves))
    decreases |moves|
  {
    hide Inv, Next;
    if moves != [] {
      MoveKeeps(w, me, window, moves[0]);
      RunMovesKeeps(Next(w, me, window, moves[0]), me, window, moves[1..]);
    }
  }

  /** Over any number of connections, resumptions, cancellations and restarts, whatever the server does meanwhile,
      a command is started at most once under each lease. */
  lemma StartedAtMostOnce(me: AgentId, window: nat, moves: seq<Move>, lease: Lease)
    ensures RunMoves(START, me, window, moves).starts[lease] <= 1
  {
    StartIsFine();
    RunMovesKeeps(START, me, window, moves);
    hide DbOk, RunMoves, AgentOk, Dead;
  }

  /** When a result acknowledgement makes the agent forget its task, the server has ended that task in the very
      status of the agent's result, and no later transaction changes its row. */
  lemma ForgottenTaskHasEnded(w: World, me: AgentId, window: nat, ack: Ack, events: seq<Event>)
    requires Inv(w) && w.agent.active.Some? && Next(w, me, window, AckMove(ack)).agent.active.None?
    ensures var t := w.agent.active.value;
            && t.pending.Some?
            && t.lease.taskId in w.db.tasks && w.db.tasks[t.lease.taskId].status == Expected(t.pending.value)
            && t.lease.taskId in Run(w.db, window, events).tasks
            && Run(w.db, window, events).tasks[t.lease.taskId] == w.db.tasks[t.lease.taskId]
  {
    hide DbOk, Run, Dead, AgentOk;
    FinishedForever(w.db, window, events, ack.taskId);
  }

  /** So it is on every run. */
  lemma ForgottenOnEveryRun(me: AgentId, window: nat, moves: seq<Move>, ack: Ack, events: seq<Event>)
    requires RunMoves(START, me, window, moves).agent.active.Some?
    requires Next(RunMoves(START, me, window, moves), me, window, AckMove(ack)).agent.active.None?
    ensures var w := RunMoves(START, me, window, moves);
            var t := w.agent.active.value;
            && t.pending.Some?
            && t.lease.taskId in w.db.tasks && w.db.tasks[t.lease.taskId].status == Expected(t.pending.value)
            && t.lease.taskId in Run(w.db, window, events).tasks
            && Run(w.db, window, events).tasks[t.lease.taskId] == w.db.tasks[t.lease.taskId]
  {
    StartIsFine();
    RunMovesKeeps(START, me, window, moves);
    ForgottenTaskHasEnded(RunMoves(START, me, window, moves), me, window, ack, events);
    hide RunMoves, Next, Inv, Run;
  }
}
