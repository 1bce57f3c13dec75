/** The agent's handling of its one task: preparation, execution, upload, cancellation and recovery. */
module AgentTask {
  import opened Options
  import opened TaskStatus
  import opened TaskRows

  /** A task under one lease. */
  datatype Lease = Lease(taskId: TaskId, token: Token)

  datatype Pending = PendingCompleted | PendingFailed | PendingCanceled

  /** The flags of the active task; an absent handle, file or value is false. */
  datatype ActiveTask = ActiveTask(
    lease: Lease,
    sourceCommit: bool,
    workspace: bool,
    artifactCleaned: bool,
    inputFilesDownloaded: bool,
    configWritten: bool,
    commandCompleted: bool,
    preparation: bool,
    execution: bool,
    executionCancel: bool,
    manifest: bool,
    upload: bool,
    pending: Option<Pending>)

  /** The agent: its task, and whether it still listens to a command. */
  datatype Machine = Machine(active: Option<ActiveTask>, listening: bool)

  const IDLE := Machine(None, false)

  /** How everything outside turns out while a handler runs: every step that can fail, and every send. */
  datatype Env = Env(
    leaseLive: bool, statusSent: bool, cleaned: bool, downloaded: bool, written: bool,
    leaseLeft: bool, spawned: bool, runningSent: bool, failureSent: bool,
    tailsKept: bool, scanned: bool, manifestFits: bool, manifestSent: bool, resultSent: bool,
    released: bool, cleanupFailed: bool, foundWorkspace: bool)

  /** A handler's result; `ok` is false when it ends the connection, `started` says whether it started the command. */
  datatype Handled = Handled(agent: Machine, ok: bool, started: bool)

  /** The phase the agent reports in its hello. */
  function Phase(t: ActiveTask): Status {
    if t.manifest || t.upload then UPLOADING
    else if t.execution || t.executionCancel then RUNNING
    else PREPARING
  }

  function With(a: Machine, t: ActiveTask): Machine {
    a.(active := Some(t))
  }

  function FailActive(a: Machine, x: Env): Handled
    requires a.active.Some?
  {
    Handled(With(a, a.active.value.(pending := Some(PendingFailed))), x.failureSent, false)
  }

  function NewActive(lease: Lease): ActiveTask {
    ActiveTask(lease, false, false, false, false, false, false, false, false, false, false, false, None)
  }

  /** A busy agent ignores an assignment. */
  function HandleAssignment(a: Machine, lease: Lease, x: Env): Handled {
    if a.active.Some? then Handled(a, true, false)
    else if !x.statusSent then Handled(a, false, false)
    else Handled(With(a, NewActive(lease).(preparation := true)), true, false)
  }

  function Running(a: Machine): Machine
    requires a.active.Some?
  {
    Machine(Some(a.active.value.(execution := true, executionCancel := true)), true)
  }

  /** Starts the command; a failure before the start fails the task, and so does a failure to report it. */
  function StartCommand(a: Machine, x: Env): Handled
    requires a.active.Some?
  {
    if !a.active.value.workspace || !x.leaseLeft || !x.spawned then FailActive(a, x)
    else if x.runningSent then Handled(Running(a), true, true)
    else Handled(FailActive(Running(a), x).agent, x.failureSent, true)
  }

  /** From the prepared workspace to the start of the command. */
  function PrepareAndStart(a: Machine, x: Env): Handled
    requires a.active.Some?
  {
    var prepared := a.active.value.(sourceCommit := true, workspace := true);
    if !x.statusSent then Handled(With(a, prepared), false, false)
    else if !prepared.artifactCleaned && !x.cleaned then FailActive(With(a, prepared), x)
    else MaterializeAndStart(With(a, prepared.(artifactCleaned := true)), x)
  }

  function MaterializeAndStart(a: Machine, x: Env): Handled
    requires a.active.Some?
  {
    if !a.active.value.inputFilesDownloaded && !x.downloaded then FailActive(a, x)
    else
      var ready := a.active.value.(inputFilesDownloaded := true);
      if !x.written then FailActive(With(a, ready), x)
      else StartCommand(With(a, ready.(configWritten := true)), x)
  }

  datatype Preparation = Prepared | Unprepared

  /** The task without its preparation, and with the workspace the preparation may have left. */
  function Unpreparing(t: ActiveTask, found: bool): ActiveTask {
    if found then t.(preparation := false, workspace := true) else t.(preparation := false)
  }

  /** The end of the preparation of this lease's task. */
  function HandlePreparation(a: Machine, lease: Lease, result: Preparation, x: Env): Handled {
    if a.active.None? || a.active.value.lease.taskId != lease.taskId || !a.active.value.preparation then Handled(a, true, false)
    else
      var t := a.active.value;
      if result == Unprepared then FailActive(With(a, Unpreparing(t, x.foundWorkspace)), x)
      else if !x.leaseLive then FailActive(With(a, Unpreparing(t, false)), x)
      else PrepareAndStart(With(a, Unpreparing(t, false)), x)
  }

  function SendManifest(a: Machine, x: Env): Handled
    requires a.active.Some?
  {
    if !x.manifestFits then FailActive(a, x) else Handled(a, x.manifestSent, false)
  }

  /** The end of the command; `succeeded` is exit code zero, in time, with all output read. */
  function HandleFinished(a: Machine, succeeded: bool, x: Env): Handled {
    if !a.listening then Handled(a, true, false)
    else if a.active.None? then Handled(a.(listening := false), true, false)
    else
      var t := a.active.value.(execution := false, commandCompleted := true);
      var done := a.(listening := false, active := Some(t));
      if !x.tailsKept then Handled(done, false, false)
      else if !succeeded then FailActive(done, x)
      else if !x.statusSent || !t.workspace then Handled(done, false, false)
      else if !x.scanned then FailActive(done, x)
      else SendManifest(With(done, t.(manifest := true)), x)
  }

  /** Everything of the task ends, its log tails are flushed, and the confirmation is the result to send. */
  function Stop(a: Machine, x: Env): Handled
    requires a.active.Some?
  {
    var stopped := a.active.value.(upload := false, executionCancel := false, execution := false);
    var quiet := a.(listening := false, active := Some(stopped));
    if !x.tailsKept then Handled(quiet, false, false)
    else if x.cleanupFailed then FailActive(quiet, x)
    else Handled(With(quiet, stopped.(pending := Some(PendingCanceled))), x.resultSent, false)
  }

  /** A cancellation of this lease stops whatever runs and leaves a terminal result to send. */
  function HandleCancel(a: Machine, lease: Lease, x: Env): Handled {
    if a.active.None? || a.active.value.lease != lease then Handled(a, true, false)
    else
      var t := Unpreparing(a.active.value, x.foundWorkspace);
      if x.foundWorkspace && a.active.value.workspace && !x.released then FailActive(With(a, t), x)
      else Stop(With(a, t), x)
  }

  /** After a recovery the task goes on where it stopped: from the upload, or from the start of the command if
      nothing runs and nothing ran. */
  function ResumeActive(a: Machine, uploading: bool, x: Env): Handled {
    if a.active.None? then Handled(a, true, false)
    else
      var t := a.active.value;
      if t.pending.Some? then Handled(a, true, false)
      else if t.commandCompleted then
        if t.upload then Handled(a, true, false)
        else if !uploading && !x.statusSent then Handled(a, false, false)
        else if t.manifest then SendManifest(a, x)
        else if !t.workspace then Handled(a, false, false)
        else if !x.scanned then FailActive(a, x)
        else SendManifest(With(a, t.(manifest := true)), x)
      else if t.sourceCommit && t.workspace && !t.preparation && !t.execution && !t.manifest && !t.upload then
        if t.configWritten then StartCommand(a, x)
        else if !t.artifactCleaned && !x.cleaned then FailActive(a, x)
        else MaterializeAndStart(a, x)
      else Handled(a, true, false)
  }

  /** The server's decision after a hello with a task, and what follows it. */
  function HandleRecovery(a: Machine, decision: Option<Decision>, x: Env): Handled {
    if a.active.None? then Handled(a, true, false)
    else
      var t := a.active.value;
      if decision.None? || decision.value.taskId != t.lease.taskId then Handled(a, false, false)
      else
        match decision.value.action
        case RESUME(status) => if status != Phase(t) then Handled(a, false, false) else ResumeActive(a, status == UPLOADING, x)
        case CANCEL(status) =>
          if status != Phase(t) then Handled(a, false, false)
          else
            var canceled := HandleCancel(a, t.lease, x);
            if !canceled.ok then canceled else ResumeActive(canceled.agent, false, x)
        case ABANDON => Handled(a.(active := None, listening := false), true, false)
  }

  function HandleManifestAck(a: Machine, id: TaskId, accepted: bool, x: Env): Handled {
    if a.active.None? then Handled(a, true, false)
    else
      var t := a.active.value;
      if t.lease.taskId != id || !t.manifest then Handled(a, false, false)
      else if !accepted then FailActive(a, x)
      else Handled(With(a, t.(upload := true)), true, false)
  }

  function HandleUploadResult(a: Machine, uploaded: bool, x: Env): Handled {
    if a.active.None? || !a.active.value.upload then Handled(a, true, false)
    else
      var t := a.active.value.(upload := false);
      if !uploaded then FailActive(With(a, t), x)
      else if !t.manifest then Handled(With(a, t), false, false)
      else Handled(With(a, t.(pending := Some(PendingCompleted))), x.resultSent, false)
  }

  /** The status the server must confirm before the agent forgets a task. */
  function Expected(p: Pending): Status {
    match p case PendingCompleted => SUCCEEDED case PendingFailed => FAILED case PendingCanceled => CANCELED
  }

  function HandleResultAck(a: Machine, id: TaskId, status: Status): Handled {
    if a.active.None? then Handled(a, true, false)
    else
      var t := a.active.value;
      if t.lease.taskId != id then Handled(a, false, false)
      else if t.pending.None? then Handled(a, true, false)
      else if status != Expected(t.pending.value) then Handled(a, false, false)
      else Handled(a.(active := None), true, false)
  }

  // --- What the flags exclude ---

  /** Of a task whose lease was started `n` times. A preparation ends in the first start. Once started, nothing but
      a cancellation cut short (its lease is among `canceled`) leaves the flags open for a second start. */
  ghost predicate FlagsOk(t: ActiveTask, n: nat, canceled: set<Lease>) {
    && (t.preparation ==> n == 0)
    && (n > 0 ==> t.execution || t.commandCompleted || t.pending.Some? || t.lease in canceled)
  }

  /** `n` is how often the command of the active lease was started. */
  ghost predicate AgentOk(a: Machine, n: nat, canceled: set<Lease>) {
    a.active.Some? ==> FlagsOk(a.active.value, n, canceled)
  }

  /** A handler of this lease starts its command only if it was never started, and keeps the flags right. */
  ghost predicate HandledOk(h: Handled, lease: Lease, n: nat, canceled: set<Lease>) {
    && (h.started ==> n == 0)
    && (h.agent.active.Some? ==> h.agent.active.value.lease == lease)
    && AgentOk(h.agent, if h.started then n + 1 else n, canceled)
  }

  /** A task whose preparation is over and whose lease was never started. */
  ghost predicate Startable(a: Machine, n: nat) {
    a.active.Some? && n == 0 && !a.active.value.preparation
  }

  lemma FailKeeps(a: Machine, n: nat, x: Env, canceled: set<Lease>)
    requires a.active.Some? && (a.active.value.preparation ==> n == 0)
    ensures HandledOk(FailActive(a, x), a.active.value.lease, n, canceled)
  {
  }

  /** A first start keeps the order; one that fails early does not count as a start. */
  lemma StartKeeps(a: Machine, n: nat, x: Env, canceled: set<Lease>)
    requires Startable(a, n)
    ensures HandledOk(StartCommand(a, x), a.active.value.lease, n, canceled)
  {
    FailKeeps(a, n, x, canceled);
    RunningKeeps(a, n, x, canceled);
    hide FailActive, Running, AgentOk;
  }

  lemma RunningKeeps(a: Machine, n: nat, x: Env, canceled: set<Lease>)
    requires Startable(a, n)
    ensures AgentOk(Running(a), n + 1, canceled) && AgentOk(FailActive(Running(a), x).agent, n + 1, canceled)
    ensures Running(a).active.Some? && Running(a).active.value.lease == a.active.value.lease
    ensures FailActive(Running(a), x).agent.active.Some? && FailActive(Running(a), x).agent.active.value.lease == a.active.value.lease
    ensures !FailActive(a, x).started
  {
  }

  lemma MaterializeKeeps(a: Machine, n: nat, x: Env, canceled: set<Lease>)
    requires Startable(a, n)
    ensures HandledOk(MaterializeAndStart(a, x), a.active.value.lease, n, canceled)
  {
    hide StartCommand, FailActive, HandledOk;
    FailKeeps(a, n, x, canceled);
    var ready := a.active.value.(inputFilesDownloaded := true);
    FailKeeps(With(a, ready), n, x, canceled);
    StartKeeps(With(a, ready.(configWritten := true)), n, x, canceled);
  }

  lemma PrepareKeeps(a: Machine, n: nat, x: Env, canceled: set<Lease>)
    requires Startable(a, n)
    ensures HandledOk(PrepareAndStart(a, x), a.active.value.lease, n, canceled)
  {
    hide MaterializeAndStart, FailActive;
    var prepared := a.active.value.(sourceCommit := true, workspace := true);
    FailKeeps(With(a, prepared), n, x, canceled);
    MaterializeKeeps(With(a, prepared.(artifactCleaned := true)), n, x, canceled);
  }

  lemma PreparationKeeps(a: Machine, n: nat, lease: Lease, result: Preparation, x: Env, canceled: set<Lease>)
    requires a.active.Some? && AgentOk(a, n, canceled)
    ensures HandledOk(HandlePreparation(a, lease, result, x), a.active.value.lease, n, canceled)
  {
    hide PrepareAndStart, FailActive;
    if a.active.value.preparation {
      var t := a.active.value;
      FailKeeps(With(a, Unpreparing(t, x.foundWorkspace)), n, x, canceled);
      FailKeeps(With(a, Unpreparing(t, false)), n, x, canceled);
      PrepareKeeps(With(a, Unpreparing(t, false)), n, x, canceled);
    }
  }

  /** A resumed task that was not canceled is started only if it never was. */
  lemma ResumeActiveKeeps(a: Machine, n: nat, uploading: bool, x: Env, canceled: set<Lease>)
    requires a.active.Some? && AgentOk(a, n, canceled) && (a.active.value.pending.None? ==> a.active.value.lease !in canceled)
    ensures HandledOk(ResumeActive(a, uploading, x), a.active.value.lease, n, canceled)
  {
    hide StartCommand, MaterializeAndStart, FailActive;
    var t := a.active.value;
    FailKeeps(a, n, x, canceled);
    FailKeeps(With(a, t.(manifest := true)), n, x, canceled);
    if t.pending.None? && !t.commandCompleted && !t.preparation && !t.execution {
      StartKeeps(a, n, x, canceled);
      MaterializeKeeps(a, n, x, canceled);
    }
  }

  /** A handler that starts nothing leaves the flags right if they are right for its task. */
  lemma QuietKeeps(a: Machine, n: nat, ok: bool, canceled: set<Lease>)
    requires a.active.Some? && FlagsOk(a.active.value, n, canceled)
    ensures HandledOk(Handled(a, ok, false), a.active.value.lease, n, canceled)
  {
  }

  lemma SendKeeps(a: Machine, n: nat, x: Env, canceled: set<Lease>)
    requires a.active.Some? && FlagsOk(a.active.value, n, canceled)
    ensures HandledOk(SendManifest(a, x), a.active.value.lease, n, canceled) && !SendManifest(a, x).started
  {
  }

  lemma FailStartsNothing(a: Machine, x: Env)
    requires a.active.Some?
    ensures !FailActive(a, x).started && FailActive(a, x).agent.active.Some?
            && FailActive(a, x).agent.active.value.pending.Some? && FailActive(a, x).ok == x.failureSent
  {
  }

  lemma StopKeeps(a: Machine, n: nat, x: Env, canceled: set<Lease>)
    requires a.active.Some? && !a.active.value.preparation && a.active.value.lease in canceled
    ensures HandledOk(Stop(a, x), a.active.value.lease, n, canceled) && !Stop(a, x).started
    ensures Stop(a, x).ok ==> Stop(a, x).agent.active.Some? && Stop(a, x).agent.active.value.pending.Some?
  {
  }

  lemma UnpreparingShape(t: ActiveTask, found: bool)
    ensures var u := Unpreparing(t, found);
            u.lease == t.lease && !u.preparation
  {
  }

  /** A canceled lease may look startable again, but is marked as canceled. */
  lemma CancelKeeps(a: Machine, n: nat, lease: Lease, x: Env, canceled: set<Lease>)
    requires a.active.Some? && AgentOk(a, n, canceled)
    ensures var handled := HandleCancel(a, lease, x);
            var mine := a.active.value.lease == lease;
            && HandledOk(handled, a.active.value.lease, n, if mine then canceled + {lease} else canceled) && !handled.started
            && (handled.ok && mine ==> handled.agent.active.Some? && handled.agent.active.value.pending.Some?)
  {
    hide FailActive, HandledOk, Stop, Unpreparing;
    QuietKeeps(a, n, true, canceled);
    if a.active.value.lease == lease {
      UnpreparingShape(a.active.value, x.foundWorkspace);
      var taken := With(a, Unpreparing(a.active.value, x.foundWorkspace));
      FailKeeps(taken, n, x, canceled + {lease});
      FailStartsNothing(taken, x);
      StopKeeps(taken, n, x, canceled + {lease});
    }
  }

  lemma CommandEndKeeps(a: Machine, n: nat, succeeded: bool, x: Env, canceled: set<Lease>)
    requires a.active.Some? && AgentOk(a, n, canceled)
    ensures HandledOk(HandleFinished(a, succeeded, x), a.active.value.lease, n, canceled) && !HandleFinished(a, succeeded, x).started
  {
    hide FailActive, HandledOk, SendManifest;
    var t := a.active.value.(execution := false, commandCompleted := true);
    var done := a.(listening := false, active := Some(t));
    QuietKeeps(a, n, true, canceled);
    QuietKeeps(done, n, false, canceled);
    FailKeeps(done, n, x, canceled);
    FailStartsNothing(done, x);
    SendKeeps(With(done, t.(manifest := true)), n, x, canceled);
  }

  lemma ManifestAckKeeps(a: Machine, n: nat, canceled: set<Lease>, x: Env, id: TaskId, accepted: bool)
    requires a.active.Some? && AgentOk(a, n, canceled)
    ensures HandledOk(HandleManifestAck(a, id, accepted, x), a.active.value.lease, n, canceled) && !HandleManifestAck(a, id, accepted, x).started
  {
    hide FailActive, HandledOk;
    QuietKeeps(a, n, true, canceled);
    QuietKeeps(a, n, false, canceled);
    QuietKeeps(With(a, a.active.value.(upload := true)), n, true, canceled);
    FailKeeps(a, n, x, canceled);
    FailStartsNothing(a, x);
  }

  lemma UploadKeeps(a: Machine, n: nat, canceled: set<Lease>, x: Env, uploaded: bool)
    requires a.active.Some? && AgentOk(a, n, canceled)
    ensures HandledOk(HandleUploadResult(a, uploaded, x), a.active.value.lease, n, canceled) && !HandleUploadResult(a, uploaded, x).started
  {
  }

  lemma ResultAckKeeps(a: Machine, n: nat, canceled: set<Lease>, id: TaskId, status: Status)
    requires a.active.Some? && AgentOk(a, n, canceled)
    ensures HandledOk(HandleResultAck(a, id, status), a.active.value.lease, n, canceled) && !HandleResultAck(a, id, status).started
  {
  }

  // --- The agent, field by field ---

  /** The start counts after a handler of the agent. */
  ghost function Counted(starts: multiset<Lease>, active: Option<ActiveTask>, started: bool): multiset<Lease> {
    if started && active.Some? then starts[active.value.lease := starts[active.value.lease] + 1] else starts
  }

  /** No lease was started twice, and the flags of the active task say whether its lease was started. */
  ghost predicate MachineOk(a: Machine, starts: multiset<Lease>, canceled: set<Lease>) {
    && (forall l {:trigger starts[l]} :: starts[l] <= 1)
    && (a.active.Some? ==> AgentOk(a, starts[a.active.value.lease], canceled))
  }

  lemma CountedKeeps(a: Machine, h: Handled, starts: multiset<Lease>, before: set<Lease>, canceled: set<Lease>)
    requires MachineOk(a, starts, before)
    requires a.active.Some? ==> HandledOk(h, a.active.value.lease, starts[a.active.value.lease], canceled)
    requires a.active.None? ==> h.agent.active.None?
    ensures MachineOk(h.agent, Counted(starts, a.active, h.started), canceled)
  {
    hide AgentOk;
  }

  lemma Abandoned(a: Machine, starts: multiset<Lease>, canceled: set<Lease>)
    requires MachineOk(a, starts, canceled)
    ensures MachineOk(IDLE, starts, canceled)
  {
  }

  lemma AssignCounts(a: Machine, lease: Lease, x: Env, starts: multiset<Lease>, canceled: set<Lease>)
    requires MachineOk(a, starts, canceled) && starts[lease] == 0
    ensures MachineOk(HandleAssignment(a, lease, x).agent, starts, canceled) && !HandleAssignment(a, lease, x).started
  {
  }

  lemma PreparationCounts(a: Machine, lease: Lease, result: Preparation, x: Env, starts: multiset<Lease>, canceled: set<Lease>)
    requires MachineOk(a, starts, canceled)
    ensures var h := HandlePreparation(a, lease, result, x);
            MachineOk(h.agent, Counted(starts, a.active, h.started), canceled)
  {
    if a.active.Some? {
      PreparationKeeps(a, starts[a.active.value.lease], lease, result, x, canceled);
      CountedKeeps(a, HandlePreparation(a, lease, result, x), starts, canceled, canceled);
    }
    hide PrepareAndStart, AgentOk;
  }

  lemma FinishedCounts(a: Machine, succeeded: bool, x: Env, starts: multiset<Lease>, canceled: set<Lease>)
    requires MachineOk(a, starts, canceled)
    ensures MachineOk(HandleFinished(a, succeeded, x).agent, starts, canceled) && !HandleFinished(a, succeeded, x).started
  {
    if a.active.Some? {
      CommandEndKeeps(a, starts[a.active.value.lease], succeeded, x, canceled);
      CountedKeeps(a, HandleFinished(a, succeeded, x), starts, canceled, canceled);
      hide HandleFinished;
    }
    hide AgentOk, FailActive, SendManifest;
  }

  lemma CancelCounts(a: Machine, lease: Lease, x: Env, starts: multiset<Lease>, canceled: set<Lease>)
    requires MachineOk(a, starts, canceled)
    ensures var h := HandleCancel(a, lease, x);
            && MachineOk(h.agent, starts, canceled + {lease}) && !h.started
            && (h.agent.active.Some? ==> a.active.Some? && h.agent.active.value.lease == a.active.value.lease)
            && (h.ok && a.active.Some? && a.active.value.lease == lease ==> h.agent.active.Some? && h.agent.active.value.pending.Some?)
  {
    if a.active.Some? && a.active.value.lease == lease {
      CancelKeeps(a, starts[lease], lease, x, canceled);
      CountedKeeps(a, HandleCancel(a, lease, x), starts, canceled, canceled + {lease});
      hide HandleCancel;
    }
  }

  lemma ResumeCounts(a: Machine, uploading: bool, x: Env, starts: multiset<Lease>, canceled: set<Lease>)
    requires MachineOk(a, starts, canceled)
    requires a.active.Some? && a.active.value.pending.None? ==> a.active.value.lease !in canceled
    ensures var h := ResumeActive(a, uploading, x);
            MachineOk(h.agent, Counted(starts, a.active, h.started), canceled)
  {
    if a.active.Some? {
      ResumeActiveKeeps(a, starts[a.active.value.lease], uploading, x, canceled);
      CountedKeeps(a, ResumeActive(a, uploading, x), starts, canceled, canceled);
      hide ResumeActive;
    }
    hide AgentOk, StartCommand, MaterializeAndStart, SendManifest, FailActive;
  }

  lemma ManifestAckCounts(a: Machine, id: TaskId, accepted: bool, x: Env, starts: multiset<Lease>, canceled: set<Lease>)
    requires MachineOk(a, starts, canceled)
    ensures MachineOk(HandleManifestAck(a, id, accepted, x).agent, starts, canceled) && !HandleManifestAck(a, id, accepted, x).started
  {
    if a.active.Some? {
      ManifestAckKeeps(a, starts[a.active.value.lease], canceled, x, id, accepted);
      CountedKeeps(a, HandleManifestAck(a, id, accepted, x), starts, canceled, canceled);
      hide HandleManifestAck;
    }
    hide AgentOk, FailActive;
  }

  lemma UploadCounts(a: Machine, uploaded: bool, x: Env, starts: multiset<Lease>, canceled: set<Lease>)
    requires MachineOk(a, starts, canceled)
    ensures MachineOk(HandleUploadResult(a, uploaded, x).agent, starts, canceled) && !HandleUploadResult(a, uploaded, x).started
  {
    if a.active.Some? {
      UploadKeeps(a, starts[a.active.value.lease], canceled, x, uploaded);
      CountedKeeps(a, HandleUploadResult(a, uploaded, x), starts, canceled, canceled);
      hide HandleUploadResult;
    }
    hide AgentOk, FailActive;
  }

  lemma ResultAckCounts(a: Machine, id: TaskId, status: Status, starts: multiset<Lease>, canceled: set<Lease>)
    requires MachineOk(a, starts, canceled)
    ensures MachineOk(HandleResultAck(a, id, status).agent, starts, canceled) && !HandleResultAck(a, id, status).started
  {
    if a.active.Some? {
      ResultAckKeeps(a, starts[a.active.value.lease], canceled, id, status);
      CountedKeeps(a, HandleResultAck(a, id, status), starts, canceled, canceled);
    }
    hide AgentOk;
  }

  class Agent {
    var active: Option<ActiveTask>
    var listening: bool
    /** How often a command was started under each lease, and the leases the agent was told to cancel. */
    ghost var starts: multiset<Lease>
    ghost var canceled: set<Lease>

    ghost predicate Valid()
      reads this
    {
      MachineOk(View(), starts, canceled)
    }

    ghost function View(): Machine
      reads `active, `listening
    {
      Machine(active, listening)
    }

    constructor ()
      ensures Valid() && View() == IDLE && starts == multiset{} && canceled == {}
    {
      active, listening, starts, canceled := None, false, multiset{}, {};
    }

    method FailActiveTask(x: Env) returns (ok: bool, ghost started: bool)
      requires active.Some?
      modifies `active, `listening
      ensures Handled(View(), ok, started) == FailActive(old(View()), x)
    {
      active := Some(active.value.(pending := Some(PendingFailed)));
      ok, started := x.failureSent, false;
    }

    /** The server gives no lease out twice. */
    method Assign(lease: Lease, x: Env) returns (ok: bool, ghost started: bool)
      requires Valid() && starts[lease] == 0
      modifies `active, `listening
      ensures Valid() && Handled(View(), ok, started) == HandleAssignment(old(View()), lease, x)
    {
      AssignCounts(View(), lease, x, starts, canceled);
      hide MachineOk;
      if active.Some? {
        return true, false;
      }
      active := Some(NewActive(lease));
      if !x.statusSent {
        active := None;
        return false, false;
      }
      active := Some(active.value.(preparation := true));
      ok, started := true, false;
    }

    method StartActiveCommand(x: Env) returns (ok: bool, ghost started: bool)
      requires active.Some?
      modifies `active, `listening
      ensures Handled(View(), ok, started) == StartCommand(old(View()), x)
    {
      if !active.value.workspace || !x.leaseLeft || !x.spawned {
        ok, started := FailActiveTask(x);
        return;
      }
      listening := true;
      active := Some(active.value.(execution := true, executionCancel := true));
      if !x.runningSent {
        ok, started := FailActiveTask(x);
        started := true;
        return;
      }
      ok, started := true, true;
    }

    method Materialize(x: Env) returns (ok: bool, ghost started: bool)
      requires active.Some?
      modifies `active, `listening
      ensures Handled(View(), ok, started) == MaterializeAndStart(old(View()), x)
    {
      hide StartCommand, FailActive;
      if !active.value.inputFilesDownloaded {
        if !x.downloaded {
          ok, started := FailActiveTask(x);
          return;
        }
        active := Some(active.value.(inputFilesDownloaded := true));
      }
      if !x.written {
        ok, started := FailActiveTask(x);
        return;
      }
      active := Some(active.value.(configWritten := true));
      ok, started := StartActiveCommand(x);
    }

    /** The steps between the end of the preparation and the start. */
    method Prepare(x: Env) returns (ok: bool, ghost started: bool)
      requires active.Some?
      modifies `active, `listening
      ensures Handled(View(), ok, started) == PrepareAndStart(old(View()), x)
    {
      hide MaterializeAndStart;
      active := Some(active.value.(sourceCommit := true, workspace := true));
      if !x.statusSent {
        return false, false;
      }
      if !active.value.artifactCleaned {
        if !x.cleaned {
          ok, started := FailActiveTask(x);
          return;
        }
        active := Some(active.value.(artifactCleaned := true));
      }
      ok, started := Materialize(x);
    }

    /** Takes the preparation out of the task and keeps a workspace it left. */
    method TakePreparation(found: bool)
      requires active.Some?
      modifies `active, `listening
      ensures View() == With(old(View()), Unpreparing(old(active).value, found))
    {
      active := Some(active.value.(preparation := false));
      if found && !active.value.workspace {
        active := Some(active.value.(workspace := true));
      }
    }

    method PreparationEnded(lease: Lease, result: Preparation, x: Env) returns (ok: bool, ghost started: bool)
      requires Valid()
      modifies `active, `listening, `starts
      ensures Valid() && starts == Counted(old(starts), old(active), started)
      ensures Handled(View(), ok, started) == HandlePreparation(old(View()), lease, result, x)
    {
      hide MachineOk, Counted, HandlePreparation;
      PreparationCounts(View(), lease, result, x, starts, canceled);
      ok, started := EndPreparation(lease, result, x);
      starts := Counted(starts, old(active), started);
    }

    method EndPreparation(lease: Lease, result: Preparation, x: Env) returns (ok: bool, ghost started: bool)
      modifies `active, `listening
      ensures Handled(View(), ok, started) == HandlePreparation(old(View()), lease, result, x)
    {
      hide PrepareAndStart, FailActive, Unpreparing;
      if active.None? || active.value.lease.taskId != lease.taskId || !active.value.preparation {
        return true, false;
      }
      if result == Unprepared {
        TakePreparation(x.foundWorkspace);
        ok, started := FailActiveTask(x);
        return;
      }
      TakePreparation(false);
      if !x.leaseLive {
        ok, started := FailActiveTask(x);
        return;
      }
      ok, started := Prepare(x);
    }

    method SendArtifactManifest(x: Env) returns (ok: bool, ghost started: bool)
      requires active.Some?
      modifies `active, `listening
      ensures Handled(View(), ok, started) == SendManifest(old(View()), x)
    {
      if !x.manifestFits {
        ok, started := FailActiveTask(x);
        return;
      }
      ok, started := x.manifestSent, false;
    }

    method CommandFinished(succeeded: bool, x: Env) returns (ok: bool, ghost started: bool)
      requires Valid()
      modifies `active, `listening
      ensures Valid() && Handled(View(), ok, started) == HandleFinished(old(View()), succeeded, x)
    {
      FinishedCounts(View(), succeeded, x, starts, canceled);
      hide MachineOk;
      if !listening {
        return true, false;
      }
      listening := false;
      if active.None? {
        return true, false;
      }
      active := Some(active.value.(execution := false, commandCompleted := true));
      if !x.tailsKept {
        return false, false;
      }
      if !succeeded {
        ok, started := FailActiveTask(x);
        return;
      }
      if !x.statusSent {
        return false, false;
      }
      if !active.value.workspace {
        return false, false;
      }
      if !x.scanned {
        ok, started := FailActiveTask(x);
        return;
      }
      active := Some(active.value.(manifest := true));
      ok, started := SendArtifactManifest(x);
    }

    /** Stops upload and command, flushes the log tails, and leaves the result to send. */
    method StopAll(x: Env) returns (ok: bool, ghost started: bool)
      requires active.Some?
      modifies `active, `listening
      ensures Handled(View(), ok, started) == Stop(old(View()), x)
    {
      active := Some(active.value.(upload := false));
      active := Some(active.value.(executionCancel := false));
      listening := false;
      active := Some(active.value.(execution := false));
      if !x.tailsKept {
        return false, false;
      }
      if x.cleanupFailed {
        ok, started := FailActiveTask(x);
        return;
      }
      active := Some(active.value.(pending := Some(PendingCanceled)));
      ok, started := x.resultSent, false;
    }

    method Cancel(lease: Lease, x: Env) returns (ok: bool, ghost started: bool)
      requires Valid()
      modifies `active, `listening, `canceled
      ensures Valid() && canceled == old(canceled) + {lease}
      ensures Handled(View(), ok, started) == HandleCancel(old(View()), lease, x)
    {
      CancelCounts(View(), lease, x, starts, canceled);
      canceled := canceled + {lease};
      hide Stop, FailActive, Unpreparing, MachineOk;
      if active.None? || active.value.lease != lease {
        return true, false;
      }
      var hadWorkspace := active.value.workspace;
      TakePreparation(x.foundWorkspace);
      if x.foundWorkspace && hadWorkspace && !x.released {
        ok, started := FailActiveTask(x);
        return;
      }
      ok, started := StopAll(x);
    }

    /** Nothing but a result is resumed of a task the agent was told to cancel. */
    method Resume(uploading: bool, x: Env) returns (ok: bool, ghost started: bool)
      requires Valid() && (active.Some? && active.value.pending.None? ==> active.value.lease !in canceled)
      modifies `active, `listening, `starts
      ensures Valid() && starts == Counted(old(starts), old(active), started)
      ensures Handled(View(), ok, started) == ResumeActive(old(View()), uploading, x)
    {
      hide MachineOk, Counted, ResumeActive;
      ResumeCounts(View(), uploading, x, starts, canceled);
      ok, started := ResumeStopped(uploading, x);
      starts := Counted(starts, old(active), started);
    }

    method ResumeStopped(uploading: bool, x: Env) returns (ok: bool, ghost started: bool)
      modifies `active, `listening
      ensures Handled(View(), ok, started) == ResumeActive(old(View()), uploading, x)
    {
      hide StartCommand, MaterializeAndStart, SendManifest, FailActive;
      if active.None? || active.value.pending.Some? {
        return true, false;
      }
      if active.value.commandCompleted {
        if active.value.upload {
          return true, false;
        }
        if !uploading && !x.statusSent {
          return false, false;
        }
        if !active.value.manifest {
          if !active.value.workspace {
            return false, false;
          }
          if !x.scanned {
            ok, started := FailActiveTask(x);
            return;
          }
          active := Some(active.value.(manifest := true));
        }
        ok, started := SendArtifactManifest(x);
        return;
      }
      if active.value.sourceCommit && active.value.workspace && !active.value.preparation && !active.value.execution
         && !active.value.manifest && !active.value.upload {
        if !active.value.configWritten {
          if !active.value.artifactCleaned && !x.cleaned {
            ok, started := FailActiveTask(x);
            return;
          }
          ok, started := Materialize(x);
          return;
        }
        ok, started := StartActiveCommand(x);
        return;
      }
      ok, started := true, false;
    }

    /** The server answers RESUME only for a lease it did not cancel. */
    method Recover(decision: Option<Decision>, x: Env) returns (ok: bool, ghost started: bool)
      requires Valid()
      requires active.Some? && decision.Some? && decision.value.action.RESUME? ==> active.value.lease !in canceled
      modifies this
      ensures Valid() && starts == Counted(old(starts), old(active), started) && old(canceled) <= canceled
      ensures Handled(View(), ok, started) == HandleRecovery(old(View()), decision, x)
    {
      if active.Some? {
        CancelCounts(View(), active.value.lease, x, starts, canceled);
      }
      Abandoned(View(), starts, canceled);
      hide ResumeActive, HandleCancel, MachineOk;
      if active.None? {
        return true, false;
      }
      if decision.None? || decision.value.taskId != active.value.lease.taskId {
        return false, false;
      }
      match decision.value.action {
        case RESUME(status) =>
          if status != Phase(active.value) {
            return false, false;
          }
          ok, started := Resume(status == UPLOADING, x);
        case CANCEL(status) =>
          if status != Phase(active.value) {
            return false, false;
          }
          ok, started := Cancel(active.value.lease, x);
          if ok {
            ok, started := Resume(false, x);
          }
        case ABANDON =>
          active, listening := None, false;
          ok, started := true, false;
      }
    }

    method ManifestAcknowledged(id: TaskId, accepted: bool, x: Env) returns (ok: bool, ghost started: bool)
      requires Valid()
      modifies `active, `listening
      ensures Valid() && Handled(View(), ok, started) == HandleManifestAck(old(View()), id, accepted, x)
    {
      ManifestAckCounts(View(), id, accepted, x, starts, canceled);
      hide MachineOk;
      if active.None? {
        return true, false;
      }
      if active.value.lease.taskId != id || !active.value.manifest {
        return false, false;
      }
      if !accepted {
        ok, started := FailActiveTask(x);
        return;
      }
      if !active.value.upload {
        active := Some(active.value.(upload := true));
      }
      ok, started := true, false;
    }

    method UploadEnded(uploaded: bool, x: Env) returns (ok: bool, ghost started: bool)
      requires Valid()
      modifies `active, `listening
      ensures Valid() && Handled(View(), ok, started) == HandleUploadResult(old(View()), uploaded, x)
    {
      UploadCounts(View(), uploaded, x, starts, canceled);
      hide MachineOk;
      if active.None? || !active.value.upload {
        return true, false;
      }
      active := Some(active.value.(upload := false));
      if !uploaded {
        ok, started := FailActiveTask(x);
        return;
      }
      if !active.value.manifest {
        return false, false;
      }
      active := Some(active.value.(pending := Some(PendingCompleted)));
      ok, started := x.resultSent, false;
    }

    method ResultAcknowledged(id: TaskId, status: Status) returns (ok: bool, ghost started: bool)
      requires Valid()
      modifies `active, `listening
      ensures Valid() && Handled(View(), ok, started) == HandleResultAck(old(View()), id, status)
    {
      ResultAckCounts(View(), id, status, starts, canceled);
      hide MachineOk;
      if active.None? {
        return true, false;
      }
      if active.value.lease.taskId != id {
        return false, false;
      }
      if active.value.pending.None? {
        return true, false;
      }
      if status != Expected(active.value.pending.value) {
        return false, false;
      }
      active := None;
      ok, started := true, false;
    }
  }
}
