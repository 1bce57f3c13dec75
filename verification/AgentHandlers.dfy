/** What each handler of the agent does, exactly: when it starts, stops, fails, completes or forgets its task. */
module AgentHandlers {
  import opened Options
  import opened TaskStatus
  import opened TaskRows
  import opened AgentTask

  // --- Exactly when a command is started or stopped ---

  /** Everything between the prepared workspace and the command turns out well. */
  predicate ReachesCommand(t: ActiveTask, x: Env) {
    && (t.artifactCleaned || x.cleaned) && (t.inputFilesDownloaded || x.downloaded) && x.written && x.leaseLeft && x.spawned
  }

  lemma NothingStarts(a: Machine, x: Env)
    requires a.active.Some?
    ensures !FailActive(a, x).started && !SendManifest(a, x).started
    ensures FailActive(a, x).agent == a.(active := Some(a.active.value.(pending := Some(PendingFailed))))
  {
  }

  /** The command runs, with the result the task had; or the task has failed. */
  ghost predicate RunsOrFails(a: Machine, h: Handled, x: Env) {
    && a.active.Some? && h.agent.active.Some?
    && if h.started then h.agent.listening && h.agent.active.value.execution && (x.runningSent ==> h.agent.active.value.pending == a.active.value.pending)
       else h.agent.listening == a.listening && h.agent.active.value.pending == Some(PendingFailed)
  }

  lemma StartCommandExactly(a: Machine, x: Env)
    requires a.active.Some?
    ensures StartCommand(a, x).started <==> a.active.value.workspace && x.leaseLeft && x.spawned
    ensures RunsOrFails(a, StartCommand(a, x), x)
  {
  }

  /** Of the same task, as far as result and command go. */
  ghost predicate Alike(a: Machine, b: Machine) {
    && a.active.Some? && b.active.Some? && b.listening == a.listening && b.active.value.pending == a.active.value.pending
  }

  lemma AlikeFails(a: Machine, b: Machine, x: Env)
    requires Alike(a, b)
    ensures RunsOrFails(a, FailActive(b, x), x)
  {
  }

  lemma AlikeRuns(a: Machine, b: Machine, h: Handled, x: Env)
    requires Alike(a, b) && RunsOrFails(b, h, x)
    ensures RunsOrFails(a, h, x)
  {
  }

  lemma MaterializeIs(a: Machine, x: Env)
    requires a.active.Some?
    ensures var t := a.active.value;
            var ready := t.(inputFilesDownloaded := true);
            MaterializeAndStart(a, x) == (if !t.inputFilesDownloaded && !x.downloaded then FailActive(a, x)
                                          else if !x.written then FailActive(With(a, ready), x)
                                          else StartCommand(With(a, ready.(configWritten := true)), x))
  {
    hide FailActive, StartCommand, With;
  }

  lemma WithAlike(a: Machine, t: ActiveTask)
    requires a.active.Some? && t.pending == a.active.value.pending
    ensures Alike(a, With(a, t)) && With(a, t).active == Some(t) && Alike(a, a)
  {
  }

  lemma MaterializeExactly(a: Machine, x: Env)
    requires a.active.Some? && a.active.value.workspace
    ensures MaterializeAndStart(a, x).started <==> (a.active.value.inputFilesDownloaded || x.downloaded) && x.written && x.leaseLeft && x.spawned
    ensures RunsOrFails(a, MaterializeAndStart(a, x), x)
  {
    hide *;
    var ready := a.active.value.(inputFilesDownloaded := true);
    var written := ready.(configWritten := true);
    MaterializeIs(a, x);
    WithAlike(a, ready);
    WithAlike(a, written);
    NothingStarts(a, x);
    NothingStarts(With(a, ready), x);
    AlikeFails(a, a, x);
    AlikeFails(a, With(a, ready), x);
    StartCommandExactly(With(a, written), x);
    AlikeRuns(a, With(a, written), StartCommand(With(a, written), x), x);
  }

  lemma PrepareIs(a: Machine, x: Env)
    requires a.active.Some?
    ensures var prepared := a.active.value.(sourceCommit := true, workspace := true);
            PrepareAndStart(a, x) == (if !x.statusSent then Handled(With(a, prepared), false, false)
                                      else if !prepared.artifactCleaned && !x.cleaned then FailActive(With(a, prepared), x)
                                      else MaterializeAndStart(With(a, prepared.(artifactCleaned := true)), x))
  {
    hide FailActive, MaterializeAndStart, With;
  }

  lemma PrepareExactly(a: Machine, x: Env)
    requires a.active.Some?
    ensures PrepareAndStart(a, x).started <==> x.statusSent && ReachesCommand(a.active.value, x)
    ensures x.statusSent ==> RunsOrFails(a, PrepareAndStart(a, x), x)
  {
    hide PrepareAndStart, MaterializeAndStart, FailActive, RunsOrFails, Alike, StartCommand, With;
    var prepared := a.active.value.(sourceCommit := true, workspace := true);
    var clean := prepared.(artifactCleaned := true);
    PrepareIs(a, x);
    WithAlike(a, prepared);
    WithAlike(a, clean);
    NothingStarts(With(a, prepared), x);
    AlikeFails(a, With(a, prepared), x);
    MaterializeExactly(With(a, clean), x);
    AlikeRuns(a, With(a, clean), MaterializeAndStart(With(a, clean), x), x);
  }

  /** The end of a preparation starts the command exactly if it is that of the task at hand, succeeded in time, and
      every step up to the command turns out well. Otherwise the task fails, unless its status could not be sent. */
  lemma PreparationStartsExactly(a: Machine, lease: Lease, result: Preparation, x: Env)
    requires a.active.Some?
    ensures var t, h := a.active.value, HandlePreparation(a, lease, result, x);
            var mine := t.preparation && t.lease.taskId == lease.taskId;
            && (h.started <==> mine && result == Prepared && x.leaseLive && x.statusSent && ReachesCommand(t, x))
            && (!mine ==> h == Handled(a, true, false))
            && (mine && (result == Prepared && x.leaseLive ==> x.statusSent) ==> RunsOrFails(a, h, x))
  {
    hide PrepareAndStart, FailActive;
    var t := a.active.value;
    NothingStarts(With(a, Unpreparing(t, x.foundWorkspace)), x);
    NothingStarts(With(a, Unpreparing(t, false)), x);
    PrepareExactly(With(a, Unpreparing(t, false)), x);
  }

  /** A resumed task starts its command exactly if it is prepared and neither runs, ran, nor has a result. */
  lemma ResumeStartsExactly(a: Machine, uploading: bool, x: Env)
    requires a.active.Some?
    ensures var t, h := a.active.value, ResumeActive(a, uploading, x);
            h.started <==> t.sourceCommit && t.workspace && !t.preparation && t.pending.None? && !t.commandCompleted && !t.execution
                           && !t.manifest && !t.upload && (if t.configWritten then x.leaseLeft && x.spawned else ReachesCommand(t, x))
  {
    hide StartCommand, MaterializeAndStart, FailActive, SendManifest;
    var t := a.active.value;
    NothingStarts(a, x);
    NothingStarts(With(a, t.(manifest := true)), x);
    StartCommandExactly(a, x);
    if t.workspace {
      MaterializeExactly(a, x);
    }
  }

  /** Stopping ends everything of the task, and confirms exactly if log tails are kept and the cleanup succeeds. */
  lemma StopExactly(a: Machine, x: Env)
    requires a.active.Some?
    ensures var t, h := a.active.value, Stop(a, x);
            && !h.started && !h.agent.listening && h.agent.active.Some?
            && h.agent.active.value == t.(execution := false, executionCancel := false, upload := false,
                 pending := if !x.tailsKept then t.pending else if x.cleanupFailed then Some(PendingFailed) else Some(PendingCanceled))
  {
  }

  /** A cancellation of the task at hand is confirmed exactly if its workspace is released, its log tails are kept and
      its cleanup succeeds; then nothing of it runs. A failed cleanup fails it, and so does a workspace that cannot be
      released, which leaves the command running. */
  lemma CancelConfirmsExactly(a: Machine, lease: Lease, x: Env)
    requires a.active.Some?
    ensures var t, h := a.active.value, HandleCancel(a, lease, x);
            var released := x.foundWorkspace && t.workspace ==> x.released;
            var idle := t.(preparation := false, workspace := t.workspace || x.foundWorkspace);
            && !h.started && h.agent.active.Some?
            && h.agent.listening == (a.listening && !(t.lease == lease && released))
            && h.agent.active.value ==
               if t.lease != lease then t
               else if !released then idle.(pending := Some(PendingFailed))
               else idle.(execution := false, executionCancel := false, upload := false,
                          pending := if !x.tailsKept then t.pending else if x.cleanupFailed then Some(PendingFailed) else Some(PendingCanceled))
  {
    hide *;
    var idle := Unpreparing(a.active.value, x.foundWorkspace);
    CancelIs(a, lease, x);
    WithIs(a, idle);
    NothingStarts(With(a, idle), x);
    StopExactly(With(a, idle), x);
  }

  lemma CancelIs(a: Machine, lease: Lease, x: Env)
    requires a.active.Some?
    ensures var t, idle := a.active.value, Unpreparing(a.active.value, x.foundWorkspace);
            && idle == t.(preparation := false, workspace := t.workspace || x.foundWorkspace)
            && HandleCancel(a, lease, x) == (if t.lease != lease then Handled(a, true, false)
                                             else if x.foundWorkspace && t.workspace && !x.released then FailActive(With(a, idle), x)
                                             else Stop(With(a, idle), x))
  {
    hide Stop, FailActive, With;
  }

  lemma WithIs(a: Machine, t: ActiveTask)
    ensures With(a, t) == a.(active := Some(t))
  {
  }

  // --- Exactly what the other handlers do ---

  /** An idle agent takes a task if it can report so; a busy one keeps its own. */
  lemma AssignmentExactly(a: Machine, lease: Lease, x: Env)
    ensures var h := HandleAssignment(a, lease, x);
            && !h.started && h.agent.listening == a.listening
            && (a.active.Some? ==> h.ok && h.agent == a)
            && (a.active.None? ==> (h.ok <==> x.statusSent) && (h.agent.active.Some? <==> x.statusSent))
            && (a.active.None? && x.statusSent ==>
                  var t := h.agent.active.value;
                  && t.lease == lease && t.preparation && t.pending.None?
                  && !t.sourceCommit && !t.workspace && !t.execution && !t.commandCompleted && !t.manifest && !t.upload)
  {
  }

  /** The end of a command is handled once. With its log tails kept, a failure fails the task, and so does a success whose
      files cannot be listed or whose list is too long; the list is there exactly if the files were listed. */
  lemma FinishedExactly(a: Machine, succeeded: bool, x: Env)
    requires a.active.Some? && a.listening
    ensures var t, h := a.active.value, HandleFinished(a, succeeded, x);
            var listed := x.tailsKept && succeeded && x.statusSent && t.workspace;
            && !h.started && !h.agent.listening && h.agent.active.Some?
            && h.agent.active.value == t.(
                 execution := false, commandCompleted := true, manifest := t.manifest || (listed && x.scanned),
                 pending := if (x.tailsKept && !succeeded) || (listed && !(x.scanned && x.manifestFits)) then Some(PendingFailed) else t.pending)
            && (x.tailsKept && succeeded && !(x.statusSent && t.workspace) ==> !h.ok)
            && (!x.tailsKept ==> !h.ok)
  {
    hide *;
    var t := a.active.value.(execution := false, commandCompleted := true);
    var done := a.(listening := false, active := Some(t));
    FinishedIs(a, succeeded, x);
    NothingStarts(done, x);
    WithIs(done, t.(manifest := true));
    NothingStarts(With(done, t.(manifest := true)), x);
    SendExactly(With(done, t.(manifest := true)), x);
  }

  lemma FinishedIs(a: Machine, succeeded: bool, x: Env)
    requires a.active.Some? && a.listening
    ensures var t := a.active.value.(execution := false, commandCompleted := true);
            var done := a.(listening := false, active := Some(t));
            HandleFinished(a, succeeded, x) == if !x.tailsKept then Handled(done, false, false)
                                               else if !succeeded then FailActive(done, x)
                                               else if !x.statusSent || !t.workspace then Handled(done, false, false)
                                               else if !x.scanned then FailActive(done, x)
                                               else SendManifest(With(done, t.(manifest := true)), x)
  {
    hide SendManifest, FailActive, With;
  }

  lemma SendExactly(a: Machine, x: Env)
    requires a.active.Some?
    ensures var h := SendManifest(a, x);
            && !h.started && h.agent == (if x.manifestFits then a else a.(active := Some(a.active.value.(pending := Some(PendingFailed)))))
            && (h.ok <==> if x.manifestFits then x.manifestSent else x.failureSent)
  {
  }

  /** Resuming after the command lists its files, unless an upload runs or a result is there. */
  lemma ResumeListsExactly(a: Machine, uploading: bool, x: Env)
    requires a.active.Some? && a.active.value.commandCompleted
    ensures var t, h := a.active.value, ResumeActive(a, uploading, x);
            var told := uploading || x.statusSent;
            && !h.started && h.agent.listening == a.listening && h.agent.active.Some?
            && h.agent.active.value
               == (if t.pending.Some? || t.upload || !told || (!t.manifest && !t.workspace) then t
                   else if !t.manifest && !x.scanned then t.(pending := Some(PendingFailed))
                   else t.(manifest := true, pending := if x.manifestFits then t.pending else Some(PendingFailed)))
            && (t.pending.Some? || t.upload ==> h.ok)
            && (t.pending.None? && !t.upload && !told ==> !h.ok)
  {
    hide *;
    var t := a.active.value;
    ResumeIs(a, uploading, x);
    NothingStarts(a, x);
    WithIs(a, t.(manifest := true));
    SendExactly(a, x);
    SendExactly(With(a, t.(manifest := true)), x);
  }

  lemma ResumeIs(a: Machine, uploading: bool, x: Env)
    requires a.active.Some? && a.active.value.commandCompleted
    ensures var t := a.active.value;
            ResumeActive(a, uploading, x) == if t.pending.Some? || t.upload then Handled(a, true, false)
                                             else if !uploading && !x.statusSent then Handled(a, false, false)
                                             else if t.manifest then SendManifest(a, x)
                                             else if !t.workspace then Handled(a, false, false)
                                             else if !x.scanned then FailActive(a, x)
                                             else SendManifest(With(a, t.(manifest := true)), x)
  {
    hide SendManifest, FailActive, With, StartCommand, MaterializeAndStart;
  }

  /** The answer to a manifest starts the upload or fails the task; one for another task, or for none, ends the
      connection. */
  lemma ManifestAckExactly(a: Machine, id: TaskId, accepted: bool, x: Env)
    requires a.active.Some?
    ensures var t, h := a.active.value, HandleManifestAck(a, id, accepted, x);
            && !h.started && h.agent.listening == a.listening && h.agent.active.Some?
            && h.agent.active.value == (if t.lease.taskId != id || !t.manifest then t
                                        else if accepted then t.(upload := true)
                                        else t.(pending := Some(PendingFailed)))
            && (t.lease.taskId != id || !t.manifest ==> !h.ok)
  {
  }

  /** The end of an upload completes or fails the task. */
  lemma UploadExactly(a: Machine, uploaded: bool, x: Env)
    requires a.active.Some?
    ensures var t, h := a.active.value, HandleUploadResult(a, uploaded, x);
            && !h.started && h.agent.listening == a.listening && h.agent.active.Some?
            && h.agent.active.value == (if !t.upload then t
                                        else if !uploaded then t.(upload := false, pending := Some(PendingFailed))
                                        else t.(upload := false, pending := if t.manifest then Some(PendingCompleted) else t.pending))
  {
  }

  /** A task is forgotten exactly at the acknowledgement of its own result; any other one about it, while it has a
      result, ends the connection, and so does one about another task. */
  lemma ResultAckExactly(a: Machine, id: TaskId, status: Status)
    requires a.active.Some?
    ensures var t, h := a.active.value, HandleResultAck(a, id, status);
            var own := t.lease.taskId == id && ((t.pending == Some(PendingCompleted) && status == SUCCEEDED)
                                                || (t.pending == Some(PendingFailed) && status == FAILED)
                                                || (t.pending == Some(PendingCanceled) && status == CANCELED));
            && !h.started && h.agent == (if own then a.(active := None) else a)
            && (h.ok <==> own || (t.lease.taskId == id && t.pending.None?))
  {
  }

  /** The decision after a hello. One about another task, none at all, or one in another phase than the agent reported ends
      the connection and changes nothing; ABANDON drops the task and its command. */
  lemma RecoveryExactly(a: Machine, decision: Option<Decision>, x: Env)
    requires a.active.Some?
    ensures var t, h := a.active.value, HandleRecovery(a, decision, x);
            var mine := decision.Some? && decision.value.taskId == t.lease.taskId;
            && (!mine ==> h == Handled(a, false, false))
            && (mine && !decision.value.action.ABANDON? && decision.value.action.status != Phase(t) ==> h == Handled(a, false, false))
            && (mine && decision.value.action.ABANDON? ==> h == Handled(Machine(None, false), true, false))
            && (mine && decision.value.action == RESUME(Phase(t)) ==> h == ResumeActive(a, Phase(t) == UPLOADING, x))
            && (mine && decision.value.action == CANCEL(Phase(t)) ==>
                  var canceled := HandleCancel(a, t.lease, x);
                  h == if canceled.ok then ResumeActive(canceled.agent, false, x) else canceled)
  {
    hide ResumeActive, HandleCancel, Phase;
  }
}
