# Verification of AnvilRun's task, log and artifact core

Dafny models of the parts of the build system where state, concurrency and byte formats meet, with proofs of
what they keep. `dafny verify dfyconfig.toml` checks everything.

- **Task lifecycle** (`TaskStatus`, `TaskRows`, `TaskClaim`, `TaskInvariants`, `TaskRuns`, `TaskEvolution`,
  `TaskStamps`, `TaskRecovery`, `TaskReports`, `TaskEffects`, `TaskEdges`, `ClaimAnswers`, `TaskStore`,
  `ExecutionSlot`). The server's transactions on task and agent rows. `TaskRows` and `TaskClaim` define what a
  transaction does to the rows; `TaskStore` performs the operations row update by row update and is proved to have
  those effects. `TaskReports`, `TaskEffects`, `TaskEdges` and `ClaimAnswers` say, over the fields of the rows, when
  each operation is taken and what becomes of any row; the others prove what every run of transactions keeps. A
  transaction is one step, as all of them lock the agent's row first.
- **Agent and server composed** (`AgentTask`, `AgentHandlers`, `ExecutionOnce`, `CommandEnds`, `CommandOutcome`,
  `Reconnects`, `Journeys`). The flags of the agent's task, with every step and every send that can fail, the two sides together
  over lossy connections, what a task goes on with after a reconnect, which task the end of a command counts for,
  and what result it leads to.
- **Log delivery** (`Ndjson`, `UnaryCodec`, `LogBuffer`, `TaskLogStorage`, `TaskLogFile`, `TaskLogs`, `LogDelivery`,
  `LogRetention`, `LogSubscription`, `LogBroadcast`, `PromiseLock`). The agent's bounded buffer, the server's
  self-repairing file, the protocol between them for one lease, which records the agent keeps, the hand-off from
  history to live events, which records become live events at all, and the keyed lock.
- **Redaction** (`Redaction`, `LogRedactor`, `RedactorLimits`, `Utf8`). The streaming replacement of secrets, and
  exactly when it does not depend on how the stream is split.
- **ZIP and CRC** (`Crc32`, `CrcDivision`, `Utf8Decoder`, `ZipArchive`, `ZipRoundTrip`, `Manifest`,
  `ManifestFields`). The streaming writer of PKWARE APPNOTE sections 4.3.6 to 4.3.16 with the checksum of section
  4.4.7, against an independent reader, polynomial division, and a UTF-8 decoder of its own.

Conventions: ids are numbers and the malformed ids of messages a constructor of their own; times are integers
in milliseconds; a lease hash stands for its token, the hash being taken as injective; readiness and
capabilities of a connection, the validity of templates and the results of the file system are inputs of a step;
the record codec of the log files is any injective encoder without line breaks.

Findings. Each is a property that fails, with the runs on which it does and the exact condition.

1. The agent's output depends on how the stream of a command is split as soon as there is any string setting (none
   of them sharing a character with the marker): its JSON form begins and ends with a quote and can be cut there
   (`StringsInvariantExactlyWhenNone`). The plain text still never shows (`StringSecretNeverShown`).
2. A log record whose line reaches the server's file while the sync or the update of the task's row fails is never
   broadcast, and its resend is taken for a duplicate, so a live subscriber misses it (`RecordIsMissed`;
   `ExactlyOnceInOrder` gives the exact condition on the calls).
3. The end of a command counts for the task that is active when it arrives. If a task is acknowledged away while its
   command runs, the next task is marked completed without having started (`LateEndHappens`; `EndsReachTheirTask`
   and `AckGuardIsExact` give the exact condition).
4. The transition table has an edge AGENT_LOST to DISPATCHED for recovery. No transaction takes it, nor three others
   (`EveryRun`): a lost task is never dispatched again (`PastDispatchForever`).
5. A build whose command failed can end as SUCCEEDED with exit code zero. The agent marks the command completed before
   it sends the last log output; if that fails, the handler ends before it looks at the exit code, and after the
   reconnect the files are listed and uploaded as for a success (`FailedCommandSucceeds`). For any failed command this
   is possible if and only if its log tails were not kept (`FailureIsLostExactly`).
6. A record larger than the agent's whole log buffer, put out while nothing is outstanding, blocks the buffer for
   good: only a new acknowledgement would unblock it, and none can come (`StuckExactly`, `StuckForever`). The
   configuration allows any positive size.
7. At a cancellation the held-back end of the output is finished and then handed to the redactor again, which holds it
   back again, so with any secret the last output of a canceled command is never logged (`FlushLosesTail`).

## Model

| member | source | states |
|---|---|---|
| `TaskStatus.WalkGrows` | apps/server/src/tasks/task-state.service.ts:38-83 | a transition that is taken extends a connected status history; the history then ends in the new status |
| `TaskStatus.TerminalIsLast` | packages/contracts/src/task/task-status-transitions.ts:55-70 | in a connected history a terminal status can only be the last entry, and is the current status |
| `TaskStatus.StaysPastDispatch` | packages/contracts/src/task/task-status-transitions.ts:3-70 | a connected history that has left creation, waiting, queue and dispatch behind never comes back to them |
| `TaskStatus.EnteredFrom` | packages/contracts/src/task/task-status-transitions.ts:3-70 | the table read backwards: from which statuses each status may be entered |
| `TaskRuns.EveryRun` | apps/server/src/database/execution-slot.ts:3-10 | on every run from empty tables: an agent points at a task exactly when the task is its own and holds the slot; two tasks never share one slot; the lease is present exactly in slot statuses; the history is a connected walk with at most one end, and uses none of four edges of the table (AGENT_LOST or WAITING_AGENT to DISPATCHED, DISPATCHED to AGENT_LOST, CREATED to CANCELING) |
| `TaskRuns.RunKeeps` | apps/server/src/tasks/task-queue.service.ts:263-1563 | every run of the nineteen transactions keeps slot exactness, lease, recovery and start coupling, and connected histories |
| `TaskRuns.StepKeeps` | apps/server/src/tasks/task-queue.service.ts:263-1563 | each single transaction, whatever its inputs, keeps those invariants |
| `TaskInvariants.CreateKeeps` | apps/server/src/tasks/tasks.service.ts:283-338 | creation under an enabled agent keeps the invariants |
| `TaskInvariants.ReadyKeeps` | apps/server/src/tasks/task-queue.service.ts:263-295 | queueing all waiting tasks of an idle online agent keeps the invariants |
| `TaskInvariants.DisconnectKeeps` | apps/server/src/tasks/task-queue.service.ts:324-395 | a disconnect of one task keeps the invariants: a dispatched task frees slot, lease and pointer together; a lost one keeps them, with a deadline within its lease |
| `TaskInvariants.InterruptKeeps` | apps/server/src/tasks/task-queue.service.ts:748-782 | the startup reconciliation of one task keeps the invariants |
| `TaskInvariants.FailOrphanKeeps` | apps/server/src/tasks/task-queue.service.ts:703-737 | failing the active task keeps the invariants and leaves the agent without one |
| `TaskInvariants.ActiveIsKnown` | apps/server/src/tasks/task-queue.service.ts:703-725 | the pointer of an agent names one of its own tasks in a slot status, and that task can still fail |
| `TaskInvariants.AcceptKeeps` | apps/server/src/tasks/task-queue.service.ts:1056-1091 | acceptance keeps the invariants; a started task has a start time |
| `TaskInvariants.ReportStatusKeeps` | apps/server/src/tasks/task-queue.service.ts:1093-1173 | a status report keeps the invariants |
| `TaskInvariants.ReportFailureKeeps` | apps/server/src/tasks/task-queue.service.ts:1179-1252 | a failure report keeps the invariants |
| `TaskInvariants.ReportCanceledKeeps` | apps/server/src/tasks/task-queue.service.ts:950-1009 | a cancellation report keeps the invariants |
| `TaskInvariants.CompleteKeeps` | apps/server/src/artifacts/artifacts.service.ts:527-605 | a completion keeps the invariants |
| `TaskInvariants.FailRejectedKeeps` | apps/server/src/tasks/task-queue.service.ts:1255-1291 | the failure after a rejected completion keeps the invariants |
| `TaskInvariants.CancellationKeeps` | apps/server/src/tasks/task-queue.service.ts:842-948 | a cancellation request keeps the invariants: without a slot the task ends at once, with one it keeps slot and lease |
| `TaskInvariants.ReclaimDispatchKeeps` | apps/server/src/tasks/task-queue.service.ts:1301-1343 | the dispatch scanner keeps the invariants |
| `TaskInvariants.ReclaimCancellationKeeps` | apps/server/src/tasks/task-queue.service.ts:1361-1399 | the cancellation scanner keeps the invariants |
| `TaskInvariants.ReclaimRecoveryKeeps` | apps/server/src/tasks/task-queue.service.ts:795-833 | the recovery scanner keeps the invariants |
| `TaskInvariants.AgentRowsKeep` | apps/server/src/agents/agent.gateway.ts:666-671 | adding, enabling, disabling agents and writing their liveness keep the invariants; an online agent is enabled |
| `TaskRuns.ReconcileKeeps` | apps/server/src/tasks/task-queue.service.ts:511-701 | after the reconciliation of a hello the pointer of the agent already is the one the decision implies, so the write that follows changes no pointer |
| `TaskRuns.HelloKeeps` | apps/server/src/agents/agent.gateway.ts:501-563 | the whole hello handler keeps the invariants |
| `TaskRuns.ClaimKeeps` | apps/server/src/tasks/task-queue.service.ts:1409-1550 | a claim keeps the invariants, through every skipped task |
| `TaskEvolution.StepEvolves` | apps/server/src/tasks/task-queue.service.ts:263-1563 | no transaction removes a row, shortens a history, changes a finished row, overwrites a source commit, or revives a lease: a live lease was live before or has just been issued |
| `TaskEvolution.FinishedForever` | packages/contracts/src/task/task-status-transitions.ts:67-69 | over every run the row of a finished task never changes again |
| `TaskEvolution.WrittenOnce` | apps/server/src/tasks/task-queue.service.ts:1141-1171 | over every run the history only grows and a source commit stays what it first was |
| `TaskEvolution.PastDispatchForever` | packages/contracts/src/task/task-status-transitions.ts:3-70 | a task that was accepted, lost or is being canceled is never dispatched or queued again, on any later run |
| `TaskStamps.RunStamps` | apps/server/src/tasks/task-queue.service.ts:358-385 | in a run that ends by some time, every cancellation was requested by then and no recovery deadline lies more than one window ahead of it |
| `TaskRecovery.DisconnectThenResume` | apps/server/src/tasks/task-queue.service.ts:625-658 | an agent that is lost in a phase and reports that phase under its lease in time gets RESUME, and its row is as before except for history and update time |
| `TaskRecovery.ResumeOnlyRestores` | apps/server/src/tasks/task-queue.service.ts:511-701 | RESUME is answered only under the live, unexpired lease, in the phase held before the loss or held still; never to a task being canceled |
| `TaskRecovery.DisconnectParks` | apps/server/src/tasks/task-queue.service.ts:297-399 | the disconnect transactions of an offline agent, each at its own time and with any transactions but a reconnect or a cancellation between them, leave every task of the agent waiting, finished, or with a deadline already set |
| `TaskRecovery.SlotIsReleased` | apps/server/src/tasks/task-queue.service.ts:789-840 | from parked tasks, under any run without reconnect or cancellation in which each open task is scanned late enough, the agent ends without an active task and every task waiting or finished |
| `TaskRecovery.DisconnectReleasesSlot` | apps/server/src/tasks/task-queue.service.ts:297-399 | bounded slot release from the disconnect on: after the disconnect transactions and any run without reconnect or cancellation, one scan later than recovery window and cancellation timeout leaves the agent without an active task and every task waiting or finished |
| `TaskRecovery.ScanReleasesSlot` | apps/server/src/tasks/task-queue.service.ts:1293-1407 | one scan later than the disconnect plus the longer of recovery window and cancellation timeout releases the slot |
| `TaskRecovery.QuietLeaves` | apps/server/src/tasks/task-queue.service.ts:263-1563 | without reconnect or cancellation, any transaction leaves a parked task alone or fails it |
| `TaskClaim.ClaimIsFifo` | apps/server/src/tasks/task-queue.service.ts:1421-1549 | an assigned task is the first dispatchable one in (creation time, id) order: all queued tasks before it were failed by this claim, at most 31, none could be dispatched, and no other row changed; a notification means exactly 32 were failed |
| `TaskClaim.ClaimLoopIsFifo` | apps/server/src/tasks/task-queue.service.ts:1436-1548 | the skip loop for any number of attempts: the failed tasks are the first ones in order, the assigned or waiting one is the next, no candidate is left when it finds nothing |
| `TaskClaim.FirstExists` | apps/server/src/tasks/task-queue.service.ts:1437-1447 | if any queued task matches, one comes first |
| `TaskStore.TaskStore.Transition` | apps/server/src/tasks/task-state.service.ts:38-83 | missing row, same status, forbidden edge and allowed edge: result and new row of each |
| `TaskStore.TaskStore.CreateTask` | apps/server/src/tasks/tasks.service.ts:283-338 | the effect of CreateTask on the rows, and the invariants |
| `TaskStore.TaskStore.DisconnectTask` | apps/server/src/tasks/task-queue.service.ts:324-395 | the effect of one disconnect transaction, and the invariants |
| `TaskStore.TaskStore.OnAgentDisconnected` | apps/server/src/tasks/task-queue.service.ts:297-399 | the loop is a run of disconnect transactions, each at its own time, that covers every queued or active task of the agent; if the agent is offline, its tasks are parked after it |
| `TaskStore.TaskStore.ReconcileInterruptedTasks` | apps/server/src/tasks/task-queue.service.ts:739-787 | the loop is a run of transactions that covers every task in an execution phase, each acting only if the task is still in the phase it was found in |
| `TaskStore.TaskStore.Accept` | apps/server/src/tasks/task-queue.service.ts:1056-1091 | reply and new rows of an acceptance, all rejections included |
| `TaskStore.TaskStore.ReportTaskStatus` | apps/server/src/tasks/task-queue.service.ts:1093-1173 | reply and new rows of a status report, all rejections included |
| `TaskStore.TaskStore.ReportPreparationFailure` | apps/server/src/tasks/task-queue.service.ts:1179-1252 | reply and new rows of a failure report; a repeat under the log lease is acknowledged without effect |
| `TaskStore.TaskStore.ReportTaskCanceled` | apps/server/src/tasks/task-queue.service.ts:950-1009 | reply and new rows of a confirmed cancellation; a repeat under the log lease is acknowledged without effect |
| `TaskStore.TaskStore.CompleteTask` | apps/server/src/artifacts/artifacts.service.ts:527-605 | reply and new rows of a completion: every artifact uploaded, counts and sizes as declared; a repeat with the same counts is acknowledged without effect |
| `TaskStore.TaskStore.Totals` | apps/server/src/artifacts/artifacts.service.ts:566-579 | the sum of the artifact sizes, and whether all are uploaded |
| `TaskStore.TaskStore.FailRejected` | apps/server/src/tasks/task-queue.service.ts:1255-1291 | effect of the failure after a rejected completion |
| `TaskStore.TaskStore.RequestCancellation` | apps/server/src/tasks/task-queue.service.ts:842-948 | reply and new rows of a cancellation request in every status |
| `TaskStore.TaskStore.FailOrphanedTask` | apps/server/src/tasks/task-queue.service.ts:703-737 | effect of abandoning a task |
| `TaskStore.TaskStore.ReconcileAgentHello` | apps/server/src/tasks/task-queue.service.ts:511-701 | decision and new rows of a hello reconciliation, branch by branch |
| `TaskStore.TaskStore.HandleHello` | apps/server/src/agents/agent.gateway.ts:501-563 | decision and new rows of the hello handler, and the invariants |
| `TaskStore.TaskStore.OnAgentReady` | apps/server/src/tasks/task-queue.service.ts:263-295 | every waiting task the agent can run is queued, all other rows are unchanged |
| `TaskStore.TaskStore.FindFirst` | apps/server/src/tasks/task-queue.service.ts:1437-1447 | the first queued task in (creation time, id) order, or none if there is no candidate |
| `TaskStore.TaskStore.ClaimInTransaction` | apps/server/src/tasks/task-queue.service.ts:1409-1550 | the loop, row by row, has the outcome ClaimIsFifo speaks of |
| `TaskStore.TaskStore.ReclaimTimedOutDispatches` | apps/server/src/tasks/task-queue.service.ts:1293-1348 | the whole scan is a run of scanner and disconnect transactions, leaves no overdue dispatch, cancellation or recovery, and releases the slot of every agent whose tasks were parked long enough ago |
| `TaskStore.TaskStore.ReclaimTimedOutCancellations` | apps/server/src/tasks/task-queue.service.ts:1350-1407 | no overdue cancellation is left, although each one triggers a disconnect of its agent |
| `TaskStore.TaskStore.ReclaimTimedOutRecoveries` | apps/server/src/tasks/task-queue.service.ts:789-840 | no overdue recovery is left |
| `ExecutionSlot.ExecutionSlot.Claim` | apps/server/src/database/execution-slot.ts:54-93 | exactly an idle agent and one of its queued tasks are accepted; the slot stays exact |
| `ExecutionSlot.ExecutionSlot.Release` | apps/server/src/database/execution-slot.ts:99-132 | exactly the active task of the agent is accepted; the slot stays exact |
| `TaskReports.WrongTokenIsRefused` | apps/server/src/tasks/task-queue.service.ts:1075-1077 | a report by another agent, about an unknown task, or under a token that is neither the lease nor, once the task has ended, the log lease changes nothing and is never taken, for any rows |
| `TaskReports.AcceptEffect` | apps/server/src/tasks/task-queue.service.ts:1056-1091 | an acceptance under the live lease makes a dispatched task PREPARING, and is taken exactly of a dispatched or preparing one; every other row stays |
| `TaskReports.StatusEffect` | apps/server/src/tasks/task-queue.service.ts:1093-1173 | under the live lease the next phase is entered and the first commit recorded; every other report and row stays as it is |
| `TaskReports.AcceptAnswer` | apps/server/src/tasks/task-queue.service.ts:1056-1091 | the answer to an acceptance: taken of a dispatched or preparing task under the live lease, otherwise which of lease and state is at fault |
| `TaskReports.StatusAnswer` | apps/server/src/tasks/task-queue.service.ts:1093-1173 | the answer to a phase report: which of form, lease and state is at fault, in that order |
| `TaskReports.FailureAnswer` | apps/server/src/tasks/task-queue.service.ts:1179-1252 | the answer to a failure report |
| `TaskReports.CanceledAnswer` | apps/server/src/tasks/task-queue.service.ts:950-1009 | the answer to a confirmed cancellation |
| `TaskReports.FailureEffect` | apps/server/src/tasks/task-queue.service.ts:1179-1252 | a failure ends exactly a task in a phase or being canceled under the live lease; a repeat under the log lease is acknowledged |
| `TaskReports.CanceledEffect` | apps/server/src/tasks/task-queue.service.ts:950-1009 | a confirmation ends exactly a task being canceled under its token, expired or not |
| `TaskReports.CompletedEffect` | apps/server/src/artifacts/artifacts.service.ts:527-605 | a task succeeds exactly under the live lease in UPLOADING with exit code zero and every declared artifact arrived; its row then holds commit, counts and sizes |
| `TaskReports.CompletedAnswer` | apps/server/src/artifacts/artifacts.service.ts:527-605 | the answer to a completion: taken exactly then, or as a repeat with the same counts under the log lease; otherwise which of code, lease and state is at fault |
| `TaskReports.RejectedEffect` | apps/server/src/tasks/task-queue.service.ts:1255-1291 | after a rejected completion exactly a task in UPLOADING under the unexpired lease fails |
| `TaskEffects.CancelEffect` | apps/server/src/tasks/task-queue.service.ts:842-948 | a waiting or queued task is canceled at once, one with a slot keeps it until its agent confirms, every other row stays |
| `TaskEffects.CancelAnswer` | apps/server/src/tasks/task-queue.service.ts:842-948 | a request is refused exactly for a task that is unknown, succeeded or failed |
| `TaskEffects.DispatchScanEffect` | apps/server/src/tasks/task-queue.service.ts:1301-1343 | exactly a dispatch older than 30 seconds is taken back: to the queue if its agent is there, else to wait; its agent is free |
| `TaskEffects.CancellationScanEffect` | apps/server/src/tasks/task-queue.service.ts:1361-1399 | exactly a cancellation older than 30 seconds fails, and its agent is offline and free |
| `TaskEffects.RecoveryScanEffect` | apps/server/src/tasks/task-queue.service.ts:795-833 | exactly a lost task past its deadline fails, and its agent is free |
| `TaskEffects.DisconnectEffect` | apps/server/src/tasks/task-queue.service.ts:324-395 | at a loss a queued task waits, a dispatched one waits without its lease, one in a phase is lost with its phase and a deadline within lease and window |
| `TaskEffects.InterruptEffect` | apps/server/src/tasks/task-queue.service.ts:748-782 | at a restart exactly a task still in the phase it was found in is lost, with phase and deadline |
| `TaskEffects.InterruptAgents` | apps/server/src/tasks/task-queue.service.ts:748-782 | its agent keeps the slot and is offline unless connected |
| `TaskEffects.ReadyEffect` | apps/server/src/tasks/task-queue.service.ts:263-295 | exactly the waiting tasks an idle online agent can run are queued |
| `TaskEffects.CreateEffect` | apps/server/src/tasks/tasks.service.ts:283-338 | a task is created exactly under an enabled agent, queued if it is connected and waiting otherwise |
| `TaskEffects.AgentRowEffects` | apps/server/src/agents/agent.gateway.ts:666-671 | registration, the administrator's switch and signs of life write status and switch of one agent, never a task or a slot |
| `TaskEffects.HelloContinues` | apps/server/src/tasks/task-queue.service.ts:511-701 | an enabled agent whose report fits its task (token, phase, deadlines, capability) is told RESUME or CANCEL in that phase and keeps its slot; a lost task is back in its phase |
| `TaskEffects.HelloAbandons` | apps/server/src/tasks/task-queue.service.ts:511-701 | any other hello fails the active task, tells the agent to abandon what it reported, and frees the slot |
| `TaskEffects.HelloRow` | apps/server/src/tasks/task-queue.service.ts:511-701 | what becomes of any row at a hello |
| `TaskEdges.StatusIsDecided` | apps/server/src/tasks/task-queue.service.ts:263-1563 | for each of the nineteen transactions and every task: the status after it is exactly what its cause, read off the row and the report, says |
| `TaskEdges.EndsExactly` | apps/server/src/tasks/task-queue.service.ts:263-1563 | a transaction ends a task exactly by a full completion, a confirmed or early cancellation, or one of the listed failures |
| `TaskEdges.SucceededExactly` | apps/server/src/artifacts/artifacts.service.ts:527-605 | over every run from empty tables a task has succeeded if and only if some event of the run completed it, with everything uploaded and under its live lease |
| `ClaimAnswers.ClaimIsDecided` | apps/server/src/tasks/task-queue.service.ts:1421-1549 | of an agent that may claim, a claim is never refused; it assigns a task exactly if fewer than 32 tasks are ahead of it, all of them fail, and the agent can run it; it answers Nothing exactly if the task it gets to needs a more capable agent, or the whole queue fails and is shorter than 32 |
| `ClaimAnswers.ClaimEffect` | apps/server/src/tasks/task-queue.service.ts:1421-1549 | what becomes of any row at a claim: those reached fail, are dispatched, or are sent back to wait |
| `ExecutionOnce.StartedAtMostOnce` | agent/crates/build-agent/src/connection.rs:1554-1559 | over any connections, losses, resumptions, cancellations and restarts, and any server transactions, a command is started at most once under each lease |
| `ExecutionOnce.MoveKeeps` | agent/crates/build-agent/src/connection.rs:757-920 | every move of agent or server keeps: leases canceled at the agent are dead at the server, answers under way fit the waiting agent, assignments are fresh, acknowledgements are true |
| `ExecutionOnce.ServerKeeps` | apps/server/src/tasks/task-queue.service.ts:660-678 | any server transaction keeps that, as no token is issued twice |
| `ExecutionOnce.HelloAnswerFits` | apps/server/src/tasks/task-queue.service.ts:625-690 | RESUME reaches only an agent that was not told to cancel this lease; CANCEL only one whose lease is dead |
| `ExecutionOnce.CancelOnlyCanceling` | apps/server/src/tasks/task-queue.service.ts:660-678 | CANCEL is answered only while the reported task is being canceled |
| `ExecutionOnce.AcksMeanStatus` | apps/server/src/agents/agent.gateway.ts:414-486 | a result acknowledgement goes out only when the task is in the acknowledged terminal status |
| `ExecutionOnce.ForgottenTaskHasEnded` | agent/crates/build-agent/src/connection.rs:2010-2048 | when a result acknowledgement makes the agent forget its task, the server has that task in the status of the agent's result, for good |
| `ExecutionOnce.ForgottenOnEveryRun` | agent/crates/build-agent/src/connection.rs:2010-2048 | the same on every run from the start |
| `AgentTask.StartKeeps` | agent/crates/build-agent/src/connection.rs:845-920 | a start is the first under its lease; a start that fails early does not count |
| `AgentTask.PreparationKeeps` | agent/crates/build-agent/src/connection.rs:1371-1524 | the end of the preparation starts a command only under a lease never started, whichever step fails |
| `AgentTask.ResumeActiveKeeps` | agent/crates/build-agent/src/connection.rs:686-843 | resuming a task that was not canceled starts its command only if it was never started |
| `AgentTask.CancelKeeps` | agent/crates/build-agent/src/connection.rs:1170-1293 | a cancellation starts nothing, and when it completes leaves a terminal result |
| `AgentTask.CommandEndKeeps` | agent/crates/build-agent/src/connection.rs:1526-1678 | the end of a command starts nothing and rules out another start |
| `CommandEnds.EndsReachTheirTask` | agent/crates/build-agent/src/connection.rs:1526-1560 | from any state of the invariant, over every run: the end of a command always belongs to the active task if and only if no task is acknowledged away while its command runs and another one taken before that command ends |
| `CommandEnds.EndsReachTheirTaskFromStart` | agent/crates/build-agent/src/connection.rs:1526-1560 | the same over every run from the start |
| `CommandEnds.AckGuardIsExact` | agent/crates/build-agent/src/connection.rs:2010-2048 | before an acknowledgement that frees the agent, whether it awaits a command decides: exactly if it does, there is a continuation without another such acknowledgement in which an end reaches a task that was not started |
| `CommandEnds.ListeningComesFromAck` | agent/crates/build-agent/src/connection.rs:2010-2048 | the agent awaits a command without a task only since an acknowledgement took the task away, and ever since |
| `CommandEnds.MoveFollows` | agent/crates/build-agent/src/connection.rs:1064-1168 | what each move does to it: only a start makes the agent await a command, only an assignment takes a task, under a lease never started |
| `CommandEnds.LateEndHits` | agent/crates/build-agent/src/connection.rs:1526-1560 | an agent that awaits a command without a task marks the next task completed, and failed, at that command's end, although its command never started |
| `CommandEnds.LateEndHappens` | agent/crates/build-agent/src/connection.rs:1494-1510 | a finding: a run from the start in which this happens, as the start of the first command cannot be reported |
| `AgentTask.Agent.Assign` | agent/crates/build-agent/src/connection.rs:1064-1168 | the new state of an assignment, a busy agent and a failed send included; no lease was started twice |
| `AgentTask.Agent.StartActiveCommand` | agent/crates/build-agent/src/connection.rs:845-920 | the new state of a start, with every step that can fail |
| `AgentTask.Agent.PreparationEnded` | agent/crates/build-agent/src/connection.rs:1371-1524 | the new state after a preparation, with every step that can fail; a start is counted and is the first of its lease |
| `AgentTask.Agent.CommandFinished` | agent/crates/build-agent/src/connection.rs:1526-1678 | the new state after a command, with every step that can fail; no lease was started twice |
| `AgentTask.Agent.Cancel` | agent/crates/build-agent/src/connection.rs:1170-1293 | the new state after a cancellation, with every step that can fail; the lease counts as canceled |
| `AgentTask.Agent.Resume` | agent/crates/build-agent/src/connection.rs:686-843 | the new state of a resumption, with every step that can fail; a start is counted and is the first of its lease |
| `AgentTask.Agent.Recover` | agent/crates/build-agent/src/connection.rs:585-684 | the new state after RESUME, CANCEL and ABANDON, and what follows each; a start is counted and is the first of its lease |
| `AgentTask.Agent.ManifestAcknowledged` | agent/crates/build-agent/src/connection.rs:1680-1729 | the new state after the answer to a manifest |
| `AgentTask.Agent.UploadEnded` | agent/crates/build-agent/src/connection.rs:1765-1818 | the new state after an upload |
| `AgentTask.Agent.ResultAcknowledged` | agent/crates/build-agent/src/connection.rs:2010-2048 | only the status of the pending result frees the task |
| `Reconnects.CommandRunsOn` | agent/crates/build-agent/src/connection.rs:2113-2127 | from any state of the invariant in which the command runs and the server holds the task RUNNING under the agent's lease: after a loss, the disconnect, a new connection, hello and recovery in time, the decision is RESUME(RUNNING), the agent has the very same task, nothing was started, and the row differs only in history and update time |
| `Reconnects.PreparationGoesOn` | agent/crates/build-agent/src/connection.rs:2113-2127 | the same for a task in preparation, with RESUME(PREPARING) |
| `Reconnects.UploadGoesOn` | agent/crates/build-agent/src/connection.rs:2113-2127 | the same for one whose manifest was sent, with RESUME(UPLOADING); the manifest is sent again if no upload runs |
| `Reconnects.EndedCommandGoesOn` | agent/crates/build-agent/src/connection.rs:701-755 | a command that ended before its files were listed is not started again; its files are listed after the reconnect |
| `Reconnects.PreparedTaskStarts` | agent/crates/build-agent/src/connection.rs:757-843 | a prepared task that was not started yet is started after the reconnect, for the first time under its lease |
| `Reconnects.CancellationReachesAgent` | agent/crates/build-agent/src/connection.rs:650-684 | a cancellation requested before or during the loss reaches the agent with the answer to its hello: everything of the task ends, nothing is started, the confirmation is the result to send |
| `CommandOutcome.CompletionHasItsEnd` | agent/crates/build-agent/src/connection.rs:1526-1678 | on every run the agent has a completion to send only after its artifacts were uploaded, and that only after an end charged to its task: a success, or a failure whose log tails were lost; as long as ends reach their task, of its own command |
| `CommandOutcome.FailureStaysFailure` | agent/crates/build-agent/src/connection.rs:1602-1678 | a failed command whose log tails were kept never has a completion to send, whatever happens afterwards |
| `AgentHandlers.PreparationStartsExactly` | agent/crates/build-agent/src/connection.rs:1371-1524 | the end of a preparation starts the command exactly if it is that of the task at hand, in time, and every step up to the command turns out well; otherwise the task fails, unless its status could not be sent |
| `AgentHandlers.ResumeStartsExactly` | agent/crates/build-agent/src/connection.rs:757-843 | a resumed task starts its command exactly if it is prepared and neither runs, ran, nor has a result |
| `AgentHandlers.CancelConfirmsExactly` | agent/crates/build-agent/src/connection.rs:1170-1293 | a cancellation is confirmed exactly if workspace, log tails and cleanup turn out well; a workspace that cannot be released leaves the command running |
| `AgentHandlers.AssignmentExactly` | agent/crates/build-agent/src/connection.rs:1064-1168 | an idle agent takes a task exactly if it can report so; a busy one keeps its own |
| `AgentHandlers.FinishedExactly` | agent/crates/build-agent/src/connection.rs:1526-1678 | the end of a command: the files are listed exactly after a success whose log tails, status and scan turn out well; a failure with its tails kept fails the task, a scan that fails or a list too long too |
| `AgentHandlers.ResumeListsExactly` | agent/crates/build-agent/src/connection.rs:701-755 | a task resumed after its command lists its files, unless an upload runs or a result is there |
| `AgentHandlers.ManifestAckExactly` | agent/crates/build-agent/src/connection.rs:1680-1729 | the answer to a manifest starts the upload or fails the task; one for another task or none ends the connection |
| `AgentHandlers.UploadExactly` | agent/crates/build-agent/src/connection.rs:1765-1818 | the end of an upload completes or fails the task |
| `AgentHandlers.ResultAckExactly` | agent/crates/build-agent/src/connection.rs:2010-2048 | the task is forgotten exactly at the acknowledgement of its own result |
| `AgentHandlers.RecoveryExactly` | agent/crates/build-agent/src/connection.rs:585-684 | a decision about another task or phase ends the connection and changes nothing; ABANDON drops the task and its command; RESUME and CANCEL do what they do otherwise |
| `Journeys.TaskSucceeds` | agent/crates/build-agent/src/connection.rs:1526-1818 | from any state with an idle agent: a new task goes through assignment, command, manifest, upload and completion; its command is started once, its row is SUCCEEDED with commit, exit code and artifacts, agent and slot are free |
| `Journeys.TaskIsCanceled` | agent/crates/build-agent/src/connection.rs:1170-1293 | the same way up to the running command and a cancellation: the row is CANCELED, agent and slot are free |
| `Journeys.FailedCommandSucceeds` | agent/crates/build-agent/src/connection.rs:1576-1600 | a finding: the same run with a command that fails while its log tails are lost with the connection ends with the row SUCCEEDED and exit code zero |
| `Journeys.FailureIsLostExactly` | agent/crates/build-agent/src/connection.rs:1576-1600 | for any failed command whose task the server holds: the agent may still report it as completed if and only if its log tails were not kept |
| `LogDelivery.RunsAreSafe` | apps/server/src/task-logs/task-logs.service.ts:102-146 | for every interleaving of output, lost, repeated and reordered messages, crashes at any byte, reconnects and replays: acknowledged is at most persisted, persisted at most appended, the server file recovers to exactly the first records of the history, and no acknowledgement claims more |
| `LogDelivery.StepKeepsSafe` | apps/server/src/task-logs/task-logs.service.ts:85-148 | each event keeps that |
| `LogDelivery.NoAckIsRejected` | agent/crates/build-agent/src/log_buffer.rs:129-135 | no acknowledgement under way is rejected as future, and taking it raises the acknowledged number to it |
| `LogDelivery.AgentHoldsTheRest` | agent/crates/build-agent/src/connection.rs:1958-1983 | the agent holds every record after the persisted ones, in its file and in its next replay |
| `LogDelivery.ReplayCatchesUp` | agent/crates/build-agent/src/connection.rs:1932-1983 | a replay whose messages arrive persists every outstanding record that fits the server's limits, and the acknowledgement that follows empties window and file and unblocks the buffer |
| `LogDelivery.HelloCatchesUp` | apps/server/src/task-logs/task-log-storage.service.ts:57-76 | acknowledgements that were lost are made up for by a reconnect: after it the agent knows of every persisted record |
| `LogDelivery.WriteKeepsPersisted` | apps/server/src/task-logs/task-log-storage.service.ts:100-128 | an append interrupted after any byte leaves the old records or the new ones |
| `TaskLogs.AppendFromAgent` | apps/server/src/task-logs/task-logs.service.ts:85-148 | the handling of one log message: file, records, acknowledgement and broadcast are those of the protocol step, where a step is confirmed exactly if the file was synced and the row updated, and without write faults the whole line is written |
| `TaskLogs.StoredUnheard` | apps/server/src/task-logs/task-logs.service.ts:117-147 | the next record is stored without a broadcast exactly if its whole line is written, within the limits and with the row aligned, and the sync or the update of the row fails |
| `TaskLogs.ResendIsUnheard` | apps/server/src/task-logs/task-logs.service.ts:117-120 | a stored record that is sent again is neither stored again nor broadcast, however the call turns out |
| `TaskLogs.DiskHolds` | apps/server/src/task-logs/task-log-storage.service.ts:57-76 | whatever the object caches, its file recovers to exactly the records it holds |
| `LogBuffer.PushKeeps` | agent/crates/build-agent/src/log_buffer.rs:84-127 | an append keeps size bound, numbering and compaction gap; stored records extend the file, refused ones change no record |
| `LogBuffer.AckKeeps` | agent/crates/build-agent/src/log_buffer.rs:129-169 | an acknowledgement keeps them and makes the acknowledged number the larger of both |
| `LogBuffer.CopyUnacknowledged` | agent/crates/build-agent/src/log_buffer.rs:192-226 | the compaction loop copies exactly the records after the acknowledged one |
| `LogBuffer.ReadUnacknowledged` | agent/crates/build-agent/src/connection.rs:1966-1981 | the replay loop yields exactly the records after the acknowledged one |
| `LogBuffer.LogBuffer.Append` | agent/crates/build-agent/src/log_buffer.rs:84-127 | the next record is stored exactly if the buffer is not blocked and its line fits behind the bytes in the file; a refusal blocks the buffer; the file holds exactly the records after the last compaction |
| `LogBuffer.LogBuffer.Acknowledge` | agent/crates/build-agent/src/log_buffer.rs:129-169 | future numbers are rejected, old ones ignored, a new one unblocks the buffer and the last one empties the file; the gap to the last compaction stays under 256 |
| `LogBuffer.LogBuffer.Compact` | agent/crates/build-agent/src/log_buffer.rs:192-246 | only acknowledged records leave the file |
| `LogBuffer.LogBuffer.Replay` | agent/crates/build-agent/src/log_buffer.rs:171-182 | exactly the unacknowledged suffix of the history |
| `LogBuffer.LogBuffer.EmptyFileIsAcknowledged` | agent/crates/build-agent/src/log_buffer.rs:138-144 | with an empty file every record is acknowledged already |
| `LogBuffer.AppendLogAndAdvance` | agent/crates/build-agent/src/connection.rs:2076-2089 | a sequence number is consumed exactly when its record is stored, which is exactly when it finds room |
| `LogBuffer.PushExact` | agent/crates/build-agent/src/log_buffer.rs:84-127 | over the fields: the next record is stored exactly if the buffer is not blocked and its line fits; a refusal blocks it; a record with another number changes nothing but its refusal |
| `LogBuffer.AckExact` | agent/crates/build-agent/src/log_buffer.rs:129-169 | a new acknowledgement unblocks the buffer, the last one empties the file, and the file is compacted exactly if nothing is outstanding, half the limit was written, or 256 records can go |
| `LogRetention.StepKeepsWhatFits` | agent/crates/build-agent/src/log_buffer.rs:110-126 | one event of the protocol adds a record exactly if it is the next one and finds room |
| `LogRetention.BlockedExactly` | agent/crates/build-agent/src/log_buffer.rs:110-169 | the buffer gets blocked exactly by a next record without room, and unblocked exactly by a new acknowledgement |
| `LogRetention.HistoryIsWhatFitted` | agent/crates/build-agent/src/connection.rs:2076-2089 | over every run the agent keeps exactly the records that found room, once each and in order |
| `LogRetention.StuckExactly` | agent/crates/build-agent/src/log_buffer.rs:110-126 | a finding: the buffer gets stuck, blocked with nothing outstanding, exactly by a record larger than the whole buffer |
| `LogRetention.StuckForever` | agent/crates/build-agent/src/log_buffer.rs:110-169 | once stuck it keeps no further record of the task, on any run |
| `LogRetention.CaughtUpHasRoom` | agent/crates/build-agent/src/connection.rs:1932-1983 | after a replay without loss the next record that fits an empty buffer is stored, unless the buffer was stuck |
| `TaskLogStorage.RecoveryKeepsLongestPrefix` | apps/server/src/task-logs/task-log-storage.service.ts:225-282 | recovery keeps complete valid records 1, 2, 3, ... and no longer such prefix exists |
| `TaskLogStorage.RecoveryIsIdempotent` | apps/server/src/task-logs/task-log-storage.service.ts:225-282 | recovering a recovered file changes nothing |
| `TaskLogStorage.TornEndIsDropped` | apps/server/src/task-logs/task-log-storage.service.ts:225-282 | recovery drops a torn end and nothing else |
| `TaskLogStorage.CrashKeepsLog` | apps/server/src/task-logs/task-log-storage.service.ts:78-136 | after a crash at any byte of an append, recovery returns the old log or the new one |
| `TaskLogFile.TaskLogFile.Recover` | apps/server/src/task-logs/task-log-storage.service.ts:225-282 | the loop truncates to the records, caches their state, and loses none |
| `TaskLogFile.TaskLogFile.GetState` | apps/server/src/task-logs/task-log-storage.service.ts:57-76 | the cached state is answered only when it is current |
| `TaskLogFile.TaskLogFile.Append` | apps/server/src/task-logs/task-log-storage.service.ts:78-136 | with short writes and faults: appended exactly the next record, or the old records, or the new ones with an error; errors without a fault only beyond the limits |
| `TaskLogFile.TaskLogFile.ReadFrom` | apps/server/src/task-logs/task-log-storage.service.ts:138-203 | a page of the records as ReadPage defines it, after any fault |
| `TaskLogFile.ReadReturnsRecords` | apps/server/src/task-logs/task-log-storage.service.ts:318-327 | a read is accepted exactly at record boundaries |
| `TaskLogFile.ReadFromRecord` | apps/server/src/task-logs/task-log-storage.service.ts:138-203 | a page from a record boundary holds the next records in order, at least one if there is one, more than one only within the limit and one MiB, and short of the end only as the next one would exceed it |
| `TaskLogFile.PageOfLog` | apps/server/src/task-logs/task-log-storage.service.ts:170-199 | the read loop stops only at the end or before a record that would exceed the limit |
| `Ndjson.BoundaryIffBreak` | apps/server/src/task-logs/task-log-storage.service.ts:318-327 | a byte before an offset is a line break exactly when a record ends there |
| `Ndjson.RecordAt` | apps/server/src/task-logs/task-log-storage.service.ts:170-199 | the line at the offset of a record decodes to that record |
| `UnaryCodec.SoundCodecExists` | apps/server/src/task-logs/task-log-storage.service.ts:78-100 | an injective record encoder without line breaks exists, so the results for every such codec are not empty |
| `LogSubscription.Subscribe` | apps/server/src/task-logs/client-log.gateway.ts:207-254 | accepted exactly at record boundaries; sends the pages up to the size first seen, then the broadcasts queued meanwhile from there on |
| `LogSubscription.SendHistory` | apps/server/src/task-logs/client-log.gateway.ts:214-244 | the page loop terminates and sends each record up to the target once, however the log grows between reads |
| `LogSubscription.QueueContinuesHistory` | apps/server/src/task-logs/client-log.gateway.ts:246-251 | of the queued events exactly those from the target on are sent |
| `LogSubscription.FlushQueue` | apps/server/src/task-logs/client-log.gateway.ts:246-251 | the loop over the queue drops what the cursor has passed |
| `LogBroadcast.ExactlyOnceInOrder` | apps/server/src/task-logs/client-log.gateway.ts:207-254 | for any calls before, during and after the history pages, with any faults: the client sees each record from its start on exactly once and in order if and only if every call after the first page read that stored a record had its file synced and its row updated |
| `LogBroadcast.ActsEmit` | apps/server/src/task-logs/task-logs.service.ts:131-147 | the events sent by a run of calls are the broadcasts of the records stored in it, at their offsets |
| `LogBroadcast.HeardWhenConfirmed` | apps/server/src/task-logs/task-logs.service.ts:131-147 | every record stored in a run was broadcast exactly if every call that stored one was confirmed |
| `LogBroadcast.RecordIsMissed` | apps/server/src/task-logs/task-log-storage.service.ts:111-127 | a finding: a record whose append is not confirmed is stored and never broadcast, although it is sent again |
| `LogSubscription.MessagesAreContiguous` | apps/server/src/task-logs/client-log.gateway.ts:228-238 | each message starts where the previous one ended |
| `PromiseLock.StartsInOrder` | apps/server/src/task-logs/task-log-storage.service.ts:209-223 | a waiting operation may start exactly when it is the oldest unfinished one of its key and none runs |
| `PromiseLock.OneAtATime` | apps/server/src/task-logs/task-log-storage.service.ts:209-223 | at most one operation per key runs |
| `PromiseLock.NeverStuck` | apps/server/src/task-logs/task-log-storage.service.ts:209-223 | while a key has an entry, its oldest operation runs or may start |
| `PromiseLock.KeyedLock.Arrive` | apps/server/src/task-logs/task-log-storage.service.ts:209-215 | an arrival joins the end of its key's line |
| `PromiseLock.KeyedLock.Start` | apps/server/src/task-logs/task-log-storage.service.ts:216-218 | a start is the next in arrival order |
| `PromiseLock.KeyedLock.Finish` | apps/server/src/artifacts/artifacts.service.ts:880-894 | the entry of a key is removed exactly when its last operation finishes |
| `LogRedactor.ChunkInvariant` | agent/crates/build-agent/src/connection.rs:2221-2273 | if no secret overlaps another or itself and none shares a character with the marker, any split of the stream yields the redaction of the whole |
| `LogRedactor.SecretNeverShown` | agent/crates/build-agent/src/connection.rs:2221-2273 | a secret that nothing can cut never appears in the output of any split, whatever the other secrets are |
| `LogRedactor.ChunkConservesText` | agent/crates/build-agent/src/connection.rs:2221-2258 | with no condition on the secrets raw text is conserved, what is emitted is the redaction of what was taken, and the held tail is at most twice the longest secret plus alignment |
| `LogRedactor.SensitiveLogRedactor.Flush` | agent/crates/build-agent/src/connection.rs:1879-1903 | what the flush at a cancellation emits and still holds |
| `LogRedactor.FlushLosesTail` | agent/crates/build-agent/src/connection.rs:1879-1903 | a finding: after the flush at a cancellation the redactor holds something back exactly if there was a tail, at least the shorter of the tail and the longest secret, and nothing asks for it again |
| `LogRedactor.CutSpares` | agent/crates/build-agent/src/connection.rs:2239-2257 | the cut never splits a secret that nothing can cut |
| `LogRedactor.SensitiveLogRedactor.constructor` | agent/crates/build-agent/src/connection.rs:2205-2219 | the non-empty values, longest first and stable, neighbours distinct |
| `LogRedactor.SensitiveLogRedactor.AddSensitiveValue` | agent/crates/build-agent/src/connection.rs:2260-2267 | a value that is empty or listed changes nothing; any other takes its place in the order |
| `LogRedactor.SortLongestIsStable` | agent/crates/build-agent/src/connection.rs:2213 | the order is longest first, holds the same values, and keeps the order of values of one length |
| `LogRedactor.SensitiveLogRedactor.Redact` | agent/crates/build-agent/src/connection.rs:2221-2258 | output and held tail of one chunk |
| `LogRedactor.SensitiveLogRedactor.Finish` | agent/crates/build-agent/src/connection.rs:2269-2273 | the redacted rest, and an empty tail |
| `LogRedactor.SensitiveLogRedactor.Boundary` | agent/crates/build-agent/src/connection.rs:2239-2242 | the last character boundary with the given number of bytes behind it |
| `LogRedactor.SensitiveLogRedactor.LongestOverlap` | agent/crates/build-agent/src/connection.rs:2243-2254 | the longest suffix that starts some secret |
| `LogRedactor.SensitiveLogRedactor.RedactAll` | agent/crates/build-agent/src/connection.rs:2286-2292 | the values are replaced one after the other |
| `Redaction.NoSecretLeft` | agent/crates/build-agent/src/connection.rs:2286-2292 | no listed secret is left in a redacted text |
| `Redaction.RedactSplit` | agent/crates/build-agent/src/connection.rs:2286-2292 | redaction of two halves is the redaction of the whole if no secret crosses |
| `Redaction.RedactAbsent` | agent/crates/build-agent/src/connection.rs:2286-2292 | a text without secrets is unchanged |
| `RedactorLimits.InvariantExactlyWhenUncuttable` | agent/crates/build-agent/src/connection.rs:2221-2273 | for secrets in the order kept, none of which begins another: every split is harmless if and only if no secret can be cut |
| `RedactorLimits.LongestCuttableDiffers` | agent/crates/build-agent/src/connection.rs:2221-2273 | for any secrets in the order kept: if a longest one can be cut, some split changes the output |
| `RedactorLimits.CutDiffers` | agent/crates/build-agent/src/connection.rs:2239-2257 | the stream that does it: the secret and enough filler behind it |
| `RedactorLimits.CutSecretShowsExactly` | agent/crates/build-agent/src/connection.rs:2239-2257 | the output for that stream shows the secret in full if and only if neither part of it holds a secret |
| `RedactorLimits.StringSecretNeverShown` | agent/crates/build-agent/src/connection.rs:2294-2319 | the plain text of a string secret is never shown, whatever characters JSON escapes, if no proper end of it begins another string secret or, where it has a quote, a JSON form |
| `RedactorLimits.StringsInvariantExactlyWhenNone` | agent/crates/build-agent/src/connection.rs:2294-2319 | a finding: for any list of string settings, collected with their JSON forms and ordered as the redactor does, the output is independent of how the stream is split if and only if the list is empty |
| `Utf8.ThreeBytesPerUnit` | apps/server/src/artifacts/artifacts.service.ts:101-124 | at most three bytes of UTF-8 per UTF-16 unit |
| `ZipRoundTrip.RoundTrip` | apps/server/src/artifacts/artifacts.service.ts:273-307 | a reader that goes from the end record over the directory to the local headers, and decodes the names it finds, gets exactly the names and bytes given, in order, for any entries and chunking within the limits |
| `ZipRoundTrip.ReadBack` | apps/server/src/artifacts/artifacts.service.ts:273-307 | of any archive that fits the format the reader returns the files if every checksum is right, and nothing otherwise |
| `ZipRoundTrip.NeverTruncates` | apps/server/src/artifacts/artifacts.service.ts:213-271 | within the limits of a manifest every size, offset, count and length fits its field |
| `ZipRoundTrip.DamageIsDetected` | apps/server/src/artifacts/artifacts.service.ts:205-212 | one changed byte of one file makes the reader reject the archive |
| `ZipArchive.ZipEntries` | apps/server/src/artifacts/artifacts.service.ts:273-307 | the writer succeeds exactly if all fields fit, and then has written the archive of its entries |
| `ZipArchive.WriteEntry` | apps/server/src/artifacts/artifacts.service.ts:278-302 | local part and central record of one entry |
| `ZipArchive.WriteChunks` | apps/server/src/artifacts/artifacts.service.ts:283-297 | checksum, size and bytes of a file read in chunks |
| `Utf8Decoder.DecodeEncode` | apps/server/src/artifacts/artifacts.service.ts:279 | a decoder written from the byte patterns of RFC 3629 recovers every text from the encoding of the writer |
| `Utf8Decoder.EncodeDecode` | apps/server/src/artifacts/artifacts.service.ts:279 | whatever it decodes is the encoding of the result |
| `ZipArchive.LocalHeaderBytes` | apps/server/src/artifacts/artifacts.service.ts:223-237 | the bytes of a local header, as the format lists them |
| `ZipArchive.CentralHeaderBytes` | apps/server/src/artifacts/artifacts.service.ts:239-259 | the bytes of a central header, as the format lists them |
| `ZipArchive.EndAndDescriptorBytes` | apps/server/src/artifacts/artifacts.service.ts:261-271 | the bytes of the end record and of a data descriptor, as the format lists them |
| `ZipArchive.LocalHeaderFields` | apps/server/src/artifacts/artifacts.service.ts:223-237 | the fields of a local header are where the format has them (APPNOTE 4.3.7) |
| `ZipArchive.CentralHeaderFields` | apps/server/src/artifacts/artifacts.service.ts:239-259 | the fields of a central header are where the format has them (APPNOTE 4.3.12) |
| `ZipArchive.EndFields` | apps/server/src/artifacts/artifacts.service.ts:261-271 | the fields of the end record are where the format has them (APPNOTE 4.3.16) |
| `Crc32.Crc32Update` | apps/server/src/artifacts/artifacts.service.ts:205-212 | the loop over bytes and bits computes the checksum update |
| `Crc32.UpdateConcat` | apps/server/src/artifacts/artifacts.service.ts:205-212 | updating over two parts is updating over their concatenation |
| `Crc32.ShiftByteInjective` | apps/server/src/artifacts/artifacts.service.ts:205-212 | the step over one byte loses no state |
| `Crc32.OneByteChangesCrc` | apps/server/src/artifacts/artifacts.service.ts:205-212 | two messages that differ in exactly one byte have different checksums, at any length |
| `CrcDivision.PolynomialIsStandard` | apps/server/src/artifacts/artifacts.service.ts:205-212 | the constant of the loop is the reflected CRC-32 generator polynomial |
| `CrcDivision.ChecksumIsRemainder` | apps/server/src/artifacts/artifacts.service.ts:205-212 | for every message the checksum is the complement of the remainder that long division by the generator polynomial leaves of its bits, the first 32 inverted |
| `Manifest.AcceptedPathsAreConfined` | apps/server/src/artifacts/artifacts.service.ts:101-124 | an accepted path, walked part by part, never leaves its directory, and distinct accepted paths lead to distinct files |
| `ManifestFields.PathIsGoodExactly` | apps/server/src/artifacts/artifacts.service.ts:101-124 | a path is accepted exactly if each of its parts is a plain name, the last has at most 512 characters and the whole at most 2048 units |
| `ManifestFields.DigestIsGoodExactly` | apps/server/src/artifacts/artifacts.service.ts:126-172 | a digest is accepted exactly if it is 32 bytes in lower-case hexadecimal |
| `ManifestFields.AcceptedExactly` | apps/server/src/artifacts/artifacts.service.ts:126-172 | a manifest of good paths and digests is accepted exactly if count, directory name, sizes, total and distinctness are within the limits |
| `Manifest.ValidateManifest` | apps/server/src/artifacts/artifacts.service.ts:126-172 | accepted exactly if acceptable: count, sizes, total, digests, safe and distinct paths; and what each rejection means |
| `Manifest.AcceptedArchiveReadsBack` | apps/server/src/artifacts/artifacts.service.ts:126-172 | an archive of any files of an accepted manifest fits the format and reads back, names decoded |

## Left out

- InvariantExactlyWhenUncuttable: for lists in which one secret begins another only the direction of LongestCuttableDiffers is given, and the full condition for string settings. Secrets that share characters with the marker are outside, as replacement can then make up a secret from a marker.
- AddSensitiveValue: the results about streams are for a list that stays the same while a stream runs.
- LogBuffer.Append: does not model failed writes of the agent's disk or other writers of its file, so the branches that re-read a file whose length disagrees never run; the branch for an empty file is unreachable by EmptyFileIsAcknowledged. The first record is number 1, as the counter of the only caller starts there.
- Compact: does not model a parse failure of the buffer's own lines, or a trailing carriage return, which no JSON record has.
- Subscribe: authorization, the limit of eight subscriptions and socket errors are not modelled; the guard that history advanced is shown never to fire.
- ValidateManifest: the sorting of files, the comparison with a registered manifest, case folding on Windows and the type checks of untyped JSON are not modelled.
- CreateTask: does not model the rejections that concern project, template and configuration, nor input files and audit.
- OnAgentDisconnected: a method runs alone, so it has no transactions of others between those of the loop; DisconnectParks and DisconnectReleasesSlot allow them.
- HandleHello: does not model the checks of identity and metadata that close the connection before the rows are read.
- ClaimInTransaction: the validity of template, form and message are inputs; the caches of completed and running claims are not modelled, so each claim is answered once.
- RequestCancellation: the token of the cancel message is taken from the row, as the cache of plain tokens is not modelled.
- Accept: does not record the texts of the status history (source, reason); no operation here does.
- StartedAtMostOnce: a token is never issued twice (it is random), and a message on a connection arrives at most once or is lost with it.
- RunsAreSafe: one lease, with an empty buffer and an empty file at its start; a task dispatched again over a buffer that holds older records is outside.
- AppendFromAgent: the server's redactor is any masking of the chunk, one record at a time; lease checks are not modelled, and of the row's log columns only whether they agree with the file and whether their updates succeed.
- Reports of the agent reach the server as any transactions, so a report the agent never made is allowed; CompletionHasItsEnd speaks of the result the agent has to send, SucceededExactly of the completion the server takes.
- A connected task whose lease has expired in RUNNING is covered by no scanner; its progress is not claimed.
- Node's line reader also splits at U+2028, U+2029 and bare carriage returns, and JSON leaves the first two unescaped; records with them are outside the assumption on the codec.
- Saturation of 64-bit counters, lone surrogates, synchronisation of a truncation and timing of disk operations are not modelled.
- Interactive task input, the input console, users, templates, projects, rate limits and the web application are not modelled.
