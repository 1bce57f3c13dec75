/** Over a run whose clock never goes back, the time stamps in the rows are in the past. */
module TaskStamps {
  import opened Options
  import opened TaskStatus
  import opened TaskRows
  import opened TaskClaim
  import opened TaskRuns

  function TimeOf(e: Event): Time {
    match e
    case CreateEvent(_, _, _, _, now) => now
    case ReadyEvent(_, _, now) => now
    case DisconnectEvent(_, _, now) => now
    case InterruptEvent(_, _, _, now) => now
    case HelloEvent(_, _, _, now) => now
    case ClaimEvent(_, _, x, _) => x.now
    case AcceptEvent(_, _, _, _, now) => now
    case StatusEvent(_, _, _, _, _, _, now) => now
    case FailedEvent(_, _, _, _, _, now) => now
    case CanceledEvent(_, _, _, _, now) => now
    case CompletedEvent(_, _, _, _, _, _, _, _, _, now) => now
    case RejectedEvent(_, _, _, now) => now
    case CancelEvent(_, now) => now
    case ScanDispatchEvent(_, _, now) => now
    case ScanCancellationEvent(_, now) => now
    case ScanRecoveryEvent(_, now) => now
    case AgentEvent(_) => 0
    case EnableEvent(_, _, _) => 0
    case LivenessEvent(_, _) => 0
  }

  ghost predicate RowStamped(t: Task, clock: Time, window: nat) {
    && (t.cancelRequestedAt.Some? ==> t.cancelRequestedAt.value <= clock)
    && (t.recoveryDeadlineAt.Some? ==> t.recoveryDeadlineAt.value <= clock + window)
  }

  /** Every cancellation was requested by `clock`, and no recovery deadline is further than a window ahead. */
  ghost predicate StampedBy(db: Db, clock: Time, window: nat) {
    forall id :: id in db.tasks ==> RowStamped(db.tasks[id], clock, window)
  }

  lemma ProgressStamps(db: Db, window: nat, e: Event, clock: Time)
    requires StampedBy(db, clock, window) && TimeOf(e) <= clock
    requires e.AcceptEvent? || e.StatusEvent?
    ensures StampedBy(Step(db, window, e), clock, window)
  {
    hide CommitAgrees, Up, HoldsSlot;
  }

  lemma EndStamps(db: Db, window: nat, e: Event, clock: Time)
    requires StampedBy(db, clock, window) && TimeOf(e) <= clock
    requires e.FailedEvent? || e.CanceledEvent? || e.CompletedEvent? || e.RejectedEvent?
    ensures StampedBy(Step(db, window, e), clock, window)
  {
    hide TotalSize, AllUploaded, LogLeaseHeld, Up, HoldsSlot;
  }

  lemma ReadyStamps(db: Db, window: nat, agentId: AgentId, capable: bool, now: Time, clock: Time)
    requires StampedBy(db, clock, window) && now <= clock
    ensures StampedBy(AgentReady(db, agentId, capable, now), clock, window)
  {
  }

  lemma LossStamps(db: Db, window: nat, agentId: AgentId, id: TaskId, phase: Status, connected: bool, now: Time, clock: Time)
    requires StampedBy(db, clock, window) && now <= clock
    ensures StampedBy(DisconnectTask(db, agentId, id, window, now), clock, window)
    ensures StampedBy(InterruptTask(db, id, phase, connected, window, now), clock, window)
  {
  }

  lemma CancellationStamps(db: Db, window: nat, taskId: WireId, now: Time, clock: Time)
    requires StampedBy(db, clock, window) && now <= clock
    ensures StampedBy(RequestCancellation(db, taskId, now).db, clock, window)
  {
  }

  lemma ScanStamps(db: Db, window: nat, id: TaskId, ready: bool, now: Time, clock: Time)
    requires StampedBy(db, clock, window) && now <= clock
    ensures StampedBy(ReclaimDispatch(db, id, ready, now), clock, window)
    ensures StampedBy(ReclaimCancellation(db, id, now), clock, window)
    ensures StampedBy(ReclaimRecovery(db, id, now), clock, window)
  {
  }

  lemma FailOrphanStamps(db: Db, window: nat, agentId: AgentId, id: TaskId, now: Time, clock: Time)
    requires StampedBy(db, clock, window) && now <= clock
    ensures StampedBy(FailOrphan(db, agentId, id, now), clock, window)
  {
  }

  lemma ResumeStamps(db: Db, window: nat, agentId: AgentId, id: TaskId, current: Option<CurrentTask>, capable: bool, now: Time, clock: Time)
    requires StampedBy(db, clock, window) && now <= clock && Resumable(db, agentId, id, now)
    ensures StampedBy(Resume(db, FailOrphan(db, agentId, id, now), agentId, id, current, capable, now).db, clock, window)
  {
  }

  lemma HelloStamps(db: Db, window: nat, agentId: AgentId, current: Option<CurrentTask>, capable: bool, now: Time, clock: Time)
    requires StampedBy(db, clock, window) && now <= clock
    ensures StampedBy(Hello(db, agentId, current, capable, now).db, clock, window)
  {
    hide RowStamped, FailOrphan, Resume, Kept;
    if agentId in db.agents {
      var active := db.agents[agentId].activeTaskId;
      if active.Some? {
        FailOrphanStamps(db, window, agentId, active.value, now, clock);
      }
      if current.Some? || active.Some? {
        var wire := if current.Some? then current.value.taskId else Uuid(active.value);
        if wire.Uuid? && Resumable(db, agentId, wire.id, now) {
          ResumeStamps(db, window, agentId, wire.id, current, capable, now, clock);
        }
      }
    }
  }

  lemma {:induction false} ClaimLoopStamps(db: Db, window: nat, agentId: AgentId, requested: Option<TaskId>, x: ClaimContext, attempts: nat, clock: Time)
    requires agentId in db.agents && StampedBy(db, clock, window)
    ensures StampedBy(ClaimLoop(db, agentId, requested, x, attempts).db, clock, window)
    decreases attempts
  {
    hide First;
    if attempts > 0 && exists id :: First(db, agentId, requested, id) {
      var id :| First(db, agentId, requested, id);
      hide ClaimLoop;
      ClaimTurn(db, agentId, requested, x, attempts, id);
      CandidateIsKnown(db, agentId, requested, id);
      assert RowStamped(FailedDispatch(db.tasks[id], x.now), clock, window) && RowStamped(Dispatched(db.tasks[id], x), clock, window);
      hide FailedDispatch, Dispatched, RowStamped;
      ClaimLoopStamps(Put(db, id, FailedDispatch(db.tasks[id], x.now)), window, agentId, requested, x, attempts - 1, clock);
      SentBackStamps(db.tasks[id], x.now, clock, window);
    }
  }

  lemma SentBackStamps(t: Task, now: Time, clock: Time, window: nat)
    requires RowStamped(t, clock, window)
    ensures RowStamped(Moved(t, WAITING_AGENT, now), clock, window)
  {
  }

  lemma StepStamps(db: Db, window: nat, e: Event, clock: Time)
    requires StampedBy(db, clock, window) && TimeOf(e) <= clock
    ensures StampedBy(Step(db, window, e), clock, window)
  {
    hide RowStamped;
    match e {
      case HelloEvent(agentId, current, capable, now) =>
        hide Hello;
        HelloStamps(db, window, agentId, current, capable, now, clock);
      case ClaimEvent(agentId, requested, x, ready) =>
        hide ClaimLoop;
        if agentId in db.agents {
          var wanted := if requested.Some? && requested.value.Uuid? then Some(requested.value.id) else None;
          ClaimLoopStamps(db, window, agentId, wanted, x, MAX_CLAIM_VALIDATION_SKIPS, clock);
        }
      case CreateEvent(id, agentId, interactive, ready, now) => NewTaskStamped(agentId, interactive, ready, now, clock, window);
      case AcceptEvent(_, _, _, _, _) => ProgressStamps(db, window, e, clock);
      case StatusEvent(_, _, _, _, _, _, _) => ProgressStamps(db, window, e, clock);
      case FailedEvent(_, _, _, _, _, _) => EndStamps(db, window, e, clock);
      case CanceledEvent(_, _, _, _, _) => EndStamps(db, window, e, clock);
      case CompletedEvent(_, _, _, _, _, _, _, _, _, _) => EndStamps(db, window, e, clock);
      case RejectedEvent(_, _, _, _) => EndStamps(db, window, e, clock);
      case AgentEvent(_) =>
      case EnableEvent(_, _, _) =>
      case LivenessEvent(_, _) =>
      case ReadyEvent(agentId, capable, now) => ReadyStamps(db, window, agentId, capable, now, clock);
      case DisconnectEvent(agentId, id, now) => LossStamps(db, window, agentId, id, RUNNING, true, now, clock);
      case InterruptEvent(id, phase, connected, now) => LossStamps(db, window, 0, id, phase, connected, now, clock);
      case CancelEvent(taskId, now) => CancellationStamps(db, window, taskId, now, clock);
      case ScanDispatchEvent(id, ready, now) => ScanStamps(db, window, id, ready, now, clock);
      case ScanCancellationEvent(id, now) => ScanStamps(db, window, id, true, now, clock);
      case ScanRecoveryEvent(id, now) => ScanStamps(db, window, id, true, now, clock);
    }
  }

  lemma NewTaskStamped(agentId: AgentId, interactive: bool, ready: bool, now: Time, clock: Time, window: nat)
    ensures RowStamped(NewTask(agentId, interactive, ready, now), clock, window)
  {
  }

  /** In a run that ends by `clock`, every stamp is by `clock`. */
  lemma {:induction false} RunStamps(db: Db, window: nat, events: seq<Event>, clock: Time)
    requires StampedBy(db, clock, window) && forall i :: 0 <= i < |events| ==> TimeOf(events[i]) <= clock
    ensures StampedBy(Run(db, window, events), clock, window)
    decreases |events|
  {
    hide Step, StampedBy, TimeOf;
    if events != [] {
      StepStamps(db, window, events[0], clock);
      RunStamps(Step(db, window, events[0]), window, events[1..], clock);
    }
  }
}
