/** Task statuses and the table of allowed transitions. */
module TaskStatus {
  import opened Options

  datatype Status =
    | CREATED | WAITING_AGENT | QUEUED | DISPATCHED | PREPARING | RUNNING | UPLOADING
    | CANCELING | AGENT_LOST | SUCCEEDED | FAILED | CANCELED

  predicate CanTransition(from: Status, next: Status) {
    match from
    case CREATED => next in {WAITING_AGENT, QUEUED, CANCELING}
    case WAITING_AGENT => next in {QUEUED, DISPATCHED, CANCELING}
    case QUEUED => next in {WAITING_AGENT, DISPATCHED, CANCELING}
    case DISPATCHED => next in {PREPARING, QUEUED, AGENT_LOST, FAILED, CANCELING}
    case PREPARING => next in {RUNNING, AGENT_LOST, FAILED, CANCELING}
    case RUNNING => next in {UPLOADING, AGENT_LOST, FAILED, CANCELING}
    case UPLOADING => next in {SUCCEEDED, AGENT_LOST, FAILED, CANCELING}
    case AGENT_LOST => next in {DISPATCHED, PREPARING, RUNNING, UPLOADING, FAILED, CANCELING}
    case CANCELING => next in {CANCELED, FAILED}
    case SUCCEEDED => false
    case FAILED => false
    case CANCELED => false
  }

  /** The table by where a status is entered from. */
  lemma EnteredFrom(from: Status, next: Status)
    ensures CanTransition(from, next) <==>
              match next
              case CREATED => false
              case WAITING_AGENT => from == CREATED || from == QUEUED
              case QUEUED => from == CREATED || from == WAITING_AGENT || from == DISPATCHED
              case DISPATCHED => from == WAITING_AGENT || from == QUEUED || from == AGENT_LOST
              case PREPARING => from == DISPATCHED || from == AGENT_LOST
              case RUNNING => from == PREPARING || from == AGENT_LOST
              case UPLOADING => from == RUNNING || from == AGENT_LOST
              case AGENT_LOST => from == DISPATCHED || from == PREPARING || from == RUNNING || from == UPLOADING
              case CANCELING => !Terminal(from) && from != CANCELING
              case SUCCEEDED => from == UPLOADING
              case CANCELED => from == CANCELING
              case FAILED => from == DISPATCHED || (PastDispatch(from) && !Terminal(from))
  {
  }

  /** The transitions the transactions make: the table without four entries that none of them uses. */
  predicate Taken(from: Status, next: Status) {
    CanTransition(from, next)
    && !(from == AGENT_LOST && next == DISPATCHED) && !(from == WAITING_AGENT && next == DISPATCHED)
    && !(from == DISPATCHED && next == AGENT_LOST) && !(from == CREATED && next == CANCELING)
  }

  /** The statuses from which a task does not go back to wait. */
  predicate PastDispatch(s: Status) {
    s !in {CREATED, WAITING_AGENT, QUEUED, DISPATCHED}
  }

  /** The statuses in which a task occupies its agent. */
  predicate HoldsSlot(s: Status) {
    s in {DISPATCHED, PREPARING, RUNNING, UPLOADING, CANCELING, AGENT_LOST}
  }

  /** The phases an agent can report, and resume. */
  predicate ExecutionPhase(s: Status) {
    s in {PREPARING, RUNNING, UPLOADING}
  }

  predicate Terminal(s: Status) {
    s in {SUCCEEDED, FAILED, CANCELED}
  }

  /** One row of a task's status history. */
  datatype Change = Change(from: Option<Status>, next: Status)

  /** A connected walk of transitions taken from creation to `current`. */
  predicate Walk(history: seq<Change>, current: Status) {
    && history != [] && history[0] == Change(None, CREATED)
    && history[|history| - 1].next == current
    && forall i :: 1 <= i < |history| ==>
         history[i].from == Some(history[i - 1].next) && Taken(history[i - 1].next, history[i].next)
  }

  lemma WalkGrows(history: seq<Change>, current: Status, next: Status)
    requires Walk(history, current) && Taken(current, next)
    ensures Walk(history + [Change(Some(current), next)], next)
  {
  }

  /** A terminal status can only stand at the end of a walk. */
  lemma TerminalIsLast(history: seq<Change>, current: Status, i: nat)
    requires Walk(history, current) && i < |history| && Terminal(history[i].next)
    ensures i == |history| - 1 && current == history[i].next
  {
    forall j | 0 <= j < |history| - 1 ensures !Terminal(history[j].next) {
      assert Taken(history[j + 1 - 1].next, history[j + 1].next);
    }
  }

  /** A walk that is past dispatch stays there: it never reaches DISPATCHED, or the queue, again. */
  lemma {:induction false} StaysPastDispatch(history: seq<Change>, current: Status, i: nat, j: nat)
    requires Walk(history, current) && i <= j < |history| && PastDispatch(history[i].next)
    ensures PastDispatch(history[j].next)
  {
    if i < j {
      StaysPastDispatch(history, current, i, j - 1);
      assert Taken(history[j - 1].next, history[j].next);
    }
  }
}
