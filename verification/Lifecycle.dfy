/** The task lifecycle: statuses, the transition relation and the matching event types. */
module Lifecycle {
  import opened Results

  datatype TaskStatus =
    | Queued
    | WaitingDirectoryLock
    | Preparing
    | Running
    | Completed
    | Failed
    | Cancelled
    | TimedOut
  {
    predicate IsTerminal() {
      Completed? || Failed? || Cancelled? || TimedOut?
    }

    /** The statuses that count against the concurrency limit. */
    predicate IsActive() {
      Preparing? || Running?
    }
  }

  datatype EventType =
    | TaskQueued
    | TaskWaitingDirectoryLock
    | TaskPreparing
    | TaskRunning
    | TaskCompleted
    | TaskFailed
    | TaskCancelled
    | TaskTimedOut
    | ProcessStdout
    | ProcessStderr
    | ProviderPermissionRequested
    | ProviderPermissionDecided
  {
    /** The event types an execution's outcome carries: process output, and a provider's
        own word on a permission. */
    predicate IsRuntimeOutput() {
      ProcessStdout? || ProcessStderr? || ProviderPermissionDecided?
    }

    /** The event types that close an event stream. */
    predicate IsTerminal() {
      TaskCompleted? || TaskFailed? || TaskCancelled? || TaskTimedOut?
    }
  }

  datatype Transition = Changed | Idempotent

  datatype StateError = InvalidTransition | AlreadyTerminal

  /** The edges of the lifecycle graph. */
  predicate Allowed(current: TaskStatus, next: TaskStatus) {
    match current
    case Queued => next.WaitingDirectoryLock? || next.Cancelled?
    case WaitingDirectoryLock => next.Preparing? || next.Cancelled?
    case Preparing => next.Running? || next.Failed? || next.Cancelled?
    case Running => next.Completed? || next.Failed? || next.Cancelled? || next.TimedOut?
    case _ => false
  }

  /** One step at a time towards running, from there to any end; a failure already while
      being prepared, a cancel from anywhere but an end. */
  lemma AllowedExactly(current: TaskStatus, next: TaskStatus)
    ensures
      Allowed(current, next) <==>
        || (next == WaitingDirectoryLock && current == Queued)
        || (next == Preparing && current == WaitingDirectoryLock)
        || (next == Running && current == Preparing)
        || ((next == Completed || next == TimedOut) && current == Running)
        || (next == Failed && (current == Preparing || current == Running))
        || (next == Cancelled && current != Completed && current != Failed && current != Cancelled && current != TimedOut)
  {
  }

  /** Ending again in the same way is accepted and changes nothing; ending otherwise is
      refused as already ended, any other step off the graph as invalid. */
  lemma TransitionIsJudged(current: TaskStatus, next: TaskStatus)
    ensures
      var ended := current == Completed || current == Failed || current == Cancelled || current == TimedOut;
      ValidateTransition(current, next) ==
        if ended then (if next == current then Ok(Idempotent) else Err(AlreadyTerminal))
        else if Allowed(current, next) then Ok(Changed) else Err(InvalidTransition)
  {
  }

  function ValidateTransition(current: TaskStatus, next: TaskStatus): Result<Transition, StateError> {
    if current == next && current.IsTerminal() then Ok(Idempotent)
    else if current.IsTerminal() then Err(AlreadyTerminal)
    else if Allowed(current, next) then Ok(Changed)
    else Err(InvalidTransition)
  }

  function EventTypeForStatus(status: TaskStatus): EventType {
    match status
    case Queued => TaskQueued
    case WaitingDirectoryLock => TaskWaitingDirectoryLock
    case Preparing => TaskPreparing
    case Running => TaskRunning
    case Completed => TaskCompleted
    case Failed => TaskFailed
    case Cancelled => TaskCancelled
    case TimedOut => TaskTimedOut
  }

  /** The status an event type announces: the left inverse of `EventTypeForStatus`. */
  function StatusOf(eventType: EventType): Option<TaskStatus> {
    match eventType
    case TaskQueued => Some(Queued)
    case TaskWaitingDirectoryLock => Some(WaitingDirectoryLock)
    case TaskPreparing => Some(Preparing)
    case TaskRunning => Some(Running)
    case TaskCompleted => Some(Completed)
    case TaskFailed => Some(Failed)
    case TaskCancelled => Some(Cancelled)
    case TaskTimedOut => Some(TimedOut)
    case _ => None
  }

  /** Each status is announced by the event of its own name, and by no other. */
  lemma EventsAreNamedForStatuses(status: TaskStatus)
    ensures
      var e := EventTypeForStatus(status);
      && (e == TaskQueued <==> status == Queued)
      && (e == TaskWaitingDirectoryLock <==> status == WaitingDirectoryLock)
      && (e == TaskPreparing <==> status == Preparing)
      && (e == TaskRunning <==> status == Running)
      && (e == TaskCompleted <==> status == Completed)
      && (e == TaskFailed <==> status == Failed)
      && (e == TaskCancelled <==> status == Cancelled)
      && (e == TaskTimedOut <==> status == TimedOut)
    ensures StatusOf(EventTypeForStatus(status)) == Some(status)
    ensures EventTypeForStatus(status).IsTerminal() <==> status.IsTerminal()
  {
  }

  /** How far along its life a task is. */
  function Rank(status: TaskStatus): nat {
    match status
    case Queued => 0
    case WaitingDirectoryLock => 1
    case Preparing => 2
    case Running => 3
    case _ => 4
  }

  /** A history that starts in Queued and follows the edges of the graph. */
  ghost predicate IsPath(history: seq<TaskStatus>) {
    && history != []
    && history[0] == Queued
    && forall i, j :: 0 <= i < |history| && j == i + 1 < |history| ==> Allowed(history[i], history[j])
  }

  lemma {:induction false} PathRanks(history: seq<TaskStatus>, i: nat, j: nat)
    requires IsPath(history)
    requires i <= j < |history|
    ensures Rank(history[j]) >= Rank(history[i]) + (j - i)
  {
    if i < j {
      PathRanks(history, i, j - 1);
      assert Allowed(history[j - 1], history[j]);
    }
  }

  /** No task ever takes more than four steps, and no status recurs. */
  lemma PathsAreShort(history: seq<TaskStatus>)
    requires IsPath(history)
    ensures |history| <= 5
    ensures forall i, j :: 0 <= i < j < |history| ==> history[i] != history[j]
    ensures forall i :: 0 <= i < |history| - 1 ==> !history[i].IsTerminal()
  {
    PathRanks(history, 0, |history| - 1);
    forall i, j | 0 <= i < j < |history|
      ensures history[i] != history[j]
    {
      PathRanks(history, i, j);
    }
    forall i | 0 <= i < |history| - 1
      ensures !history[i].IsTerminal()
    {
      var j := i + 1;
      assert Allowed(history[i], history[j]);
    }
  }
}
