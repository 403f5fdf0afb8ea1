/** The scheduler and execution services as the program runs them, on the stores they share. */
module Engines {
  import opened Results
  import opened Lifecycle
  import opened TaskModel
  import opened Directory
  import opened Grants
  import opened Store
  import opened TaskStores
  import opened Scheduler

  class Engine {
    const tasks: TaskStore
    const directories: DirectoryGrantStore
    const maxConcurrentTasks: nat

    constructor (tasks: TaskStore, directories: DirectoryGrantStore, maxConcurrentTasks: nat)
      ensures this.tasks == tasks && this.directories == directories && this.maxConcurrentTasks == maxConcurrentTasks
    {
      this.tasks, this.directories, this.maxConcurrentTasks := tasks, directories, maxConcurrentTasks;
    }

    /** `running_or_preparing_count`. */
    method CountActive() returns (count: nat)
      ensures count == ActiveCount(tasks.entries)
    {
      var entries, i := tasks.entries, 0;
      count := 0;
      while i < |entries|
        invariant 0 <= i <= |entries|
        invariant count == ActiveCount(entries[..i])
      {
        assert entries[..i + 1][..i] == entries[..i];
        if entries[i].task.status.IsActive() {
          count := count + 1;
        }
        i := i + 1;
      }
      assert entries[..i] == entries;
    }

    method EnqueueTask(profile: Option<Profile>, input: CreateTask, now: Timestamp) returns (r: Result<nat, ValidationError>)
      modifies tasks
      ensures Outcome(tasks.Contents(), r) == Enqueue(old(tasks.Contents()), directories.grants, profile, input, now)
    {
      var checked := PreChecks(directories.grants, profile, input);
      if checked.Err? {
        return Err(checked.error);
      }
      var mode := checked.value;
      var refusal := Authorize(directories.grants[input.directoryId], RequestFor(input, mode));
      if refusal.Some? {
        return Err(FromSecurity(refusal.value));
      }
      var created := tasks.Create(input.(
        workspaceMode := Some(mode), providerId := Some(profile.value.providerId),
        model := Some(profile.value.model), permissionMode := Some(profile.value.permissionMode)), now);
      r := match created case Ok(id) => Ok(id) case Err(e) => Err(FromStore(e));
    }

    method WaitFor(id: nat, reason: string, decision: LockDecision, now: Timestamp) returns (r: Result<LockDecision, ValidationError>)
      modifies tasks
      ensures Outcome(tasks.Contents(), r) == Wait(old(tasks.Contents()), id, reason, decision, now)
    {
      var moved := tasks.Transition(id, WaitingDirectoryLock, Opaque(reason), now);
      r := match moved case Ok(_) => Ok(decision) case Err(e) => Err(FromStore(e));
    }

    method TryAcquireDirectoryLock(id: nat, directoryId: string, now: Timestamp) returns (r: Result<LockDecision, ValidationError>)
      modifies tasks
      ensures Outcome(tasks.Contents(), r) == TryAcquire(old(tasks.Contents()), directories.grants, maxConcurrentTasks, id, directoryId, now)
    {
      if id >= |tasks.entries| {
        return Err(NoSuchTask);
      }
      var task := tasks.entries[id].task;
      var count := CountActive();
      if count >= maxConcurrentTasks {
        r := WaitFor(id, "global_capacity", Waiting, now);
        return;
      }
      if directoryId !in directories.grants {
        return Err(DirectoryNotFound);
      }
      var mode := LockModeOf(task, directories.grants[directoryId]);
      if mode.NoLock? {
        return Ok(NotRequired);
      }
      var acquired := tasks.TryLock(directoryId, id, mode, now);
      if acquired {
        r := WaitFor(id, "directory_lock_acquired", Acquired, now);
      } else {
        r := WaitFor(id, "directory_lock", Waiting, now);
      }
    }

    method PrepareTaskWorkspace(id: nat, prepared: bool, now: Timestamp) returns (r: Result<(), ValidationError>)
      modifies tasks
      ensures Outcome(tasks.Contents(), r) == PrepareWorkspace(old(tasks.Contents()), directories.grants, id, prepared, now)
    {
      if id >= |tasks.entries| {
        return Err(NoSuchTask);
      }
      var task := tasks.entries[id].task;
      if task.spec.directoryId !in directories.grants {
        return Err(DirectoryNotFound);
      }
      if task.status.WaitingDirectoryLock? {
        var marked := tasks.Transition(id, Preparing, EmptyObject, now);
        if marked.Err? {
          return Err(FromStore(marked.error));
        }
      }
      if prepared {
        return Ok(());
      }
      var failed := tasks.Transition(id, Failed, Opaque("workspace preparation failed"), now);
      r := Err(match failed case Ok(_) => WorkspaceModeNotAllowed case Err(e) => FromStore(e));
    }

    /** `execute_task` up to the runtime call. */
    method AdmitTask(id: nat, runtime: RuntimeSearch, prepared: bool, now: Timestamp) returns (r: Result<(), ValidationError>)
      modifies tasks
      ensures Outcome(tasks.Contents(), r) ==
              Admit(old(tasks.Contents()), directories.grants, maxConcurrentTasks, id, runtime, prepared, now)
    {
      if id >= |tasks.entries| {
        return Err(NoSuchTask);
      }
      var task := tasks.entries[id].task;
      if task.status.IsTerminal() {
        return Err(TaskAlreadyTerminal);
      }
      if runtime.NoProfile? {
        return Err(StoreFailed(LookupFailed));
      }
      if task.spec.directoryId !in directories.grants {
        return Err(StoreFailed(LookupFailed));
      }
      if runtime.BadRegistry? {
        return Err(RegistryFailed);
      }
      if runtime.NoRuntime? {
        return Err(RuntimeUnavailable);
      }
      var lock := TryAcquireDirectoryLock(id, task.spec.directoryId, now);
      if lock.Err? {
        return Err(lock.error);
      }
      if lock.value.Waiting? {
        return Err(DirectoryLockConflict);
      }
      r := PrepareTaskWorkspace(id, prepared, now);
      if r.Ok? {
        var marked := tasks.Transition(id, Running, EmptyObject, now);
        r := match marked case Ok(_) => Ok(()) case Err(e) => Err(FromStore(e));
      }
    }

    /** `persist_outcome`: the output events, the terminal status, then the result. */
    method PersistTaskOutcome(id: nat, output: Output, status: TaskStatus, error: Payload, message: string, now: Timestamp)
      returns (r: Result<(), ValidationError>)
      modifies tasks
      ensures Outcome(tasks.Contents(), r) == PersistOutcome(old(tasks.Contents()), id, output, status, error, message, now)
    {
      var i := 0;
      while i < |output|
        invariant 0 <= i <= |output|
        invariant AppendAll(old(tasks.Contents()), id, output, now) == AppendAll(tasks.Contents(), id, output[i..], now)
      {
        var appended := tasks.Append(id, output[i].0, output[i].1, now);
        if appended.Err? {
          return Err(FromStore(appended.error));
        }
        assert output[i..][1..] == output[i + 1..];
        i := i + 1;
      }
      var moved := tasks.Transition(id, status, error, now);
      if moved.Err? {
        return Err(FromStore(moved.error));
      }
      if id >= |tasks.entries| {
        return Err(NoSuchTask);
      }
      tasks.SaveExecutionResult(TaskResult(id, tasks.entries[id].task.status, message), now);
      r := Ok(());
    }

    method CancelTaskById(id: nat, now: Timestamp) returns (r: Result<(), ValidationError>)
      modifies tasks
      ensures Outcome(tasks.Contents(), r) == CancelTask(old(tasks.Contents()), id, now)
    {
      if id >= |tasks.entries| {
        return Err(NoSuchTask);
      }
      var status := tasks.entries[id].task.status;
      if status.Completed? || status.Failed? || status.TimedOut? {
        return Err(TaskAlreadyTerminal);
      }
      var moved := tasks.Transition(id, Cancelled, EmptyObject, now);
      r := match moved case Ok(_) => Ok(()) case Err(e) => Err(FromStore(e));
    }
  }
}
