/** What admission, outcome persistence and cancelling achieve, call by call. */
module Admission {
  import opened Results
  import opened Lifecycle
  import opened TaskModel
  import opened Directory
  import opened Locks
  import opened Grants
  import opened Store
  import opened StoreInvariants
  import opened StoreAnswers
  import opened Scheduler
  import opened TaskSystem

  // ---- What admission and cancelling achieve ----------------------------

  /** Room under the limit, and a task in a state its lock mode lets through: with a
      lock to take it must be Queued and unopposed; with none it must already have been
      made to wait. */
  ghost predicate Admissible(max: nat, db: Db, grants: GrantTable, id: nat) {
    && id < |db.entries|
    && db.entries[id].task.spec.directoryId in grants
    && ActiveCount(db.entries) < max
    && var task := db.entries[id].task;
       var mode := LockModeOf(task, grants[task.spec.directoryId]);
       if mode.NoLock? then task.status.WaitingDirectoryLock? || task.status.Preparing?
       else task.status.Queued? && !Conflicts(db.locks, task.spec.directoryId, mode)
  }

  /** At most the one task's row and log change, and neither what the task is nor its result. */
  ghost predicate Touches(db: Db, db': Db, id: nat) {
    && id < |db.entries| == |db'.entries|
    && (forall i :: 0 <= i < |db.entries| && i != id ==> db'.entries[i] == db.entries[i])
    && db'.entries[id].task.spec == db.entries[id].task.spec
    && db'.entries[id].task.result == db.entries[id].task.result
    && Numbered(db'.entries[id].log, id)
  }

  lemma ChangeStatusNumbers(db: Db, id: nat, next: TaskStatus, payload: Payload, now: Timestamp)
    requires id < |db.entries| && Numbered(db.entries[id].log, id)
    ensures
      var db' := ChangeStatus(db, id, next, payload, now).db;
      id < |db'.entries| && Numbered(db'.entries[id].log, id)
  {
    hide ChangeStatus;
    ChangeStatusEffect(db, id, next, payload, now);
  }

  lemma ChangeStatusTouches(db: Db, id: nat, next: TaskStatus, payload: Payload, now: Timestamp)
    requires id < |db.entries| && Numbered(db.entries[id].log, id)
    ensures
      var r := ChangeStatus(db, id, next, payload, now);
      var status := db.entries[id].task.status;
      var commits := Allowed(status, next);
      && Touches(db, r.db, id)
      && (!commits ==> r.db == db && (r.result.Err? || next.IsTerminal()))
      && (!commits && !status.IsTerminal() ==> r.result == Err(State(InvalidTransition)))
      && (commits ==>
            && r.result.Ok?
            && r.db.entries[id].task.status == next
            && r.db.locks == if next.IsTerminal() then ReleaseHeld(db.locks, id, now) else db.locks)
  {
    if !Allowed(db.entries[id].task.status, next) {
      RefusalIsInvalid(db, id, next, payload, now);
    }
    hide ChangeStatus, Numbered, ReleaseHeld;
    ChangeStatusMoves(db, id, next, payload, now);
    ChangeStatusNumbers(db, id, next, payload, now);
  }

  lemma RefusalIsInvalid(db: Db, id: nat, next: TaskStatus, payload: Payload, now: Timestamp)
    requires id < |db.entries| && !Allowed(db.entries[id].task.status, next)
    ensures !db.entries[id].task.status.IsTerminal() ==>
      ChangeStatus(db, id, next, payload, now).result == Err(State(InvalidTransition))
  {
  }

  lemma TouchesTransitive(a: Db, b: Db, c: Db, id: nat)
    requires Touches(a, b, id) && Touches(b, c, id)
    ensures Touches(a, c, id)
  {
  }

  /** The steps of an admission that gets through, from its status on. */
  lemma StepsToRunning(db: Db, id: nat, now: Timestamp)
    requires id < |db.entries| && Numbered(db.entries[id].log, id)
    ensures
      var r := MarkRunning(Prepared(db, id, now), id, now);
      && Touches(db, r.db, id)
      && r.db.locks == db.locks
      && (r.result.Ok? <==> db.entries[id].task.status.WaitingDirectoryLock? || db.entries[id].task.status.Preparing?)
      && (r.result.Ok? ==> r.db.entries[id].task.status == Running)
  {
    hide ChangeStatus, Numbered;
    ChangeStatusTouches(db, id, Preparing, EmptyObject, now);
    var db1 := Prepared(db, id, now);
    ChangeStatusTouches(db1, id, Running, EmptyObject, now);
    TouchesTransitive(db, db1, MarkRunning(db1, id, now).db, id);
  }

  /** Preparing a workspace: what a refusal leaves, besides the failed task, is freed locks. */
  lemma PrepareSucceedsExactly(db: Db, grants: GrantTable, id: nat, prepared: bool, now: Timestamp)
    requires id < |db.entries| && Numbered(db.entries[id].log, id)
    requires db.entries[id].task.spec.directoryId in grants
    ensures
      var r := PrepareWorkspace(db, grants, id, prepared, now);
      && Touches(db, r.db, id)
      && (r.result.Ok? <==> prepared)
      && (prepared ==> r.db == Prepared(db, id, now))
      && (!prepared ==> r.db.locks == db.locks || r.db.locks == ReleaseHeld(db.locks, id, now))
      && (!prepared && db.entries[id].task.status.WaitingDirectoryLock? ==> r.db.locks == ReleaseHeld(db.locks, id, now))
  {
    hide ChangeStatus, Numbered, ReleaseHeld;
    ChangeStatusTouches(db, id, Preparing, EmptyObject, now);
    var db1 := Prepared(db, id, now);
    ChangeStatusTouches(db1, id, Failed, Opaque("workspace preparation failed"), now);
    TouchesTransitive(db, db1, ChangeStatus(db1, id, Failed, Opaque("workspace preparation failed"), now).db, id);
  }

  /** What follows once the lock step lets a task on. */
  function AfterLock(db: Db, grants: GrantTable, id: nat, prepared: bool, now: Timestamp): Outcome<()> {
    var w := PrepareWorkspace(db, grants, id, prepared, now);
    if w.result.Err? then w else MarkRunning(w.db, id, now)
  }

  lemma LockedStepSucceedsExactly(db: Db, grants: GrantTable, id: nat, prepared: bool, now: Timestamp)
    requires id < |db.entries| && Numbered(db.entries[id].log, id)
    requires db.entries[id].task.spec.directoryId in grants
    ensures
      var r := AfterLock(db, grants, id, prepared, now);
      && Touches(db, r.db, id)
      && (r.result.Ok? <==> prepared && (db.entries[id].task.status.WaitingDirectoryLock? || db.entries[id].task.status.Preparing?))
      && (r.result.Ok? ==> r.db.entries[id].task.status == Running && r.db.locks == db.locks)
      && (r.db.locks == db.locks || r.db.locks == ReleaseHeld(db.locks, id, now))
      && (r.result.Err? && db.entries[id].task.status.WaitingDirectoryLock? ==> r.db.locks == ReleaseHeld(db.locks, id, now))
  {
    hide Touches, PrepareWorkspace, MarkRunning, ReleaseHeld;
    PrepareSucceedsExactly(db, grants, id, prepared, now);
    StepsToRunning(db, id, now);
  }

  lemma WaitMoves(db: Db, id: nat, reason: string, decision: LockDecision, now: Timestamp)
    requires id < |db.entries| && Numbered(db.entries[id].log, id)
    ensures
      var r := Wait(db, id, reason, decision, now);
      && Touches(db, r.db, id)
      && r.db.locks == db.locks
      && (r.result.Ok? <==> db.entries[id].task.status.Queued?)
      && (r.result.Ok? ==> r.result.value == decision && r.db.entries[id].task.status == WaitingDirectoryLock)
      && (r.result.Err? ==> r.db == db)
      && (r.result.Err? && !db.entries[id].task.status.IsTerminal() ==> r.result.error == InvalidTaskState)
  {
    hide ChangeStatus;
    ChangeStatusTouches(db, id, WaitingDirectoryLock, Opaque(reason), now);
  }

  /** There is room, and a lock to take that nothing stands in the way of. */
  ghost predicate LockIsFree(max: nat, db: Db, grants: GrantTable, id: nat)
    requires id < |db.entries| && db.entries[id].task.spec.directoryId in grants
  {
    var task := db.entries[id].task;
    var mode := LockModeOf(task, grants[task.spec.directoryId]);
    !mode.NoLock? && ActiveCount(db.entries) < max && !Conflicts(db.locks, task.spec.directoryId, mode)
  }

  function WithOwnLock(db: Db, grants: GrantTable, id: nat, now: Timestamp): Db
    requires id < |db.entries| && db.entries[id].task.spec.directoryId in grants
  {
    var task := db.entries[id].task;
    db.(locks := WithLock(db.locks, task.spec.directoryId, id, LockModeOf(task, grants[task.spec.directoryId]), now))
  }

  /** The lock step: it lets on a Queued task that gets its lock, and any task that needs
      none when there is room. The lock is taken whenever it is free, whether or not the
      task may then move. */
  lemma TryAcquireSucceedsExactly(max: nat, db: Db, grants: GrantTable, id: nat, now: Timestamp)
    requires id < |db.entries| && Numbered(db.entries[id].log, id)
    requires db.entries[id].task.spec.directoryId in grants && !db.entries[id].task.status.IsTerminal()
    ensures
      var task := db.entries[id].task;
      var mode := LockModeOf(task, grants[task.spec.directoryId]);
      var r := TryAcquire(db, grants, max, id, task.spec.directoryId, now);
      var free := LockIsFree(max, db, grants, id);
      && Touches(db, r.db, id)
      && r.db.locks == (if free then WithOwnLock(db, grants, id, now).locks else db.locks)
      && (r.result.Ok? && !r.result.value.Waiting? <==>
            if mode.NoLock? then ActiveCount(db.entries) < max else free && task.status.Queued?)
      && (mode.NoLock? && ActiveCount(db.entries) < max ==> r.db == db)
      && (!(mode.NoLock? && ActiveCount(db.entries) < max) && task.status.Queued? ==>
            r.db.entries[id].task.status == WaitingDirectoryLock)
      && (!free && !task.status.Queued? ==> r.db == db)
      && (free && !task.status.Queued? ==> r == Outcome(WithOwnLock(db, grants, id, now), Err(InvalidTaskState)))
  {
    hide Wait, Conflicts, ActiveCount, LockModeOf, Numbered;
    var task := db.entries[id].task;
    var db' := WithOwnLock(db, grants, id, now);
    WaitMoves(db, id, "global_capacity", Waiting, now);
    WaitMoves(db, id, "directory_lock", Waiting, now);
    WaitMoves(db', id, "directory_lock_acquired", Acquired, now);
  }

  /** An admission succeeds exactly when the runtime and the workspace are there and the
      task is admissible; it then leaves the task Running with the lock its grant asks
      for, and every other task as it was. */
  lemma AdmitSucceedsExactly(max: nat, db: Db, grants: GrantTable, id: nat, runtime: RuntimeSearch, prepared: bool, now: Timestamp)
    requires id < |db.entries| ==> Numbered(db.entries[id].log, id)
    ensures
      var r := Admit(db, grants, max, id, runtime, prepared, now);
      && (r.result.Ok? <==> runtime.Found? && prepared && Admissible(max, db, grants, id))
      && (id < |db.entries| ==> Touches(db, r.db, id))
      && (r.result.Ok? ==>
            && id < |r.db.entries|
            && r.db.entries[id].task.status == Running
            && var task := db.entries[id].task;
               var mode := LockModeOf(task, grants[task.spec.directoryId]);
               r.db.locks == if mode.NoLock? then db.locks else WithLock(db.locks, task.spec.directoryId, id, mode, now))
  {
    hide TryAcquire, PrepareWorkspace, MarkRunning, Conflicts, ActiveCount, LockModeOf, Numbered, ReleaseHeld;
    if id < |db.entries| && !db.entries[id].task.status.IsTerminal() && db.entries[id].task.spec.directoryId in grants {
      TryAcquireSucceedsExactly(max, db, grants, id, now);
      var lock := TryAcquire(db, grants, max, id, db.entries[id].task.spec.directoryId, now);
      LockedStepSucceedsExactly(lock.db, grants, id, prepared, now);
      TouchesTransitive(db, lock.db, AfterLock(lock.db, grants, id, prepared, now).db, id);
    }
  }

  // ---- The same, in terms of the grant's policy -------------------------

  /** The task needs its directory for itself. */
  predicate WantsExclusive(task: Task, policy: GrantPolicy) {
    policy.lockPolicy != NoLockPolicy
    && (policy.lockPolicy == ExclusivePolicy || DoesMoreThanRead(task.spec.requiredCapabilities))
  }

  /** Whoever holds a lock on the directory shares it, and so would the newcomer. */
  ghost predicate MayShare(locks: LockTable, directoryId: string, exclusive: bool) {
    forall k :: k in locks && locks[k].held && k.directoryId == directoryId ==> !exclusive && locks[k].mode != Exclusive
  }

  /** Of the lock rows only this one has changed: it is held, from now on. */
  ghost predicate GainsLock(locks: LockTable, locks': LockTable, key: LockKey, exclusive: bool, now: Timestamp) {
    && locks'.Keys == locks.Keys + {key}
    && locks'[key] == Lock(if exclusive then Exclusive else Shared, true, now, None)
    && forall k :: k in locks && k != key ==> locks'[k] == locks[k]
  }

  lemma LockModeMeans(locks: LockTable, task: Task, id: nat, grant: Grant, now: Timestamp)
    ensures
      var mode, d := LockModeOf(task, grant), task.spec.directoryId;
      var exclusive := WantsExclusive(task, grant.policy);
      && (mode.NoLock? <==> grant.policy.lockPolicy == NoLockPolicy)
      && (!mode.NoLock? ==>
            && (Conflicts(locks, d, mode) <==> !MayShare(locks, d, exclusive))
            && GainsLock(locks, WithLock(locks, d, id, mode, now), LockKey(d, id), exclusive, now))
  {
    LockModeIsExactly(task.spec.requiredCapabilities, grant.policy.lockPolicy);
  }

  /** Under a grant without locks a task is let on whenever there is room. Otherwise it must
      be Queued; it then waits, with its lock if there was room and nobody in the way, and
      the event says which of the three it was. */
  lemma LockStepAnswers(max: nat, db: Db, grants: GrantTable, id: nat, now: Timestamp)
    requires id < |db.entries| && Numbered(db.entries[id].log, id)
    requires db.entries[id].task.spec.directoryId in grants && !db.entries[id].task.status.IsTerminal()
    ensures
      var task, log := db.entries[id].task, db.entries[id].log;
      var d := task.spec.directoryId;
      var policy := grants[d].policy;
      var exclusive := WantsExclusive(task, policy);
      var room, unlocked := ActiveCount(db.entries) < max, policy.lockPolicy == NoLockPolicy;
      var free := room && !unlocked && MayShare(db.locks, d, exclusive);
      var r := TryAcquire(db, grants, max, id, d, now);
      && r.result == (if room && unlocked then Ok(NotRequired)
                      else if task.status != Queued then Err(InvalidTaskState)
                      else if free then Ok(Acquired) else Ok(Waiting))
      && (if free then GainsLock(db.locks, r.db.locks, LockKey(d, id), exclusive, now) else r.db.locks == db.locks)
      && |r.db.entries| == |db.entries|
      && (forall i :: 0 <= i < |db.entries| && i != id ==> r.db.entries[i] == db.entries[i])
      && (r.result == Ok(Acquired) || r.result == Ok(Waiting) ==>
            var reason := if !room then "global_capacity" else if free then "directory_lock_acquired" else "directory_lock";
            && r.db.entries[id].task.status == WaitingDirectoryLock
            && r.db.entries[id].log == log + [Event(id, |log| + 1, TaskWaitingDirectoryLock, Opaque(reason), now)])
      && (r.result == Ok(NotRequired) || r.result.Err? ==> r.db.entries == db.entries)
  {
    hide ActiveCount, Conflicts, LockModeOf, Numbered, GainsLock, MayShare, WantsExclusive, Wait;
    var task := db.entries[id].task;
    LockModeMeans(db.locks, task, id, grants[task.spec.directoryId], now);
    WaitSays(db, id, "global_capacity", Waiting, now);
    WaitSays(db, id, "directory_lock", Waiting, now);
    WaitSays(WithOwnLock(db, grants, id, now), id, "directory_lock_acquired", Acquired, now);
  }

  lemma WaitSays(db: Db, id: nat, reason: string, decision: LockDecision, now: Timestamp)
    requires id < |db.entries| && Numbered(db.entries[id].log, id) && !db.entries[id].task.status.IsTerminal()
    ensures
      var log := db.entries[id].log;
      var r := Wait(db, id, reason, decision, now);
      && r.result == (if db.entries[id].task.status == Queued then Ok(decision) else Err(InvalidTaskState))
      && r.db.locks == db.locks
      && |r.db.entries| == |db.entries|
      && (forall i :: 0 <= i < |db.entries| && i != id ==> r.db.entries[i] == db.entries[i])
      && (r.result.Err? ==> r.db == db)
      && (r.result.Ok? ==>
            && r.db.entries[id].task.status == WaitingDirectoryLock
            && r.db.entries[id].log == log + [Event(id, |log| + 1, TaskWaitingDirectoryLock, Opaque(reason), now)])
  {
    hide Numbered;
    WaitMoves(db, id, reason, decision, now);
    ChangeStatusEffect(db, id, WaitingDirectoryLock, Opaque(reason), now);
  }

  /** An admission succeeds exactly when runtime and workspace are there, the grant exists,
      there is room, and: without locks, the task waits or is being prepared; with locks, it
      is Queued and may have the directory, alone under an exclusive policy or if it does
      more than read. It then runs, and holds that lock. */
  lemma AdmittedExactly(max: nat, db: Db, grants: GrantTable, id: nat, runtime: RuntimeSearch, prepared: bool, now: Timestamp)
    requires id < |db.entries| && Numbered(db.entries[id].log, id)
    ensures
      var task := db.entries[id].task;
      var d := task.spec.directoryId;
      var r := Admit(db, grants, max, id, runtime, prepared, now);
      && (r.result.Ok? <==>
            && runtime == Found && prepared && d in grants && ActiveCount(db.entries) < max
            && if grants[d].policy.lockPolicy == NoLockPolicy then task.status == WaitingDirectoryLock || task.status == Preparing
               else task.status == Queued && MayShare(db.locks, d, WantsExclusive(task, grants[d].policy)))
      && (r.result.Ok? ==>
            && id < |r.db.entries| && r.db.entries[id].task.status == Running && r.db.entries[id].task.spec == task.spec
            && if grants[d].policy.lockPolicy == NoLockPolicy then r.db.locks == db.locks
               else GainsLock(db.locks, r.db.locks, LockKey(d, id), WantsExclusive(task, grants[d].policy), now))
  {
    hide ActiveCount, Conflicts, LockModeOf, Numbered, GainsLock, MayShare, WantsExclusive, Admit;
    var task := db.entries[id].task;
    AdmitSucceedsExactly(max, db, grants, id, runtime, prepared, now);
    if task.spec.directoryId in grants {
      LockModeMeans(db.locks, task, id, grants[task.spec.directoryId], now);
    }
  }

  /** Preparing a workspace: a task that waits is preparing from then on; without a workspace
      it fails, unless it is Queued. */
  lemma PrepareAnswers(db: Db, grants: GrantTable, id: nat, prepared: bool, now: Timestamp)
    requires id < |db.entries| && Numbered(db.entries[id].log, id)
    requires db.entries[id].task.spec.directoryId in grants && !db.entries[id].task.status.IsTerminal()
    ensures
      var status := db.entries[id].task.status;
      var r := PrepareWorkspace(db, grants, id, prepared, now);
      && r.result == (if prepared then Ok(()) else if status == Queued then Err(InvalidTaskState) else Err(WorkspaceModeNotAllowed))
      && |r.db.entries| == |db.entries|
      && var log' := r.db.entries[id].log;
         && Numbered(log', id)
         && r.db.entries[id].task.status ==
              (if status == Queued then Queued else if !prepared then Failed
               else if status == WaitingDirectoryLock then Preparing else status)
         && (!prepared && status != Queued ==>
               log' != [] && log'[|log'| - 1] == Event(id, |log'|, TaskFailed, Opaque("workspace preparation failed"), now))
  {
    hide ChangeStatus, Numbered, ReleaseHeld;
    ChangeStatusTouches(db, id, Preparing, EmptyObject, now);
    var db1 := Prepared(db, id, now);
    ChangeStatusTouches(db1, id, Failed, Opaque("workspace preparation failed"), now);
    LastEventOfMove(db1, id, Failed, Opaque("workspace preparation failed"), now);
  }

  lemma LastEventOfMove(db: Db, id: nat, next: TaskStatus, payload: Payload, now: Timestamp)
    requires id < |db.entries| && Numbered(db.entries[id].log, id)
    ensures
      var r := ChangeStatus(db, id, next, payload, now);
      Allowed(db.entries[id].task.status, next) ==>
        && |r.db.entries| == |db.entries|
        && r.db.entries[id].log == db.entries[id].log + [Event(id, |db.entries[id].log| + 1, EventTypeForStatus(next), payload, now)]
  {
    ChangeStatusEffect(db, id, next, payload, now);
  }

  /** The lock step and the preparation of a task or a grant that is not there change nothing;
      but a full house comes first. */
  lemma MissingIsNamed(max: nat, db: Db, grants: GrantTable, id: nat, directoryId: string, prepared: bool, now: Timestamp)
    ensures id >= |db.entries| ==> TryAcquire(db, grants, max, id, directoryId, now) == Outcome(db, Err(NoSuchTask))
    ensures id >= |db.entries| ==> PrepareWorkspace(db, grants, id, prepared, now) == Outcome(db, Err(NoSuchTask))
    ensures id < |db.entries| && directoryId !in grants ==>
      TryAcquire(db, grants, max, id, directoryId, now) ==
        if ActiveCount(db.entries) < max then Outcome(db, Err(DirectoryNotFound)) else Wait(db, id, "global_capacity", Waiting, now)
    ensures id < |db.entries| && db.entries[id].task.spec.directoryId !in grants ==>
      PrepareWorkspace(db, grants, id, prepared, now) == Outcome(db, Err(DirectoryNotFound))
  {
  }

  lemma AfterLockAnswers(db: Db, grants: GrantTable, id: nat, prepared: bool, now: Timestamp)
    requires id < |db.entries| && Numbered(db.entries[id].log, id)
    requires db.entries[id].task.spec.directoryId in grants && !db.entries[id].task.status.IsTerminal()
    ensures
      var status := db.entries[id].task.status;
      AfterLock(db, grants, id, prepared, now).result ==
        if !prepared then Err(if status == Queued then InvalidTaskState else WorkspaceModeNotAllowed)
        else if status == WaitingDirectoryLock || status == Preparing then Ok(())
        else Err(InvalidTaskState)
  {
    hide Numbered, PrepareWorkspace, MarkRunning;
    PrepareAnswers(db, grants, id, prepared, now);
    StartAnswers(PrepareWorkspace(db, grants, id, prepared, now).db, id, now);
  }

  /** What an admission that fails says, in the order of its looks: the look-ups first, then
      a lock that is not to be had, then a workspace that is not there; otherwise the task
      was not in a state to be admitted. The look-ups change nothing. */
  lemma AdmitRefusesFirst(max: nat, db: Db, grants: GrantTable, id: nat, runtime: RuntimeSearch, prepared: bool, now: Timestamp)
    requires id < |db.entries| ==> Numbered(db.entries[id].log, id)
    ensures
      var r := Admit(db, grants, max, id, runtime, prepared, now);
      if id >= |db.entries| then r == Outcome(db, Err(NoSuchTask))
      else if db.entries[id].task.status.IsTerminal() then r == Outcome(db, Err(TaskAlreadyTerminal))
      else if runtime == NoProfile || db.entries[id].task.spec.directoryId !in grants then
        r == Outcome(db, Err(StoreFailed(LookupFailed)))
      else if runtime == BadRegistry then r == Outcome(db, Err(RegistryFailed))
      else if runtime == NoRuntime then r == Outcome(db, Err(RuntimeUnavailable))
      else
        var task := db.entries[id].task;
        var policy := grants[task.spec.directoryId].policy;
        var room, unlocked := ActiveCount(db.entries) < max, policy.lockPolicy == NoLockPolicy;
        var free := room && (unlocked || MayShare(db.locks, task.spec.directoryId, WantsExclusive(task, policy)));
        r.result.Err? ==>
          r.result.error ==
            if task.status == Queued && !free then DirectoryLockConflict
            else if !prepared && free && (task.status == Queued <==> !unlocked) then WorkspaceModeNotAllowed
            else InvalidTaskState
  {
    hide ActiveCount, Conflicts, LockModeOf, Numbered, GainsLock, MayShare, WantsExclusive, TryAcquire, PrepareWorkspace, MarkRunning;
    if id < |db.entries| && !db.entries[id].task.status.IsTerminal() && db.entries[id].task.spec.directoryId in grants {
      LockStepAnswers(max, db, grants, id, now);
      TryAcquireSucceedsExactly(max, db, grants, id, now);
      var lock := TryAcquire(db, grants, max, id, db.entries[id].task.spec.directoryId, now);
      if lock.result.Ok? && lock.result != Ok(Waiting) {
        AfterLockAnswers(lock.db, grants, id, prepared, now);
      }
    }
  }

  /** Marking a task as running: only one that is being prepared is. */
  lemma StartAnswers(db: Db, id: nat, now: Timestamp)
    requires id < |db.entries| ==> Numbered(db.entries[id].log, id)
    ensures
      MarkRunning(db, id, now).result ==
        if id >= |db.entries| then Err(NoSuchTask)
        else if db.entries[id].task.status.IsTerminal() then Err(TaskAlreadyTerminal)
        else if db.entries[id].task.status == Preparing then Ok(())
        else Err(InvalidTaskState)
  {
    hide Numbered, ChangeStatus, IsMovedRow, IsReleased;
    MoveAnswers(db, id, Running, EmptyObject, now);
  }

  /** What the scheduler makes of a transition's refusal. */
  lemma MoveAnswers(db: Db, id: nat, next: TaskStatus, payload: Payload, now: Timestamp)
    requires id < |db.entries| ==> Numbered(db.entries[id].log, id)
    ensures
      var r := ChangeStatus(db, id, next, payload, now).result;
      && (r.Ok? <==> id < |db.entries| && (Allowed(db.entries[id].task.status, next)
                                           || (next.IsTerminal() && next == db.entries[id].task.status)))
      && (r.Err? ==>
            FromStore(r.error) ==
              if id >= |db.entries| then NoSuchTask
              else if db.entries[id].task.status.IsTerminal() then TaskAlreadyTerminal else InvalidTaskState)
  {
    if id < |db.entries| {
      hide Numbered, ChangeStatus, IsMovedRow, IsReleased;
      TransitionAnswers(db, id, next, payload, now);
    }
  }

  /** An outcome is refused for a task that is not there, has ended otherwise, or is in no
      state to end so; its output has been logged by then. */
  lemma OutcomeAnswers(db: Db, id: nat, output: Output, status: TaskStatus, error: Payload, message: string, now: Timestamp)
    requires id < |db.entries| ==> Numbered(db.entries[id].log, id)
    requires status.IsTerminal()
    ensures
      var r := PersistOutcome(db, id, output, status, error, message, now);
      && r.result == (
           if id >= |db.entries| then Err(NoSuchTask)
           else if Allowed(db.entries[id].task.status, status) || db.entries[id].task.status == status then Ok(())
           else Err(if db.entries[id].task.status.IsTerminal() then TaskAlreadyTerminal else InvalidTaskState))
      && (r.result.Err? ==> r.db == AppendAll(db, id, output, now).db)
  {
    hide Numbered, ChangeStatus, AppendEvent, IsMovedRow, IsReleased, AppendAll, SaveResult;
    if id < |db.entries| {
      AppendAllEffect(db, id, output, now);
      var db' := AppendAll(db, id, output, now).db;
      MoveAnswers(db', id, status, error, now);
      TransitionAnswers(db', id, status, error, now);
    } else {
      NothingToAppendTo(db, id, output, now);
      MoveAnswers(db, id, status, error, now);
      MissingTasksAreRefused(db, id, status, ProcessStdout, error, PermissionRequest("", "", "", ""), Approve, None, now);
    }
  }

  lemma NothingToAppendTo(db: Db, id: nat, output: Output, now: Timestamp)
    requires id >= |db.entries|
    ensures AppendAll(db, id, output, now) == Reply(db, if output == [] then Ok(()) else Err(TaskNotFound))
  {
  }

  // ---- Locks left behind by admissions that fail ------------------------

  ghost predicate Holds(locks: LockTable, key: LockKey) {
    key in locks && locks[key].held
  }

  /** The task is alive but past Queued, and its lock is free. */
  ghost predicate RetryFindsFreeLock(max: nat, db: Db, grants: GrantTable, id: nat) {
    && id < |db.entries|
    && db.entries[id].task.spec.directoryId in grants
    && !db.entries[id].task.status.IsTerminal()
    && !db.entries[id].task.status.Queued?
    && LockIsFree(max, db, grants, id)
  }

  /** An admission fails and yet leaves a lock held that was not held before exactly when
      the task has been admitted or made to wait already, its runtime is there and its
      lock is free. Nothing but the lock table then changes. */
  lemma FailedAdmissionStrandsLockExactly(
      max: nat, db: Db, grants: GrantTable, id: nat, runtime: RuntimeSearch, prepared: bool, now: Timestamp)
    requires id < |db.entries| && Numbered(db.entries[id].log, id)
    ensures
      var key := LockKey(db.entries[id].task.spec.directoryId, id);
      var r := Admit(db, grants, max, id, runtime, prepared, now);
      && (r.result.Err? && Holds(r.db.locks, key) && !Holds(db.locks, key) <==>
            runtime.Found? && RetryFindsFreeLock(max, db, grants, id) && !Holds(db.locks, key))
      && (runtime.Found? && RetryFindsFreeLock(max, db, grants, id) ==>
            r == Outcome(WithOwnLock(db, grants, id, now), Err(InvalidTaskState)))
  {
    hide TryAcquire, PrepareWorkspace, MarkRunning, Conflicts, ActiveCount, LockModeOf, Numbered;
    if !db.entries[id].task.status.IsTerminal() && db.entries[id].task.spec.directoryId in grants {
      TryAcquireSucceedsExactly(max, db, grants, id, now);
      var lock := TryAcquire(db, grants, max, id, db.entries[id].task.spec.directoryId, now);
      LockedStepSucceedsExactly(lock.db, grants, id, prepared, now);
    }
  }

  /** Cancelling ends every task that has not ended otherwise, releases its locks, and
      is refused exactly on tasks that completed, failed or timed out. */
  lemma CancelEndsTask(db: Db, id: nat, now: Timestamp)
    requires id < |db.entries| && Numbered(db.entries[id].log, id)
    ensures
      var r := CancelTask(db, id, now);
      var status := db.entries[id].task.status;
      && (r.result.Ok? <==> !status.IsTerminal() || status == Cancelled)
      && (r.result.Err? ==> r.db == db && r.result.error == TaskAlreadyTerminal)
      && (r.result.Ok? ==> id < |r.db.entries| && r.db.entries[id].task.status == Cancelled)
      && (!status.IsTerminal() ==> forall k :: k in r.db.locks && k.taskId == id ==> !r.db.locks[k].held)
  {
    ChangeStatusMoves(db, id, Cancelled, EmptyObject, now);
  }

  // ---- What persisting an outcome records -------------------------------

  /** The events an execution's output becomes, behind n others. */
  function OutputEvents(id: nat, n: nat, output: Output, now: Timestamp): Log {
    seq(|output|, i requires 0 <= i < |output| => Event(id, n + 1 + i, output[i].0, output[i].1, now))
  }

  lemma {:induction false} AppendAllEffect(db: Db, id: nat, output: Output, now: Timestamp)
    requires id < |db.entries| && Numbered(db.entries[id].log, id)
    ensures
      var entry := db.entries[id];
      var log' := entry.log + OutputEvents(id, |entry.log|, output, now);
      && Numbered(log', id)
      && AppendAll(db, id, output, now) == Reply(db.(entries := db.entries[id := entry.(log := log')]), Ok(()))
    decreases |output|
  {
    hide AppendEvent, Numbered;
    var entry := db.entries[id];
    if output == [] {
      assert OutputEvents(id, |entry.log|, output, now) == [];
      assert entry.log + [] == entry.log && db.entries[id := entry] == db.entries;
    } else {
      AppendEffect(db, id, output[0].0, output[0].1, now);
      var e := Event(id, |entry.log| + 1, output[0].0, output[0].1, now);
      var db1 := AppendEvent(db, id, output[0].0, output[0].1, now).db;
      AppendAllEffect(db1, id, output[1..], now);
      var log' := entry.log + OutputEvents(id, |entry.log|, output, now);
      assert entry.log + [e] + OutputEvents(id, |entry.log| + 1, output[1..], now) == log';
    }
  }

  lemma AppendEffect(db: Db, id: nat, eventType: EventType, payload: Payload, now: Timestamp)
    requires id < |db.entries| && Numbered(db.entries[id].log, id)
    ensures
      var entry := db.entries[id];
      var e := Event(id, |entry.log| + 1, eventType, payload, now);
      && Numbered(entry.log + [e], id)
      && AppendEvent(db, id, eventType, payload, now) == Reply(db.(entries := db.entries[id := entry.(log := entry.log + [e])]), Ok(e))
  {
    NumberedSequences(db.entries[id].log, id);
  }

  /** When nothing comes in between, a terminal outcome of a running task is recorded in
      full: its output in order, then its end, with status, result and freed locks; no
      other task is touched. */
  lemma OutcomeIsRecorded(db: Db, id: nat, output: Output, status: TaskStatus, error: Payload, message: string, now: Timestamp)
    requires id < |db.entries| && Numbered(db.entries[id].log, id)
    requires db.entries[id].task.status == Running && status.IsTerminal()
    ensures
      var r := PersistOutcome(db, id, output, status, error, message, now);
      var log := db.entries[id].log;
      && r.result.Ok?
      && |r.db.entries| == |db.entries|
      && r.db.entries[id].task.status == status
      && r.db.entries[id].task.result == Some(TaskResult(id, status, message))
      && r.db.entries[id].log ==
           log + OutputEvents(id, |log|, output, now) + [Event(id, |log| + |output| + 1, EventTypeForStatus(status), error, now)]
      && (forall i :: 0 <= i < |db.entries| && i != id ==> r.db.entries[i] == db.entries[i])
      && r.db.locks == ReleaseHeld(db.locks, id, now)
      && r.db.permissions == db.permissions
  {
    hide AppendAll, ChangeStatus, Numbered, ReleaseHeld, Stamp;
    AppendAllEffect(db, id, output, now);
    ChangeStatusEffect(AppendAll(db, id, output, now).db, id, status, error, now);
  }
}
