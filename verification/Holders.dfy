/**
 How long a lock lasts: from the admission that takes it to the end of its task, in the
 mode the grant asked for at that moment, whatever becomes of the grant.
 */
module Holders {
  import opened Results
  import opened Lifecycle
  import opened TaskModel
  import opened Directory
  import opened Locks
  import opened Grants
  import opened Store
  import opened StoreInvariants
  import opened Scheduler
  import opened TaskSystem
  import opened Admission
  import opened Protection

  ghost predicate IsLive(entries: seq<Entry>, id: nat) {
    id < |entries| && !entries[id].task.status.IsTerminal()
  }

  ghost predicate HoldsIn(locks: LockTable, key: LockKey, mode: LockMode) {
    Holds(locks, key) && locks[key].mode == mode
  }

  /** Tasks stay what they are and do not come back to life; while they live, their locks
      stay held, in their mode. */
  ghost predicate Lasts(db: Db, db': Db) {
    && |db.entries| <= |db'.entries|
    && (forall i :: 0 <= i < |db.entries| ==> db'.entries[i].task.spec == db.entries[i].task.spec)
    && (forall i :: 0 <= i < |db.entries| && IsLive(db'.entries, i) ==> IsLive(db.entries, i))
    && (forall k, mode: LockMode ::
          HoldsIn(db.locks, k, mode) && !mode.NoLock? && k.taskId < |db.entries| && IsLive(db'.entries, k.taskId) ==>
            HoldsIn(db'.locks, k, mode))
  }

  lemma LastsTransitive(a: Db, b: Db, c: Db)
    requires Lasts(a, b) && Lasts(b, c)
    ensures Lasts(a, c)
  {
  }

  // ---- Single moves -----------------------------------------------------

  lemma StatusLasts(db: Db, id: nat, next: TaskStatus, payload: Payload, now: Timestamp)
    requires id < |db.entries| ==> Numbered(db.entries[id].log, id)
    ensures Lasts(db, ChangeStatus(db, id, next, payload, now).db)
  {
    if id < |db.entries| {
      hide ChangeStatus;
      ChangeStatusTouches(db, id, next, payload, now);
      StatusCalms(db, id, next, payload, now);
    }
  }

  lemma SameLocksLast(db: Db, db': Db)
    requires db'.locks == db.locks && |db'.entries| >= |db.entries|
    requires forall i :: 0 <= i < |db.entries| ==>
      db'.entries[i].task.status == db.entries[i].task.status && db'.entries[i].task.spec == db.entries[i].task.spec
    ensures Lasts(db, db')
  {
  }

  /** A task that holds its lock already can take it again only in the mode it has. */
  lemma OwnLockLasts(db: Db, id: nat, directoryId: string, mode: LockMode, now: Timestamp)
    requires !mode.NoLock? && !Conflicts(db.locks, directoryId, mode)
    ensures Lasts(db, db.(locks := WithLock(db.locks, directoryId, id, mode, now)))
  {
    var key := LockKey(directoryId, id);
    assert Holds(db.locks, key) && !db.locks[key].mode.NoLock? ==> db.locks[key].mode == mode;
  }

  lemma TryAcquireLasts(max: nat, db: Db, grants: GrantTable, id: nat, now: Timestamp)
    requires id < |db.entries| && Numbered(db.entries[id].log, id)
    ensures
      var r := TryAcquire(db, grants, max, id, db.entries[id].task.spec.directoryId, now);
      Lasts(db, r.db) && id < |r.db.entries| && Numbered(r.db.entries[id].log, id)
  {
    hide ChangeStatus, Conflicts, LockModeOf, Numbered, ActiveCount, Lasts;
    var d := db.entries[id].task.spec.directoryId;
    StatusLasts(db, id, WaitingDirectoryLock, Opaque("global_capacity"), now);
    StatusLasts(db, id, WaitingDirectoryLock, Opaque("directory_lock"), now);
    ChangeStatusNumbers(db, id, WaitingDirectoryLock, Opaque("global_capacity"), now);
    ChangeStatusNumbers(db, id, WaitingDirectoryLock, Opaque("directory_lock"), now);
    SameLocksLast(db, db);
    if d in grants {
      var mode := LockModeOf(db.entries[id].task, grants[d]);
      if !mode.NoLock? && !Conflicts(db.locks, d, mode) {
        OwnLockLasts(db, id, d, mode, now);
        var db' := db.(locks := WithLock(db.locks, d, id, mode, now));
        StatusLasts(db', id, WaitingDirectoryLock, Opaque("directory_lock_acquired"), now);
        ChangeStatusNumbers(db', id, WaitingDirectoryLock, Opaque("directory_lock_acquired"), now);
        LastsTransitive(db, db', ChangeStatus(db', id, WaitingDirectoryLock, Opaque("directory_lock_acquired"), now).db);
      }
    }
  }

  lemma StartLasts(db: Db, grants: GrantTable, id: nat, prepared: bool, now: Timestamp)
    requires id < |db.entries| && Numbered(db.entries[id].log, id)
    ensures Lasts(db, AfterLock(db, grants, id, prepared, now).db)
  {
    hide ChangeStatus, Lasts, Numbered;
    var db1 := Prepared(db, id, now);
    SameLocksLast(db, db);
    StatusLasts(db, id, Preparing, EmptyObject, now);
    ChangeStatusNumbers(db, id, Preparing, EmptyObject, now);
    StatusLasts(db1, id, Failed, Opaque("workspace preparation failed"), now);
    StatusLasts(db1, id, Running, EmptyObject, now);
    LastsTransitive(db, db1, ChangeStatus(db1, id, Failed, Opaque("workspace preparation failed"), now).db);
    LastsTransitive(db, db1, ChangeStatus(db1, id, Running, EmptyObject, now).db);
    StartEndsIn(db, grants, id, prepared, now);
  }

  lemma AdmitLasts(max: nat, db: Db, grants: GrantTable, id: nat, runtime: RuntimeSearch, prepared: bool, now: Timestamp)
    requires id < |db.entries| ==> Numbered(db.entries[id].log, id)
    ensures Lasts(db, Admit(db, grants, max, id, runtime, prepared, now).db)
  {
    hide Lasts, TryAcquire, PrepareWorkspace, MarkRunning, Numbered;
    SameLocksLast(db, db);
    if id < |db.entries| {
      TryAcquireLasts(max, db, grants, id, now);
      var lock := TryAcquire(db, grants, max, id, db.entries[id].task.spec.directoryId, now);
      StartLasts(lock.db, grants, id, prepared, now);
      LastsTransitive(db, lock.db, AfterLock(lock.db, grants, id, prepared, now).db);
    }
  }

  // ---- Every step, every run --------------------------------------------

  lemma PersistLasts(max: nat, s: Sys, w: nat, now: Timestamp)
    requires SysOk(max, s) && w in s.workers
    ensures Lasts(s.db, Persist(s, w, now).db)
  {
    assert WorkerOk(s.db.entries, s.workers[w]);
    hide StoreOk, Lasts, ChangeStatus, AppendEvent, SaveResult, LocksOwned, ResultsMatch, ActiveCount, SoundTable;
    SameLocksLast(s.db, s.db);
    match s.workers[w]
    case Executing(_) =>
    case Persisting(id, output, status, error, _) =>
      if output != [] {
        AppendOutputKeeps(s.db, id, output[0].0, output[0].1, now);
        SameLocksLast(s.db, AppendEvent(s.db, id, output[0].0, output[0].1, now).db);
      } else {
        OkIsNumbered(s.db, id);
        StatusLasts(s.db, id, status, error, now);
      }
    case Reloading(_, _) =>
    case Saving(saved) => SaveLasts(s.db, saved, now);
  }

  lemma SaveLasts(db: Db, saved: TaskResult, now: Timestamp)
    ensures Lasts(db, SaveResult(db, saved, now))
  {
    hide Lasts;
    SameLocksLast(db, SaveResult(db, saved, now));
  }

  lemma EnqueueLasts(db: Db, grants: GrantTable, profile: Option<Profile>, input: CreateTask, now: Timestamp)
    ensures Lasts(db, Enqueue(db, grants, profile, input, now).db)
  {
    hide Lasts, PreChecks, Authorize;
    SameLocksLast(db, Enqueue(db, grants, profile, input, now).db);
  }

  lemma StepLasts(max: nat, s: Sys, step: Step, now: Timestamp)
    requires SysOk(max, s) && Permitted(s, step)
    ensures Lasts(s.db, Next(max, s, step, now).db)
  {
    hide StoreOk, Lasts, Admit, ChangeStatus, Enqueue, RecordPermission, ResolvePermission, Persist, LocksOwned, ResultsMatch, ActiveCount, WorkersOk, SoundTable;
    SameLocksLast(s.db, s.db);
    match step
    case EnqueueStep(profile, input) => EnqueueLasts(s.db, s.grants, profile, input, now);
    case AdmitStep(_, id, runtime, prepared) =>
      OkIsNumbered(s.db, id);
      AdmitLasts(max, s.db, s.grants, id, runtime, prepared, now);
    case PersistStep(w) => if w in s.workers { PersistLasts(max, s, w, now); }
    case CancelStep(id) =>
      OkIsNumbered(s.db, id);
      StatusLasts(s.db, id, Cancelled, EmptyObject, now);
    case RequestStep(id, request) =>
      RecordPermissionKeeps(s.db, id, request, now);
      SameLocksLast(s.db, RecordPermission(s.db, id, request, now).db);
    case AnswerStep(id, requestId, decision, reason) =>
      ResolvePermissionKeeps(s.db, id, requestId, decision, reason, now);
      SameLocksLast(s.db, ResolvePermission(s.db, id, requestId, decision, reason, now).db);
    case _ =>
  }

  /** A held lock stays held, in its mode, until its task ends: whatever else is admitted,
      retried, failed or cancelled, and however the grants change. */
  lemma {:induction false} HeldLocksLast(max: nat, steps: Run, n: nat)
    requires IsRun(max, INITIAL, steps) && n <= |steps|
    ensures Lasts(From(max, INITIAL, steps[..n]).db, From(max, INITIAL, steps).db)
  {
    hide SysOk, Lasts, Next, Permitted;
    if n == |steps| {
      assert steps[..n] == steps;
      var db := From(max, INITIAL, steps).db;
      SameLocksLast(db, db);
    } else {
      var init := steps[..|steps| - 1];
      assert forall i :: 0 <= i < |init| ==> init[..i] == steps[..i];
      assert init[..n] == steps[..n];
      HeldLocksLast(max, init, n);
      EveryRunIsOk(max, init);
      StepLasts(max, From(max, INITIAL, init), steps[|init|].0, steps[|init|].1);
      LastsTransitive(From(max, INITIAL, steps[..n]).db, From(max, INITIAL, init).db, From(max, INITIAL, steps).db);
    }
  }

  // ---- What an admission is worth ---------------------------------------

  /** Step n of the run admits the task, under a grant that asks for locks. */
  ghost predicate AdmitsUnderLocks(max: nat, steps: Run, n: nat, id: nat) {
    && n < |steps| && steps[n].0.AdmitStep? && steps[n].0.admitted == id
    && var s := From(max, INITIAL, steps[..n]);
       && id < |s.db.entries|
       && Admit(s.db, s.grants, max, id, steps[n].0.runtime, steps[n].0.prepared, steps[n].1).result.Ok?
       && s.db.entries[id].task.spec.directoryId in s.grants
       && s.grants[s.db.entries[id].task.spec.directoryId].policy.lockPolicy != NoLockPolicy
  }

  /** From then on, while the task lives, it holds its lock: exclusively if it does more than
      read or the policy was exclusive when it was admitted, shared otherwise. */
  lemma {:induction false} AdmittedTasksHoldTheirLocks(max: nat, steps: Run, n: nat, id: nat)
    requires IsRun(max, INITIAL, steps) && AdmitsUnderLocks(max, steps, n, id)
    requires IsLive(From(max, INITIAL, steps).db.entries, id)
    ensures
      var s, db := From(max, INITIAL, steps[..n]), From(max, INITIAL, steps).db;
      var task := s.db.entries[id].task;
      var exclusive := s.grants[task.spec.directoryId].policy.lockPolicy == ExclusivePolicy || DoesMoreThanRead(task.spec.requiredCapabilities);
      HoldsIn(db.locks, KeyOf(task, id), if exclusive then Exclusive else Shared)
  {
    hide SysOk, Lasts, Admit, Permitted;
    var s := From(max, INITIAL, steps[..n]);
    assert steps[..n + 1][..n] == steps[..n];
    PrefixIsRun(max, steps, n);
    EveryRunIsOk(max, steps[..n]);
    NumberedInOk(max, s, id);
    AdmittedExactly(max, s.db, s.grants, id, steps[n].0.runtime, steps[n].0.prepared, steps[n].1);
    HeldLocksLast(max, steps, n + 1);
    LockLasts(From(max, INITIAL, steps[..n + 1]).db, From(max, INITIAL, steps).db, KeyOf(s.db.entries[id].task, id));
  }

  lemma {:induction false} PrefixIsRun(max: nat, steps: Run, n: nat)
    requires IsRun(max, INITIAL, steps) && n <= |steps|
    ensures IsRun(max, INITIAL, steps[..n])
  {
    hide Permitted, From;
    assert forall i :: 0 <= i < n ==> steps[..n][..i] == steps[..i];
  }

  lemma NumberedInOk(max: nat, s: Sys, id: nat)
    requires SysOk(max, s) && id < |s.db.entries|
    ensures Numbered(s.db.entries[id].log, id)
  {
    OkIsNumbered(s.db, id);
  }

  lemma LockLasts(db: Db, db': Db, key: LockKey)
    requires Lasts(db, db') && key.taskId < |db.entries| && IsLive(db'.entries, key.taskId)
    requires Holds(db.locks, key) && !db.locks[key].mode.NoLock?
    ensures HoldsIn(db'.locks, key, db.locks[key].mode)
  {
    assert HoldsIn(db.locks, key, db.locks[key].mode);
  }

  /** In every run whose grant changes keep whether a directory with live tasks is locked: a
      task admitted under an exclusive policy is the only active one on its directory for as
      long as it is active, whatever it requires and whatever the policy is by then. */
  lemma {:induction false} ExclusivePolicyMeansAlone(max: nat, steps: Run, n: nat, id: nat, other: nat)
    requires IsRun(max, INITIAL, steps) && KeepsLockingThroughout(max, steps) && AdmitsUnderLocks(max, steps, n, id)
    requires
      var s := From(max, INITIAL, steps[..n]);
      s.grants[s.db.entries[id].task.spec.directoryId].policy.lockPolicy == ExclusivePolicy
    requires
      var entries := From(max, INITIAL, steps).db.entries;
      && id < |entries| && other < |entries|
      && entries[id].task.status.IsActive() && entries[other].task.status.IsActive()
      && entries[id].task.spec.directoryId == entries[other].task.spec.directoryId
    ensures id == other
  {
    hide From, KeepsLockingThroughout;
    AdmittedTasksHoldTheirLocks(max, steps, n, id);
    PrefixIsRun(max, steps, n);
    HeldLocksLast(max, steps, n);
    WritersAreAlone(max, steps, id, other);
  }
}
