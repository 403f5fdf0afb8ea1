/**
 Active tasks on one directory. What a writer is promised depends on its grant: which
 changes of a grant leave the promise alone, and a run in which another change breaks it.
 */
module Protection {
  import opened Results
  import opened Ordering
  import opened Lifecycle
  import opened TaskModel
  import opened Directory
  import opened Locks
  import opened Grants
  import opened Store
  import opened StoreInvariants
  import opened Scheduler
  import opened TaskSystem
  import opened Admission
  import opened Execution
  import opened Examples

  function KeyOf(task: Task, id: nat): LockKey {
    LockKey(task.spec.directoryId, id)
  }

  /** The task does more than read. */
  predicate Demanding(task: Task) {
    DoesMoreThanRead(task.spec.requiredCapabilities)
  }

  predicate IsUnlocked(grants: GrantTable, directoryId: string) {
    directoryId in grants && grants[directoryId].policy.lockPolicy.NoLockPolicy?
  }

  predicate IsLiveOn(task: Task, directoryId: string) {
    task.spec.directoryId == directoryId && !task.status.IsTerminal()
  }

  /** No lock is held on the directory, and no live task there writes. */
  ghost predicate IsFree(db: Db, directoryId: string) {
    && (forall k :: k in db.locks && k.directoryId == directoryId ==> !db.locks[k].held)
    && (forall i :: 0 <= i < |db.entries| && IsLiveOn(db.entries[i].task, directoryId) ==>
          Write !in db.entries[i].task.spec.requiredCapabilities)
  }

  /** The task holds its lock, exclusively if it does more than read; or it needs none. */
  ghost predicate IsSafe(db: Db, grants: GrantTable, id: nat)
    requires id < |db.entries|
  {
    var task := db.entries[id].task;
    var key, d := KeyOf(task, id), task.spec.directoryId;
    if Holds(db.locks, key) then Demanding(task) ==> db.locks[key].mode.Exclusive?
    else IsFree(db, d) && (d in grants ==> IsUnlocked(grants, d))
  }

  ghost predicate ActiveAreSafe(db: Db, grants: GrantTable) {
    forall i :: 0 <= i < |db.entries| && db.entries[i].task.status.IsActive() ==> IsSafe(db, grants, i)
  }

  ghost predicate UnlockedAreFree(db: Db, grants: GrantTable) {
    forall d :: IsUnlocked(grants, d) ==> IsFree(db, d)
  }

  ghost predicate Protected(db: Db, grants: GrantTable) {
    ActiveAreSafe(db, grants) && UnlockedAreFree(db, grants)
  }

  // ---- What active tasks are then promised ------------------------------

  /** An active task that holds an exclusive lock is the only active task on its directory. */
  lemma ExclusiveHolderIsAlone(db: Db, grants: GrantTable, holder: nat, other: nat)
    requires Protected(db, grants) && LocksExclusive(db.locks)
    requires holder < |db.entries| && other < |db.entries|
    requires db.entries[holder].task.status.IsActive() && db.entries[other].task.status.IsActive()
    requires db.entries[holder].task.spec.directoryId == db.entries[other].task.spec.directoryId
    requires Holds(db.locks, KeyOf(db.entries[holder].task, holder)) && db.locks[KeyOf(db.entries[holder].task, holder)].mode.Exclusive?
    ensures holder == other
  {
    assert IsSafe(db, grants, other);
    assert Holds(db.locks, KeyOf(db.entries[other].task, other));
  }

  /** A demanding task holds its exclusive lock, unless its grant asks for none. */
  lemma DemandingTaskHoldsItsLock(db: Db, grants: GrantTable, id: nat)
    requires Protected(db, grants) && id < |db.entries| && db.entries[id].task.status.IsActive()
    requires Write in db.entries[id].task.spec.requiredCapabilities
             || (Demanding(db.entries[id].task) && db.entries[id].task.spec.directoryId in grants
                 && !IsUnlocked(grants, db.entries[id].task.spec.directoryId))
    ensures
      var key := KeyOf(db.entries[id].task, id);
      Holds(db.locks, key) && db.locks[key].mode.Exclusive?
  {
    assert IsSafe(db, grants, id);
  }

  // ---- Grant changes that keep it ---------------------------------------

  /** No task on the directory is still alive. */
  ghost predicate Idle(entries: seq<Entry>, directoryId: string) {
    forall i :: 0 <= i < |entries| && entries[i].task.spec.directoryId == directoryId ==> entries[i].task.status.IsTerminal()
  }

  /** A grant is made only for an idle directory, and while a directory has live tasks its
      grant does not change between asking for locks and not asking. Deletes, and patches
      of anything else, are harmless. */
  ghost predicate KeepsLocking(s: Sys, step: Step) {
    match step
    case GrantStep(Create(id, _, _, _)) => Idle(s.db.entries, id)
    case GrantStep(Patch(id, patch)) =>
      Idle(s.db.entries, id) || (IsUnlocked(s.grants, id) <==> IsUnlocked(Apply(s.grants, step.call).0, id))
    case _ => true
  }

  lemma IdleIsFree(db: Db, directoryId: string)
    requires LocksOwned(db.entries, db.locks) && Idle(db.entries, directoryId)
    ensures IsFree(db, directoryId)
  {
  }

  lemma GrantChangeKeeps(s: Sys, call: GrantCall)
    requires Protected(s.db, s.grants) && LocksOwned(s.db.entries, s.db.locks) && KeepsLocking(s, GrantStep(call))
    ensures Protected(s.db, Apply(s.grants, call).0)
  {
    hide IsFree, PolicyFromCreate, PatchPolicy;
    var grants' := Apply(s.grants, call).0;
    if Idle(s.db.entries, call.id) {
      IdleIsFree(s.db, call.id);
    }
    forall i | 0 <= i < |s.db.entries| && s.db.entries[i].task.status.IsActive()
      ensures IsSafe(s.db, grants', i)
    {
      assert IsSafe(s.db, s.grants, i);
      OthersKeepTheirGrant(s.grants, call, s.db.entries[i].task.spec.directoryId);
    }
    forall d | IsUnlocked(grants', d)
      ensures IsFree(s.db, d)
    {
      OthersKeepTheirGrant(s.grants, call, d);
    }
  }

  lemma OthersKeepTheirGrant(grants: GrantTable, call: GrantCall, d: string)
    ensures d != call.id ==> (d in Apply(grants, call).0 <==> d in grants)
    ensures d != call.id && d in grants ==> Apply(grants, call).0[d] == grants[d]
    ensures call.Delete? && d == call.id && d in Apply(grants, call).0 ==> d in grants && Apply(grants, call).0[d] == grants[d]
    ensures call.Patch? ==> (d in Apply(grants, call).0 <==> d in grants)
  {
    hide PolicyFromCreate, PatchPolicy;
  }

  // ---- Store calls ------------------------------------------------------

  /** The same tasks; of the live ones and the held locks, at most some have gone. */
  ghost predicate Calms(db: Db, db': Db) {
    && |db'.entries| == |db.entries|
    && (forall i :: 0 <= i < |db.entries| ==>
          && db'.entries[i].task.spec == db.entries[i].task.spec
          && (db.entries[i].task.status.IsTerminal() ==> db'.entries[i].task.status.IsTerminal()))
    && (forall k :: k in db'.locks && db'.locks[k].held ==> k in db.locks && db.locks[k].held && db'.locks[k].mode == db.locks[k].mode)
  }

  lemma CalmKeepsFree(db: Db, db': Db, d: string)
    requires Calms(db, db') && IsFree(db, d)
    ensures IsFree(db', d)
  {
  }

  lemma CalmKeepsSafe(db: Db, db': Db, grants: GrantTable, id: nat)
    requires Calms(db, db') && id < |db.entries| && IsSafe(db, grants, id)
    requires Holds(db.locks, KeyOf(db.entries[id].task, id)) ==> Holds(db'.locks, KeyOf(db.entries[id].task, id))
    ensures IsSafe(db', grants, id)
  {
    hide IsFree, Demanding;
    if !Holds(db.locks, KeyOf(db.entries[id].task, id)) {
      CalmKeepsFree(db, db', db.entries[id].task.spec.directoryId);
    }
    SameSpecSameDemand(db.entries[id].task, db'.entries[id].task);
  }

  lemma SameSpecSameDemand(task: Task, task': Task)
    requires task'.spec == task.spec
    ensures Demanding(task') <==> Demanding(task)
  {
  }

  /** A call that calms the database, keeps the locks of those that stay active, and makes
      nobody active who is not safe. */
  lemma CalmKeepsProtected(db: Db, db': Db, grants: GrantTable)
    requires Protected(db, grants) && Calms(db, db')
    requires forall i :: 0 <= i < |db.entries| && db'.entries[i].task.status.IsActive() ==>
      && IsSafe(db, grants, i)
      && (Holds(db.locks, KeyOf(db.entries[i].task, i)) ==> Holds(db'.locks, KeyOf(db.entries[i].task, i)))
    ensures Protected(db', grants)
  {
    hide IsFree, IsSafe;
    forall i | 0 <= i < |db'.entries| && db'.entries[i].task.status.IsActive()
      ensures IsSafe(db', grants, i)
    {
      CalmKeepsSafe(db, db', grants, i);
    }
    forall d | IsUnlocked(grants, d)
      ensures IsFree(db', d)
    {
      CalmKeepsFree(db, db', d);
    }
  }

  lemma StatusCalms(db: Db, id: nat, next: TaskStatus, payload: Payload, now: Timestamp)
    requires id < |db.entries| && Numbered(db.entries[id].log, id)
    ensures Calms(db, ChangeStatus(db, id, next, payload, now).db)
  {
    hide ChangeStatus;
    ChangeStatusTouches(db, id, next, payload, now);
  }

  lemma StatusKeepsProtected(db: Db, grants: GrantTable, id: nat, next: TaskStatus, payload: Payload, now: Timestamp)
    requires StoreOk(db) && Protected(db, grants)
    requires next.Preparing? && id < |db.entries| ==> IsSafe(db, grants, id)
    ensures Protected(ChangeStatus(db, id, next, payload, now).db, grants)
  {
    OkIsNumbered(db, id);
    hide StoreOk, IsFree, IsSafe;
    if id < |db.entries| {
      hide ChangeStatus;
      ChangeStatusTouches(db, id, next, payload, now);
      StatusCalms(db, id, next, payload, now);
      var db' := ChangeStatus(db, id, next, payload, now).db;
      hide UnlockedAreFree, Calms;
      CalmKeepsProtected(db, db', grants);
    }
  }

  lemma SameTasksKeepProtected(db: Db, db': Db, grants: GrantTable)
    requires Protected(db, grants) && SameTasks(db, db')
    ensures Protected(db', grants)
  {
    hide IsFree, IsSafe;
    CalmKeepsProtected(db, db', grants);
  }

  /** Taking the lock its grant asks for. */
  lemma LockKeepsProtected(db: Db, grants: GrantTable, id: nat, now: Timestamp)
    requires Protected(db, grants) && id < |db.entries| && db.entries[id].task.spec.directoryId in grants
    requires !LockModeOf(db.entries[id].task, grants[db.entries[id].task.spec.directoryId]).NoLock?
    ensures
      var db' := WithOwnLock(db, grants, id, now);
      Protected(db', grants) && IsSafe(db', grants, id) && Holds(db'.locks, KeyOf(db.entries[id].task, id))
  {
    var d := db.entries[id].task.spec.directoryId;
    var db' := WithOwnLock(db, grants, id, now);
    LockSuits(db.entries[id].task, grants[d]);
    forall e | e != d && IsFree(db, e)
      ensures IsFree(db', e)
    {
    }
    assert !IsUnlocked(grants, d);
    forall i | 0 <= i < |db'.entries| && db'.entries[i].task.status.IsActive()
      ensures IsSafe(db', grants, i)
    {
      assert IsSafe(db, grants, i);
    }
  }

  lemma LockSuits(task: Task, grant: Grant)
    requires !LockModeOf(task, grant).NoLock?
    ensures !grant.policy.lockPolicy.NoLockPolicy?
    ensures Demanding(task) ==> LockModeOf(task, grant).Exclusive?
  {
    LockModeIsExactly(task.spec.requiredCapabilities, grant.policy.lockPolicy);
  }

  // ---- Admission --------------------------------------------------------

  lemma StatusKeepsSafe(db: Db, grants: GrantTable, id: nat, next: TaskStatus, payload: Payload, now: Timestamp)
    requires StoreOk(db) && id < |db.entries| && IsSafe(db, grants, id) && !next.IsTerminal()
    ensures
      var db' := ChangeStatus(db, id, next, payload, now).db;
      StoreOk(db') && |db'.entries| == |db.entries| && IsSafe(db', grants, id)
  {
    ChangeStatusKeeps(db, id, next, payload, now);
    OkIsNumbered(db, id);
    hide StoreOk, IsFree, IsSafe, ChangeStatus;
    ChangeStatusTouches(db, id, next, payload, now);
    StatusCalms(db, id, next, payload, now);
    CalmKeepsSafe(db, ChangeStatus(db, id, next, payload, now).db, grants, id);
  }

  lemma TryAcquireKeepsProtected(max: nat, db: Db, grants: GrantTable, id: nat, now: Timestamp)
    requires StoreOk(db) && Protected(db, grants) && id < |db.entries|
    ensures
      var r := TryAcquire(db, grants, max, id, db.entries[id].task.spec.directoryId, now);
      && StoreOk(r.db) && Protected(r.db, grants)
      && |r.db.entries| == |db.entries|
      && (r.result.Ok? && !r.result.value.Waiting? ==> IsSafe(r.db, grants, id))
  {
    hide StoreOk, IsFree, IsSafe, Protected, ChangeStatus, Wait, ActiveCount, Conflicts, LockModeOf;
    var task := db.entries[id].task;
    var d := task.spec.directoryId;
    WaitKeepsProtected(db, grants, id, "global_capacity", Waiting, now);
    WaitKeepsProtected(db, grants, id, "directory_lock", Waiting, now);
    if d in grants {
      if LockModeOf(task, grants[d]).NoLock? {
        UnlockedIsSafe(db, grants, id);
      } else {
        LockedStepKeepsProtected(db, grants, id, now);
      }
    }
  }

  /** Taking the lock, then waiting with it. */
  lemma LockedStepKeepsProtected(db: Db, grants: GrantTable, id: nat, now: Timestamp)
    requires StoreOk(db) && Protected(db, grants) && id < |db.entries| && db.entries[id].task.spec.directoryId in grants
    requires !LockModeOf(db.entries[id].task, grants[db.entries[id].task.spec.directoryId]).NoLock?
    ensures
      var d := db.entries[id].task.spec.directoryId;
      var (db', acquired) := AcquireLock(db, d, id, LockModeOf(db.entries[id].task, grants[d]), now);
      acquired ==>
        var r := Wait(db', id, "directory_lock_acquired", Acquired, now);
        StoreOk(r.db) && Protected(r.db, grants) && |r.db.entries| == |db.entries| && IsSafe(r.db, grants, id)
  {
    hide StoreOk, IsFree, IsSafe, Protected, ChangeStatus, Conflicts, LockModeOf;
    var d := db.entries[id].task.spec.directoryId;
    LockKeepsProtected(db, grants, id, now);
    AcquireLockKeeps(db, d, id, LockModeOf(db.entries[id].task, grants[d]), now);
    if !Conflicts(db.locks, d, LockModeOf(db.entries[id].task, grants[d])) {
      var db' := WithOwnLock(db, grants, id, now);
      WaitKeepsProtected(db', grants, id, "directory_lock_acquired", Acquired, now);
      StatusKeepsSafe(db', grants, id, WaitingDirectoryLock, Opaque("directory_lock_acquired"), now);
    }
  }

  lemma WaitKeepsProtected(db: Db, grants: GrantTable, id: nat, reason: string, decision: LockDecision, now: Timestamp)
    requires StoreOk(db) && Protected(db, grants) && id < |db.entries|
    ensures
      var r := Wait(db, id, reason, decision, now);
      && StoreOk(r.db) && Protected(r.db, grants)
      && |r.db.entries| == |db.entries|
      && (r.result.Ok? ==> r.result.value == decision)
  {
    hide StoreOk, Protected, IsSafe;
    ChangeStatusKeeps(db, id, WaitingDirectoryLock, Opaque(reason), now);
    OkIsNumbered(db, id);
    ChangeStatusTouches(db, id, WaitingDirectoryLock, Opaque(reason), now);
    StatusKeepsProtected(db, grants, id, WaitingDirectoryLock, Opaque(reason), now);
  }

  lemma UnlockedIsSafe(db: Db, grants: GrantTable, id: nat)
    requires Protected(db, grants) && id < |db.entries| && db.entries[id].task.spec.directoryId in grants
    requires LockModeOf(db.entries[id].task, grants[db.entries[id].task.spec.directoryId]).NoLock?
    ensures IsSafe(db, grants, id)
  {
    assert IsUnlocked(grants, db.entries[id].task.spec.directoryId);
  }

  /** What a successful lock step leads to: a safe task prepared and started. */
  lemma StartKeepsProtected(db: Db, grants: GrantTable, id: nat, prepared: bool, now: Timestamp)
    requires StoreOk(db) && Protected(db, grants) && id < |db.entries| && IsSafe(db, grants, id)
    ensures
      var r := AfterLock(db, grants, id, prepared, now);
      Protected(r.db, grants)
  {
    hide StoreOk, Protected, IsSafe, ChangeStatus;
    var db1 := Prepared(db, id, now);
    StatusKeepsProtected(db, grants, id, Preparing, EmptyObject, now);
    StatusKeepsSafe(db, grants, id, Preparing, EmptyObject, now);
    StatusKeepsProtected(db1, grants, id, Failed, Opaque("workspace preparation failed"), now);
    StatusKeepsProtected(db1, grants, id, Running, EmptyObject, now);
    PrepareEndsIn(db, grants, id, prepared, now);
    StartEndsIn(db, grants, id, prepared, now);
  }

  lemma StartEndsIn(db: Db, grants: GrantTable, id: nat, prepared: bool, now: Timestamp)
    requires id < |db.entries|
    ensures
      var db1, db' := Prepared(db, id, now), AfterLock(db, grants, id, prepared, now).db;
      || db' == db
      || db' == db1
      || db' == ChangeStatus(db1, id, Failed, Opaque("workspace preparation failed"), now).db
      || db' == ChangeStatus(db1, id, Running, EmptyObject, now).db
  {
    hide ChangeStatus;
  }

  lemma AdmitKeepsProtected(max: nat, db: Db, grants: GrantTable, id: nat, runtime: RuntimeSearch, prepared: bool, now: Timestamp)
    requires StoreOk(db) && Protected(db, grants)
    ensures Protected(Admit(db, grants, max, id, runtime, prepared, now).db, grants)
  {
    hide StoreOk, Protected, IsSafe, TryAcquire, PrepareWorkspace, MarkRunning;
    if id < |db.entries| {
      TryAcquireKeepsProtected(max, db, grants, id, now);
      var lock := TryAcquire(db, grants, max, id, db.entries[id].task.spec.directoryId, now);
      if lock.result.Ok? && !lock.result.value.Waiting? {
        StartKeepsProtected(lock.db, grants, id, prepared, now);
      }
    }
  }

  // ---- Every step -------------------------------------------------------

  /** A task with the Write capability is enqueued only where the grant asks for locks. */
  lemma EnqueueKeepsProtected(db: Db, grants: GrantTable, profile: Option<Profile>, input: CreateTask, now: Timestamp)
    requires Protected(db, grants) && SoundTable(grants)
    ensures Protected(Enqueue(db, grants, profile, input, now).db, grants)
  {
    EnqueueCreatesExactlyCoveredTasks(db, grants, profile, input, now);
    var r := Enqueue(db, grants, profile, input, now);
    if r.result.Ok? {
      assert Write in RequiredCapabilities(input) ==> !IsUnlocked(grants, input.directoryId);
      hide Enqueue, PreChecks, SoundTable;
      NewRowKeepsProtected(db, r.db, grants);
    }
  }

  lemma NewRowKeepsProtected(db: Db, db': Db, grants: GrantTable)
    requires Protected(db, grants)
    requires |db'.entries| == |db.entries| + 1 && db'.entries[..|db.entries|] == db.entries && db'.locks == db.locks
    requires
      var task := db'.entries[|db.entries|].task;
      && task.status == Queued && task.spec.directoryId in grants
      && (Write in task.spec.requiredCapabilities ==> !IsUnlocked(grants, task.spec.directoryId))
    ensures Protected(db', grants)
  {
    var n := |db.entries|;
    assert forall i :: 0 <= i < n ==> db'.entries[i] == db.entries[i];
    var task := db'.entries[n].task;
    forall d | IsFree(db, d) && (d == task.spec.directoryId ==> IsUnlocked(grants, d))
      ensures IsFree(db', d)
    {
    }
    forall i | 0 <= i < |db'.entries| && db'.entries[i].task.status.IsActive()
      ensures IsSafe(db', grants, i)
    {
      assert IsSafe(db, grants, i);
    }
  }

  lemma SaveKeepsProtected(db: Db, grants: GrantTable, saved: TaskResult, now: Timestamp)
    requires Protected(db, grants)
    ensures Protected(SaveResult(db, saved, now), grants)
  {
    hide IsFree, IsSafe, UnlockedAreFree;
    CalmKeepsProtected(db, SaveResult(db, saved, now), grants);
  }

  lemma PersistKeepsProtected(max: nat, s: Sys, w: nat, now: Timestamp)
    requires SysOk(max, s) && Protected(s.db, s.grants) && w in s.workers
    ensures Protected(Persist(s, w, now).db, s.grants)
  {
    assert WorkerOk(s.db.entries, s.workers[w]);
    hide StoreOk, Protected, ChangeStatus, AppendEvent, SaveResult, SameTasks, LocksOwned, ResultsMatch, ActiveCount, SoundTable;
    match s.workers[w]
    case Executing(_) =>
    case Persisting(id, output, status, error, _) =>
      if output != [] {
        AppendOutputKeeps(s.db, id, output[0].0, output[0].1, now);
        SameTasksKeepProtected(s.db, AppendEvent(s.db, id, output[0].0, output[0].1, now).db, s.grants);
      } else {
        StatusKeepsProtected(s.db, s.grants, id, status, error, now);
      }
    case Reloading(_, _) =>
    case Saving(saved) => SaveKeepsProtected(s.db, s.grants, saved, now);
  }

  lemma StepKeepsProtected(max: nat, s: Sys, step: Step, now: Timestamp)
    requires SysOk(max, s) && Permitted(s, step) && KeepsLocking(s, step) && Protected(s.db, s.grants)
    ensures
      var s' := Next(max, s, step, now);
      Protected(s'.db, s'.grants)
  {
    hide StoreOk, Protected, Admit, ChangeStatus, Enqueue, RecordPermission, ResolvePermission, Apply, KeepsLocking, Persist, SameTasks, ResultsMatch, ActiveCount;
    match step
    case EnqueueStep(profile, input) => EnqueueKeepsProtected(s.db, s.grants, profile, input, now);
    case AdmitStep(_, id, runtime, prepared) => AdmitKeepsProtected(max, s.db, s.grants, id, runtime, prepared, now);
    case PersistStep(w) =>
      if w in s.workers {
        PersistKeepsProtected(max, s, w, now);
        PersistKeepsGrants(s, w, now);
      }
    case CancelStep(id) => StatusKeepsProtected(s.db, s.grants, id, Cancelled, EmptyObject, now);
    case RequestStep(id, request) =>
      RecordPermissionKeeps(s.db, id, request, now);
      SameTasksKeepProtected(s.db, RecordPermission(s.db, id, request, now).db, s.grants);
    case AnswerStep(id, requestId, decision, reason) =>
      ResolvePermissionKeeps(s.db, id, requestId, decision, reason, now);
      SameTasksKeepProtected(s.db, ResolvePermission(s.db, id, requestId, decision, reason, now).db, s.grants);
    case GrantStep(call) => GrantChangeKeeps(s, call);
    case _ =>
  }

  lemma PersistKeepsGrants(s: Sys, w: nat, now: Timestamp)
    requires w in s.workers
    ensures Persist(s, w, now).grants == s.grants
  {
    hide ChangeStatus, AppendEvent, SaveResult;
  }

  // ---- Every run --------------------------------------------------------

  ghost predicate KeepsLockingThroughout(max: nat, steps: Run) {
    forall i :: 0 <= i < |steps| ==> KeepsLocking(From(max, INITIAL, steps[..i]), steps[i].0)
  }

  lemma {:induction false} RunKeepsProtected(max: nat, steps: Run)
    requires IsRun(max, INITIAL, steps) && KeepsLockingThroughout(max, steps)
    ensures
      var s := From(max, INITIAL, steps);
      SysOk(max, s) && Protected(s.db, s.grants)
  {
    hide SysOk, Next, Permitted, KeepsLocking, Protected;
    if steps == [] {
      NothingToProtect(max);
    } else {
      var n := |steps| - 1;
      var init := steps[..n];
      assert forall i :: 0 <= i < n ==> init[..i] == steps[..i];
      RunKeepsProtected(max, init);
      StepKeeps(max, From(max, INITIAL, init), steps[n].0, steps[n].1);
      StepKeepsProtected(max, From(max, INITIAL, init), steps[n].0, steps[n].1);
    }
  }

  lemma NothingToProtect(max: nat)
    ensures SysOk(max, INITIAL) && Protected(INITIAL.db, INITIAL.grants)
  {
    EmptyIsOk();
  }

  /** In every run whose grant changes keep whether a directory with live tasks is locked,
      a Preparing or Running task that requires Write is the only Preparing or Running task
      on its directory; so is one that requires Shell or Git while its grant asks for locks,
      and any that holds an exclusive lock. */
  lemma {:induction false} WritersAreAlone(max: nat, steps: Run, writer: nat, other: nat)
    requires IsRun(max, INITIAL, steps) && KeepsLockingThroughout(max, steps)
    requires writer < |From(max, INITIAL, steps).db.entries| && other < |From(max, INITIAL, steps).db.entries|
    requires
      var s := From(max, INITIAL, steps);
      var task := s.db.entries[writer].task;
      && task.status.IsActive()
      && s.db.entries[other].task.status.IsActive()
      && task.spec.directoryId == s.db.entries[other].task.spec.directoryId
      && (|| Write in task.spec.requiredCapabilities
          || (Demanding(task) && task.spec.directoryId in s.grants && !IsUnlocked(s.grants, task.spec.directoryId))
          || (Holds(s.db.locks, KeyOf(task, writer)) && s.db.locks[KeyOf(task, writer)].mode.Exclusive?))
    ensures writer == other
  {
    RunKeepsProtected(max, steps);
    var s := From(max, INITIAL, steps);
    LocksOfOk(max, s);
    hide SysOk, From, IsRun, KeepsLockingThroughout, Protected, IsUnlocked, Demanding;
    var task := s.db.entries[writer].task;
    if !(Holds(s.db.locks, KeyOf(task, writer)) && s.db.locks[KeyOf(task, writer)].mode.Exclusive?) {
      DemandingTaskHoldsItsLock(s.db, s.grants, writer);
    }
    ExclusiveHolderIsAlone(s.db, s.grants, writer, other);
  }

  lemma LocksOfOk(max: nat, s: Sys)
    requires SysOk(max, s)
    ensures LocksExclusive(s.db.locks)
  {
  }

  // ---- A run that breaks it ---------------------------------------------

  /** Reading only, and no locks any more. */
  const TO_UNLOCKED := PatchGrant(Some([Read]), None, None, Some(NoLockPolicy), None, None)

  lemma GrantIsUnlocked()
    ensures
      var grants' := Apply(GrantsWith(true), Patch("d", TO_UNLOCKED)).0;
      IsUnlocked(grants', "d")
  {
    GrantIsCreated(true);
    EveryGrantIsSound();
    hide GrantsWith, NormalizeCapabilities, NormalizeModes, StrictlyOrdered;
    var policy := GrantsWith(true)["d"].policy;
    var p := policy.(capabilities := [Read], lockPolicy := NoLockPolicy);
    assert PatchPolicy(policy, TO_UNLOCKED) == AsSecurity(NewPolicy(p));
    NewPolicyIsSound(p);
    var normal := p.(capabilities := NormalizeCapabilities([Read]), workspaceModes := NormalizeModes(p.workspaceModes));
    assert [Read][0] in normal.capabilities;
    assert p.defaultWorkspaceMode in normal.workspaceModes;
    assert SoundPolicy(normal);
  }

  lemma EveryGrantIsSound()
    ensures SoundTable(GrantsWith(true))
  {
    ApplyKeepsSound(map[], GrantCreation(true));
  }

  /** While one writer runs and a second waits for its lock, the grant is patched to
      read-only without locks, a change the policy allows. Admitting the second again then
      runs it beside the first. */
  lemma {:induction false} UnlockingPatchRunsTwoWriters() returns (steps: Run)
    ensures IsRun(2, INITIAL, steps)
    ensures
      var s := From(2, INITIAL, steps);
      && |s.db.entries| == 2
      && forall i :: 0 <= i < 2 ==>
           && s.db.entries[i].task.status == Running
           && s.db.entries[i].task.spec.directoryId == "d"
           && Write in s.db.entries[i].task.spec.requiredCapabilities
  {
    hide From, IsRun, GrantsWith, Admit, Touches, NewEntry, ActiveCount, Apply, IsUnlocked, LockModeOf;
    steps := SecondWritersWaits();
    var s := From(2, INITIAL, steps);
    FromOneMore(2, steps, GrantStep(Patch("d", TO_UNLOCKED)));
    steps := steps + [(GrantStep(Patch("d", TO_UNLOCKED)), 0)];
    var s1 := From(2, INITIAL, steps);
    GrantIsUnlocked();
    assert s1.db == s.db && s1.workers == s.workers;
    SecondWriterIsLetIn(s, s1.grants);
    FromOneMore(2, steps, AdmitStep(1, 1, Found, true));
    steps := steps + [(AdmitStep(1, 1, Found, true), 0)];
  }

  lemma SecondWriterIsLetIn(s: Sys, grants: GrantTable)
    requires Execution.Writers(s, Running, WaitingDirectoryLock) && IsUnlocked(grants, "d")
    ensures
      var r := Admit(s.db, grants, 2, 1, Found, true, 0);
      && |r.db.entries| == 2
      && forall i :: 0 <= i < 2 ==>
           && r.db.entries[i].task.status == Running
           && r.db.entries[i].task.spec.directoryId == "d"
           && Write in r.db.entries[i].task.spec.requiredCapabilities
  {
    CountOfTwo(s.db.entries);
    hide Admit, ActiveCount, Conflicts;
    AdmitSucceedsExactly(2, s.db, grants, 1, Found, true, 0);
  }
}
