/**
 The scheduler's own calls, each a step by itself, in any order: what becomes of the
 concurrency limit when an admission is not one step.
 */
module ServiceCalls {
  import opened Results
  import opened Lifecycle
  import opened TaskModel
  import opened Directory
  import opened Locks
  import opened Grants
  import opened Store
  import opened StoreInvariants
  import opened StoreAnswers
  import opened Scheduler
  import opened TaskSystem
  import opened Admission
  import opened Examples

  datatype World = World(db: Db, grants: GrantTable)

  datatype ServiceCall =
    | EnqueueTask(profile: Option<Profile>, input: CreateTask)
    | TryAcquireLock(id: nat, directoryId: string)
    | MarkPreparing(id: nat)
    | Prepare(id: nat, prepared: bool)
    | StartRunning(id: nat)
    | CompleteTask(id: nat, message: string)
    | FailTask(id: nat, error: Payload)
    | Cancel(id: nat)
    | Release(id: nat)
    | ChangeGrant(call: GrantCall)

  function Complete(db: Db, id: nat, message: string, now: Timestamp): Db {
    var r := ChangeStatus(db, id, Completed, EmptyObject, now);
    if r.result.Ok? && id < |r.db.entries|
    then SaveResult(r.db, TaskResult(id, r.db.entries[id].task.status, message), now)
    else r.db
  }

  function Do(max: nat, w: World, call: ServiceCall, now: Timestamp): World {
    match call
    case EnqueueTask(profile, input) => w.(db := Enqueue(w.db, w.grants, profile, input, now).db)
    case TryAcquireLock(id, directoryId) => w.(db := TryAcquire(w.db, w.grants, max, id, directoryId, now).db)
    case MarkPreparing(id) => w.(db := ChangeStatus(w.db, id, Preparing, EmptyObject, now).db)
    case Prepare(id, prepared) => w.(db := PrepareWorkspace(w.db, w.grants, id, prepared, now).db)
    case StartRunning(id) => w.(db := MarkRunning(w.db, id, now).db)
    case CompleteTask(id, message) => w.(db := Complete(w.db, id, message, now))
    case FailTask(id, error) => w.(db := ChangeStatus(w.db, id, Failed, error, now).db)
    case Cancel(id) => w.(db := CancelTask(w.db, id, now).db)
    case Release(id) => w.(db := ReleaseLocks(w.db, id, now))
    case ChangeGrant(call) => w.(grants := Apply(w.grants, call).0)
  }

  type Run = seq<(ServiceCall, Timestamp)>

  function After(max: nat, calls: Run): World {
    if calls == [] then World(EMPTY_DB, map[])
    else Do(max, After(max, calls[..|calls| - 1]), calls[|calls| - 1].0, calls[|calls| - 1].1)
  }

  // ---- What the calls do ------------------------------------------------

  /** The status a call moves its task to, and what its event says. */
  ghost predicate MovesTo(call: ServiceCall, id: nat, next: TaskStatus, payload: Payload) {
    || (call == MarkPreparing(id) && next == TaskStatus.Preparing && payload == EmptyObject)
    || (call == StartRunning(id) && next == Running && payload == EmptyObject)
    || (call.CompleteTask? && call.id == id && next == Completed && payload == EmptyObject)
    || (call == FailTask(id, payload) && next == Failed)
    || (call == Cancel(id) && next == Cancelled && payload == EmptyObject)
  }

  /** Such a call moves the task exactly when the lifecycle allows it; a completed task gets
      the result that comes with it, even if it was completed before. */
  lemma CallMovesExactly(max: nat, w: World, call: ServiceCall, id: nat, next: TaskStatus, payload: Payload, now: Timestamp)
    requires MovesTo(call, id, next, payload) && id < |w.db.entries| && Numbered(w.db.entries[id].log, id)
    ensures
      var w' := Do(max, w, call, now);
      var entry, moves := w.db.entries[id], Allowed(w.db.entries[id].task.status, next);
      && w'.grants == w.grants
      && |w'.db.entries| == |w.db.entries|
      && (forall i :: 0 <= i < |w.db.entries| && i != id ==> w'.db.entries[i] == w.db.entries[i])
      && w'.db.entries[id].task.status == (if moves then next else entry.task.status)
      && w'.db.entries[id].task.result ==
           (if call.CompleteTask? && (moves || entry.task.status == Completed) then Some(TaskResult(id, Completed, call.message))
            else entry.task.result)
      && w'.db.entries[id].log ==
           entry.log + if moves then [Event(id, |entry.log| + 1, EventTypeForStatus(next), payload, now)] else []
  {
    hide ChangeStatus, Numbered, IsReleased, IsStamped, Enqueue, TryAcquire, PrepareWorkspace, ReleaseLocks, Apply;
    TransitionAnswers(w.db, id, next, payload, now);
  }

  /** Releasing by hand gives back the task's held locks, as of now, and does nothing else. */
  lemma ReleasingByHandFreesExactly(max: nat, w: World, id: nat, now: Timestamp)
    ensures
      var w' := Do(max, w, Release(id), now);
      w' == w.(db := w.db.(locks := w'.db.locks)) && IsReleased(w'.db.locks, w.db.locks, id, now)
  {
    ReleaseFreesExactly(w.db, id, now);
  }

  // ---- The limit, call by call ------------------------------------------

  ghost predicate IsWaiting(db: Db, id: nat) {
    id < |db.entries| && db.entries[id].task.status.WaitingDirectoryLock?
  }

  /** The call makes a waiting task active. */
  ghost predicate Activates(w: World, call: ServiceCall) {
    match call
    case MarkPreparing(id) => IsWaiting(w.db, id)
    case Prepare(id, prepared) => prepared && IsWaiting(w.db, id) && w.db.entries[id].task.spec.directoryId in w.grants
    case _ => false
  }

  lemma MoveCounts(db: Db, id: nat, next: TaskStatus, payload: Payload, now: Timestamp)
    requires StoreOk(db)
    ensures
      var db' := ChangeStatus(db, id, next, payload, now).db;
      && StoreOk(db')
      && |db'.entries| == |db.entries|
      && ActiveCount(db'.entries) ==
           ActiveCount(db.entries)
           - (if id < |db.entries| && Allowed(db.entries[id].task.status, next) && !next.IsActive() && db.entries[id].task.status.IsActive() then 1 else 0)
           + (if IsWaiting(db, id) && next.Preparing? then 1 else 0)
      && (id < |db.entries| && Allowed(db.entries[id].task.status, next) ==>
            ChangeStatus(db, id, next, payload, now).result.Ok? && db'.entries[id].task.status == next)
  {
    hide StoreOk, ActiveCount, ChangeStatus, Moved;
    ChangeStatusKeeps(db, id, next, payload, now);
    OkIsNumbered(db, id);
    ChangeStatusMoves(db, id, next, payload, now);
    if id < |db.entries| && Allowed(db.entries[id].task.status, next) {
      var entry' := ChangeStatus(db, id, next, payload, now).db.entries[id];
      CountAfterReplace(db.entries, id, entry');
      MovedWeights(db.entries[id], entry', next);
    }
  }

  lemma PrepareCounts(db: Db, grants: GrantTable, id: nat, prepared: bool, now: Timestamp)
    requires StoreOk(db)
    ensures
      var db' := PrepareWorkspace(db, grants, id, prepared, now).db;
      && StoreOk(db')
      && (Activates(World(db, grants), Prepare(id, prepared)) ==> ActiveCount(db'.entries) == ActiveCount(db.entries) + 1)
      && (!Activates(World(db, grants), Prepare(id, prepared)) ==> ActiveCount(db'.entries) <= ActiveCount(db.entries))
  {
    hide StoreOk, ActiveCount, ChangeStatus;
    MoveCounts(db, id, Preparing, EmptyObject, now);
    var db1 := if IsWaiting(db, id) then ChangeStatus(db, id, Preparing, EmptyObject, now).db else db;
    MoveCounts(db1, id, Failed, Opaque("workspace preparation failed"), now);
  }

  /** `prepare_workspace` keeps the limit if and only if the task is not a waiting one or
      there is still room. */
  lemma PrepareKeepsLimitExactly(max: nat, db: Db, grants: GrantTable, id: nat, now: Timestamp)
    requires StoreOk(db) && ActiveCount(db.entries) <= max
    requires id < |db.entries| && db.entries[id].task.spec.directoryId in grants
    ensures ActiveCount(PrepareWorkspace(db, grants, id, true, now).db.entries) <= max
            <==> !db.entries[id].task.status.WaitingDirectoryLock? || ActiveCount(db.entries) < max
  {
    hide StoreOk, ActiveCount, PrepareWorkspace;
    PrepareCounts(db, grants, id, true, now);
  }

  lemma TryAcquireCounts(max: nat, db: Db, grants: GrantTable, id: nat, directoryId: string, now: Timestamp)
    requires StoreOk(db)
    ensures
      var db' := TryAcquire(db, grants, max, id, directoryId, now).db;
      StoreOk(db') && ActiveCount(db'.entries) == ActiveCount(db.entries)
  {
    hide StoreOk, ActiveCount, ChangeStatus, Conflicts;
    MoveCounts(db, id, WaitingDirectoryLock, Opaque("global_capacity"), now);
    MoveCounts(db, id, WaitingDirectoryLock, Opaque("directory_lock"), now);
    if id < |db.entries| && directoryId in grants {
      var mode := LockModeOf(db.entries[id].task, grants[directoryId]);
      AcquireLockKeeps(db, directoryId, id, mode, now);
      var db' := AcquireLock(db, directoryId, id, mode, now).0;
      MoveCounts(db', id, WaitingDirectoryLock, Opaque("directory_lock_acquired"), now);
    }
  }

  lemma EnqueueCounts(db: Db, grants: GrantTable, profile: Option<Profile>, input: CreateTask, now: Timestamp)
    requires StoreOk(db)
    ensures
      var db' := Enqueue(db, grants, profile, input, now).db;
      StoreOk(db') && ActiveCount(db'.entries) == ActiveCount(db.entries)
  {
    hide StoreOk, PreChecks, Authorize, Validate, NewTask;
    if PreChecks(grants, profile, input).Ok? {
      var checked := input.(
        workspaceMode := Some(PreChecks(grants, profile, input).value), providerId := Some(profile.value.providerId),
        model := Some(profile.value.model), permissionMode := Some(profile.value.permissionMode));
      CreateKeeps(db, checked, now);
      NewRowCounts(db, checked, now);
    }
  }

  lemma NewRowCounts(db: Db, input: CreateTask, now: Timestamp)
    ensures ActiveCount(CreateRow(db, input, now).db.entries) == ActiveCount(db.entries)
  {
    hide Validate;
    var entries' := CreateRow(db, input, now).db.entries;
    if Validate(input).None? {
      assert entries'[..|entries'| - 1] == db.entries;
    }
  }

  lemma CompleteCounts(db: Db, id: nat, message: string, now: Timestamp)
    requires StoreOk(db)
    ensures StoreOk(Complete(db, id, message, now)) && ActiveCount(Complete(db, id, message, now).entries) <= ActiveCount(db.entries)
  {
    hide StoreOk, ActiveCount, ChangeStatus;
    MoveCounts(db, id, Completed, EmptyObject, now);
    var r := ChangeStatus(db, id, Completed, EmptyObject, now);
    if r.result.Ok? && id < |r.db.entries| {
      var result := TaskResult(id, r.db.entries[id].task.status, message);
      SaveResultKeeps(r.db, result, now);
      CountDependsOnTasks(r.db.entries, SaveResult(r.db, result, now).entries);
    }
  }

  /** Only an activating call raises the count, and by one. */
  lemma DoCounts(max: nat, w: World, call: ServiceCall, now: Timestamp)
    requires StoreOk(w.db)
    ensures
      var w' := Do(max, w, call, now);
      && StoreOk(w'.db)
      && (Activates(w, call) ==> ActiveCount(w'.db.entries) == ActiveCount(w.db.entries) + 1)
      && (!Activates(w, call) ==> ActiveCount(w'.db.entries) <= ActiveCount(w.db.entries))
  {
    hide StoreOk, ActiveCount, ChangeStatus, TryAcquire, Enqueue, PrepareWorkspace, Complete;
    match call
    case EnqueueTask(profile, input) => EnqueueCounts(w.db, w.grants, profile, input, now);
    case TryAcquireLock(id, directoryId) => TryAcquireCounts(max, w.db, w.grants, id, directoryId, now);
    case MarkPreparing(id) => MoveCounts(w.db, id, Preparing, EmptyObject, now);
    case Prepare(id, prepared) => PrepareCounts(w.db, w.grants, id, prepared, now);
    case StartRunning(id) => MoveCounts(w.db, id, Running, EmptyObject, now);
    case CompleteTask(id, message) => CompleteCounts(w.db, id, message, now);
    case FailTask(id, error) => MoveCounts(w.db, id, Failed, error, now);
    case Cancel(id) => MoveCounts(w.db, id, Cancelled, EmptyObject, now);
    case Release(id) => ReleaseLocksKeeps(w.db, id, now);
    case ChangeGrant(_) =>
  }

  // ---- The limit, over every run of calls -------------------------------

  lemma {:induction false} EveryRunIsOk(max: nat, calls: Run)
    ensures StoreOk(After(max, calls).db)
  {
    hide StoreOk, Do;
    if calls == [] {
      EmptyIsOk();
    } else {
      EveryRunIsOk(max, calls[..|calls| - 1]);
      DoCounts(max, After(max, calls[..|calls| - 1]), calls[|calls| - 1].0, calls[|calls| - 1].1);
    }
  }

  ghost predicate WithinLimitThroughout(max: nat, calls: Run) {
    forall i :: 0 <= i <= |calls| ==> ActiveCount(After(max, calls[..i]).db.entries) <= max
  }

  /** Every call that makes a waiting task active finds room at that moment. */
  ghost predicate ActivatesWithRoom(max: nat, calls: Run) {
    forall i :: 0 <= i < |calls| ==> HasRoom(max, After(max, calls[..i]), calls[i].0)
  }

  ghost predicate HasRoom(max: nat, w: World, call: ServiceCall) {
    Activates(w, call) ==> ActiveCount(w.db.entries) < max
  }

  lemma {:induction false} ThroughoutOneMore(max: nat, calls: Run)
    requires calls != []
    ensures
      var init := calls[..|calls| - 1];
      && (WithinLimitThroughout(max, calls) <==> WithinLimitThroughout(max, init) && ActiveCount(After(max, calls).db.entries) <= max)
      && (ActivatesWithRoom(max, calls) <==> ActivatesWithRoom(max, init) && HasRoom(max, After(max, init), calls[|calls| - 1].0))
      && (WithinLimitThroughout(max, init) ==> ActiveCount(After(max, init).db.entries) <= max)
  {
    hide After, HasRoom;
    var n := |calls| - 1;
    var init := calls[..n];
    assert forall i :: 0 <= i <= n ==> init[..i] == calls[..i];
    assert calls[..|calls|] == calls && init[..n] == init;
  }

  /** In any run of service calls the limit holds throughout if and only if every call
      that makes a waiting task active still finds room: the check made by the lock step
      is not enough. */
  lemma {:induction false} LimitHoldsExactly(max: nat, calls: Run)
    ensures WithinLimitThroughout(max, calls) <==> ActivatesWithRoom(max, calls)
  {
    hide WithinLimitThroughout, ActivatesWithRoom, Do, StoreOk, ActiveCount;
    if calls == [] {
      NothingIsActiveAtFirst(max);
    } else {
      var n := |calls| - 1;
      LimitHoldsExactly(max, calls[..n]);
      ThroughoutOneMore(max, calls);
      EveryRunIsOk(max, calls[..n]);
      DoCounts(max, After(max, calls[..n]), calls[n].0, calls[n].1);
    }
  }

  lemma NothingIsActiveAtFirst(max: nat)
    ensures WithinLimitThroughout(max, []) && ActivatesWithRoom(max, [])
  {
  }

  // ---- A run that exceeds it --------------------------------------------

  lemma {:induction false} AfterOneMore(max: nat, calls: Run, call: ServiceCall)
    ensures After(max, calls + [(call, 0)]) == Do(max, After(max, calls), call, 0)
  {
    var longer := calls + [(call, 0)];
    assert longer[..|longer| - 1] == calls;
  }

  lemma NobodyIsActive(entries: seq<Entry>)
    requires forall i :: 0 <= i < |entries| ==> !entries[i].task.status.IsActive()
    ensures ActiveCount(entries) == 0
  {
    if entries != [] {
      NobodyIsActive(entries[..|entries| - 1]);
    }
  }

  /** The lock step of a reading task while only shared locks are held. */
  lemma ReaderPassesTheLockStep(db: Db, id: nat)
    requires id < |db.entries| && Numbered(db.entries[id].log, id)
    requires db.entries[id] == NewEntry(id, Read)
    requires ActiveCount(db.entries) == 0
    requires forall k :: k in db.locks ==> db.locks[k].mode.Shared?
    ensures
      var r := TryAcquire(db, GrantsWith(false), 1, id, "d", 0);
      && r.result == Ok(Acquired)
      && Touches(db, r.db, id)
      && IsWaiting(r.db, id)
      && r.db.locks == WithLock(db.locks, "d", id, Shared, 0)
  {
    hide GrantsWith, ActiveCount, LockModeOf, NewTask;
    LockOfRequest(false, Read, id);
    NewEntryIsQueued(id, Read);
    hide NewEntry;
    assert LockIsFree(1, db, GrantsWith(false), id);
    TryAcquireSucceedsExactly(1, db, GrantsWith(false), id, 0);
    AcquiredNotWaiting(db, id);
  }

  lemma AcquiredNotWaiting(db: Db, id: nat)
    requires id < |db.entries| && "d" in GrantsWith(false)
    requires !LockModeOf(db.entries[id].task, GrantsWith(false)["d"]).NoLock?
    ensures
      var r := TryAcquire(db, GrantsWith(false), 1, id, "d", 0);
      r.result.Ok? && !r.result.value.Waiting? ==> r.result == Ok(Acquired)
  {
    hide GrantsWith, ActiveCount, LockModeOf, ChangeStatus, Conflicts;
  }

  /** Two tasks that read one directory, enqueued under a limit of one. */
  lemma {:induction false} TwoReadersQueued() returns (calls: Run)
    ensures After(1, calls) == World(Db([NewEntry(0, Read), NewEntry(1, Read)], map[], map[]), GrantsWith(false))
  {
    hide After, GrantsWith, Enqueue, NewEntry;
    calls := [];
    StartsEmpty();
    AfterOneMore(1, calls, ChangeGrant(GrantCreation(false)));
    calls := calls + [(ChangeGrant(GrantCreation(false)), 0)];
    assert After(1, calls) == World(EMPTY_DB, GrantsWith(false)) by {
      FirstGrant();
    }
    AfterOneMore(1, calls, EnqueueTask(Some(PROFILE), TaskRequest(Read)));
    RequestIsEnqueued(EMPTY_DB, false, Read);
    calls := calls + [(EnqueueTask(Some(PROFILE), TaskRequest(Read)), 0)];
    var db := After(1, calls).db;
    assert db == Db([NewEntry(0, Read)], map[], map[]);
    AfterOneMore(1, calls, EnqueueTask(Some(PROFILE), TaskRequest(Read)));
    RequestIsEnqueued(db, false, Read);
    calls := calls + [(EnqueueTask(Some(PROFILE), TaskRequest(Read)), 0)];
  }

  lemma StartsEmpty()
    ensures After(1, []) == World(EMPTY_DB, map[])
  {
  }

  lemma FirstGrant()
    ensures Apply(map[], GrantCreation(false)).0 == GrantsWith(false)
  {
  }

  /** Both past the lock step, each holding its shared lock. */
  lemma {:induction false} TwoReadersPassTheLockStep() returns (calls: Run)
    ensures
      var w := After(1, calls);
      && w.grants == GrantsWith(false)
      && ActiveCount(w.db.entries) == 0
      && IsWaiting(w.db, 0) && IsWaiting(w.db, 1)
      && w.db.entries[0].task.spec.directoryId == "d" && w.db.entries[1].task.spec.directoryId == "d"
      && Holds(w.db.locks, LockKey("d", 0)) && Holds(w.db.locks, LockKey("d", 1))
  {
    hide After, GrantsWith, TryAcquire, ActiveCount;
    calls := TwoReadersQueued();
    var db := After(1, calls).db;
    NobodyIsActive(db.entries);
    ReaderPassesTheLockStep(db, 0);
    AfterOneMore(1, calls, TryAcquireLock(0, "d"));
    calls := calls + [(TryAcquireLock(0, "d"), 0)];
    var db1 := After(1, calls).db;
    NobodyIsActive(db1.entries);
    ReaderPassesTheLockStep(db1, 1);
    AfterOneMore(1, calls, TryAcquireLock(1, "d"));
    calls := calls + [(TryAcquireLock(1, "d"), 0)];
    NobodyIsActive(After(1, calls).db.entries);
  }

  /** Under a limit of one, enqueueing two readers of one directory, taking both through
      the lock step and then preparing both leaves two tasks active. */
  lemma {:induction false} SplitAdmissionsOvershoot() returns (calls: Run)
    ensures ActiveCount(After(1, calls).db.entries) == 2
    ensures !ActivatesWithRoom(1, calls)
  {
    hide After, GrantsWith, PrepareWorkspace, ActiveCount, StoreOk, ActivatesWithRoom, WithinLimitThroughout;
    calls := TwoReadersPassTheLockStep();
    var w := After(1, calls);
    GrantIsCreated(false);
    EveryRunIsOk(1, calls);
    PreparingOneLeavesTheOther(w);
    AfterOneMore(1, calls, Prepare(0, true));
    calls := calls + [(Prepare(0, true), 0)];
    var w1 := After(1, calls);
    EveryRunIsOk(1, calls);
    DoCounts(1, w1, Prepare(1, true), 0);
    AfterOneMore(1, calls, Prepare(1, true));
    calls := calls + [(Prepare(1, true), 0)];
    LimitHoldsExactly(1, calls);
    ThroughoutOneMore(1, calls);
  }

  lemma PreparingOneLeavesTheOther(w: World)
    requires StoreOk(w.db) && IsWaiting(w.db, 0) && IsWaiting(w.db, 1) && "d" in w.grants
    requires w.db.entries[0].task.spec.directoryId == "d" && w.db.entries[1].task.spec.directoryId == "d"
    ensures
      var w' := Do(1, w, Prepare(0, true), 0);
      && ActiveCount(w'.db.entries) == ActiveCount(w.db.entries) + 1
      && w'.grants == w.grants
      && IsWaiting(w'.db, 1) && w'.db.entries[1].task.spec.directoryId == "d"
  {
    hide StoreOk, ActiveCount, PrepareWorkspace;
    OkIsNumbered(w.db, 0);
    DoCounts(1, w, Prepare(0, true), 0);
    PrepareSucceedsExactly(w.db, w.grants, 0, true, 0);
  }
}
