/**
 Writers under the scheduler's own calls: exactly when an active writer is the only active
 task on its directory, and a run in which it is not.
 */
module ServiceWriters {
  import opened Results
  import opened Lifecycle
  import opened TaskModel
  import opened Directory
  import opened Grants
  import opened Store
  import opened StoreInvariants
  import opened Scheduler
  import opened TaskSystem
  import opened Admission
  import opened Examples
  import opened ServiceCalls

  ghost predicate IsActiveAt(db: Db, id: nat) {
    id < |db.entries| && db.entries[id].task.status.IsActive()
  }

  /** Two active tasks share a directory only if neither writes. */
  ghost predicate WritersAreAlone(db: Db) {
    forall i, j :: IsActiveAt(db, i) && IsActiveAt(db, j) && i != j ==> MayShare(db, i, j)
  }

  ghost predicate MayShare(db: Db, i: nat, j: nat)
    requires i < |db.entries| && j < |db.entries|
  {
    var a, b := db.entries[i].task.spec, db.entries[j].task.spec;
    a.directoryId == b.directoryId ==> Write !in a.requiredCapabilities && Write !in b.requiredCapabilities
  }

  /** A call that makes a waiting task active finds nobody active that it may not share with. */
  ghost predicate EntersAlone(w: World, call: ServiceCall) {
    Activates(w, call) ==> forall j :: IsActiveAt(w.db, j) && j != call.id ==> MayShare(w.db, call.id, j)
  }

  // ---- One call ---------------------------------------------------------

  /** Old rows stay what they are, and nobody becomes active but those named. */
  ghost predicate Narrows(db: Db, db': Db, extra: set<nat>) {
    && |db.entries| <= |db'.entries|
    && (forall i :: 0 <= i < |db.entries| ==> db'.entries[i].task.spec == db.entries[i].task.spec)
    && (forall i :: IsActiveAt(db', i) ==> IsActiveAt(db, i) || i in extra)
  }

  lemma NarrowsTransitive(a: Db, b: Db, c: Db, extra: set<nat>)
    requires Narrows(a, b, extra) && Narrows(b, c, {})
    ensures Narrows(a, c, extra)
  {
  }

  lemma StatusNarrows(db: Db, id: nat, next: TaskStatus, payload: Payload, now: Timestamp)
    requires StoreOk(db)
    ensures
      var db' := ChangeStatus(db, id, next, payload, now).db;
      && StoreOk(db')
      && Narrows(db, db', if IsWaiting(db, id) && next.Preparing? then {id} else {})
      && (id < |db.entries| ==> Touches(db, db', id))
      && (IsWaiting(db, id) && next.Preparing? ==> IsActiveAt(db', id))
  {
    hide StoreOk, ChangeStatus, Numbered;
    ChangeStatusKeeps(db, id, next, payload, now);
    OkIsNumbered(db, id);
    ChangeStatusEffect(db, id, next, payload, now);
    if id < |db.entries| {
      ChangeStatusTouches(db, id, next, payload, now);
    }
  }

  lemma SameRowsNarrow(db: Db, db': Db)
    requires |db'.entries| == |db.entries|
    requires forall i :: 0 <= i < |db.entries| ==>
      db'.entries[i].task.spec == db.entries[i].task.spec && db'.entries[i].task.status == db.entries[i].task.status
    ensures Narrows(db, db', {})
  {
  }

  lemma TryAcquireNarrows(max: nat, db: Db, grants: GrantTable, id: nat, directoryId: string, now: Timestamp)
    requires StoreOk(db)
    ensures Narrows(db, TryAcquire(db, grants, max, id, directoryId, now).db, {})
  {
    hide StoreOk, ChangeStatus, Conflicts, ActiveCount, Narrows, Touches;
    SameRowsNarrow(db, db);
    StatusNarrows(db, id, WaitingDirectoryLock, Opaque("global_capacity"), now);
    StatusNarrows(db, id, WaitingDirectoryLock, Opaque("directory_lock"), now);
    if id < |db.entries| && directoryId in grants {
      var mode := LockModeOf(db.entries[id].task, grants[directoryId]);
      AcquireLockKeeps(db, directoryId, id, mode, now);
      var db' := AcquireLock(db, directoryId, id, mode, now).0;
      SameRowsNarrow(db, db');
      StatusNarrows(db', id, WaitingDirectoryLock, Opaque("directory_lock_acquired"), now);
      NarrowsTransitive(db, db', ChangeStatus(db', id, WaitingDirectoryLock, Opaque("directory_lock_acquired"), now).db, {});
    }
  }

  lemma EnqueueNarrows(db: Db, grants: GrantTable, profile: Option<Profile>, input: CreateTask, now: Timestamp)
    ensures Narrows(db, Enqueue(db, grants, profile, input, now).db, {})
  {
    hide PreChecks, Authorize, Validate;
    var db' := Enqueue(db, grants, profile, input, now).db;
    assert forall i :: 0 <= i < |db.entries| ==> db'.entries[i] == db.entries[i];
  }

  lemma CompleteNarrows(db: Db, id: nat, message: string, now: Timestamp)
    requires StoreOk(db)
    ensures Narrows(db, Complete(db, id, message, now), {})
  {
    StatusNarrows(db, id, Completed, EmptyObject, now);
    hide StoreOk, ChangeStatus;
    var r := ChangeStatus(db, id, Completed, EmptyObject, now);
    if r.result.Ok? && id < |r.db.entries| {
      var result := TaskResult(id, r.db.entries[id].task.status, message);
      SameRowsNarrow(r.db, SaveResult(r.db, result, now));
      NarrowsTransitive(db, r.db, SaveResult(r.db, result, now), {});
    }
  }

  /** Preparing a workspace: the one call with two moves. */
  lemma PrepareNarrows(db: Db, grants: GrantTable, id: nat, prepared: bool, now: Timestamp)
    requires StoreOk(db)
    ensures
      var db' := PrepareWorkspace(db, grants, id, prepared, now).db;
      if Activates(World(db, grants), Prepare(id, prepared)) then
        && Narrows(db, db', {id}) && Touches(db, db', id) && IsActiveAt(db', id)
      else Narrows(db, db', {})
  {
    OkIsNumbered(db, id);
    SameRowsNarrow(db, db);
    StatusNarrows(db, id, Preparing, EmptyObject, now);
    var db1 := if IsWaiting(db, id) then ChangeStatus(db, id, Preparing, EmptyObject, now).db else db;
    StatusNarrows(db1, id, Failed, Opaque("workspace preparation failed"), now);
    var db2 := ChangeStatus(db1, id, Failed, Opaque("workspace preparation failed"), now).db;
    hide StoreOk;
    if id < |db.entries| && db.entries[id].task.spec.directoryId in grants {
      hide ChangeStatus, Numbered;
      PrepareSucceedsExactly(db, grants, id, prepared, now);
      if !prepared {
        FailedIsNotActive(db, grants, id, now);
      }
    }
  }

  lemma FailedIsNotActive(db: Db, grants: GrantTable, id: nat, now: Timestamp)
    requires StoreOk(db) && id < |db.entries| && db.entries[id].task.spec.directoryId in grants
    ensures Narrows(db, PrepareWorkspace(db, grants, id, false, now).db, {})
  {
    OkIsNumbered(db, id);
    hide StoreOk, ChangeStatus, Numbered;
    PrepareSucceedsExactly(db, grants, id, false, now);
    PrepareEndsWithout(db, grants, id, now);
  }

  /** A task that was waiting does not stay active when its workspace is refused. */
  lemma PrepareEndsWithout(db: Db, grants: GrantTable, id: nat, now: Timestamp)
    requires id < |db.entries| && Numbered(db.entries[id].log, id) && db.entries[id].task.spec.directoryId in grants
    ensures
      var db' := PrepareWorkspace(db, grants, id, false, now).db;
      id < |db'.entries| && (IsActiveAt(db', id) ==> IsActiveAt(db, id))
  {
    hide ChangeStatus, Numbered;
    ChangeStatusTouches(db, id, Preparing, EmptyObject, now);
    var db1 := Prepared(db, id, now);
    ChangeStatusTouches(db1, id, Failed, Opaque("workspace preparation failed"), now);
  }

  lemma CallNarrows(max: nat, w: World, call: ServiceCall, now: Timestamp)
    requires StoreOk(w.db)
    ensures
      var w' := Do(max, w, call, now);
      if Activates(w, call) then
        && Narrows(w.db, w'.db, {call.id}) && Touches(w.db, w'.db, call.id) && IsActiveAt(w'.db, call.id)
      else Narrows(w.db, w'.db, {})
  {
    hide StoreOk, ChangeStatus, TryAcquire, Enqueue, PrepareWorkspace, Complete, Narrows, Touches;
    SameRowsNarrow(w.db, w.db);
    match call
    case EnqueueTask(profile, input) => EnqueueNarrows(w.db, w.grants, profile, input, now);
    case TryAcquireLock(id, directoryId) => TryAcquireNarrows(max, w.db, w.grants, id, directoryId, now);
    case MarkPreparing(id) => StatusNarrows(w.db, id, Preparing, EmptyObject, now);
    case Prepare(id, prepared) => PrepareNarrows(w.db, w.grants, id, prepared, now);
    case StartRunning(id) => StatusNarrows(w.db, id, Running, EmptyObject, now);
    case CompleteTask(id, message) => CompleteNarrows(w.db, id, message, now);
    case FailTask(id, error) => StatusNarrows(w.db, id, Failed, error, now);
    case Cancel(id) => StatusNarrows(w.db, id, Cancelled, EmptyObject, now);
    case Release(id) => SameRowsNarrow(w.db, ReleaseLocks(w.db, id, now));
    case ChangeGrant(_) =>
  }

  lemma NarrowingKeepsAlone(db: Db, db': Db)
    requires WritersAreAlone(db) && Narrows(db, db', {})
    ensures WritersAreAlone(db')
  {
    forall i, j | IsActiveAt(db', i) && IsActiveAt(db', j) && i != j
      ensures MayShare(db', i, j)
    {
      assert IsActiveAt(db, i) && IsActiveAt(db, j) && MayShare(db, i, j);
    }
  }

  /** A call keeps writers alone exactly when what it makes active may share. */
  lemma CallKeepsAloneExactly(max: nat, w: World, call: ServiceCall, now: Timestamp)
    requires StoreOk(w.db) && WritersAreAlone(w.db)
    ensures WritersAreAlone(Do(max, w, call, now).db) <==> EntersAlone(w, call)
  {
    hide StoreOk, Do, WritersAreAlone;
    CallNarrows(max, w, call, now);
    if Activates(w, call) {
      EnteringKeepsAloneExactly(w.db, Do(max, w, call, now).db, call.id);
    } else {
      NarrowingKeepsAlone(w.db, Do(max, w, call, now).db);
    }
  }

  lemma EnteringKeepsAloneExactly(db: Db, db': Db, id: nat)
    requires WritersAreAlone(db)
    requires Narrows(db, db', {id}) && Touches(db, db', id) && IsActiveAt(db', id)
    ensures WritersAreAlone(db') <==> forall j :: IsActiveAt(db, j) && j != id ==> MayShare(db, id, j)
  {
    hide Numbered;
    if forall j :: IsActiveAt(db, j) && j != id ==> MayShare(db, id, j) {
      forall i, j | IsActiveAt(db', i) && IsActiveAt(db', j) && i != j
        ensures MayShare(db', i, j)
      {
        assert if i == id then MayShare(db, id, j) else if j == id then MayShare(db, id, i) else MayShare(db, i, j);
      }
    } else {
      var j :| IsActiveAt(db, j) && j != id && !MayShare(db, id, j);
      assert IsActiveAt(db', j) && !MayShare(db', id, j);
    }
  }

  // ---- Every run of calls -----------------------------------------------

  ghost predicate AloneThroughout(max: nat, calls: ServiceCalls.Run) {
    forall i :: 0 <= i <= |calls| ==> WritersAreAlone(After(max, calls[..i]).db)
  }

  ghost predicate EntersAloneThroughout(max: nat, calls: ServiceCalls.Run) {
    forall i :: 0 <= i < |calls| ==> EntersAlone(After(max, calls[..i]), calls[i].0)
  }

  lemma {:induction false} AloneOneMore(max: nat, calls: ServiceCalls.Run)
    requires calls != []
    ensures
      var n := |calls| - 1;
      && (AloneThroughout(max, calls) <==> AloneThroughout(max, calls[..n]) && WritersAreAlone(After(max, calls).db))
      && (EntersAloneThroughout(max, calls) <==> EntersAloneThroughout(max, calls[..n]) && EntersAlone(After(max, calls[..n]), calls[n].0))
      && (AloneThroughout(max, calls[..n]) ==> WritersAreAlone(After(max, calls[..n]).db))
  {
    hide After, WritersAreAlone, EntersAlone;
    var n := |calls| - 1;
    assert forall i :: 0 <= i <= n ==> calls[..n][..i] == calls[..i];
    assert calls[..|calls|] == calls && calls[..n][..n] == calls[..n];
  }

  /** In any run of service calls an active writer is alone on its directory throughout if
      and only if every call that makes a waiting task active finds nobody there that it
      may not share with: no call looks. */
  lemma {:induction false} WritersAreAloneExactly(max: nat, calls: ServiceCalls.Run)
    ensures AloneThroughout(max, calls) <==> EntersAloneThroughout(max, calls)
  {
    hide AloneThroughout, EntersAloneThroughout, WritersAreAlone, EntersAlone, Do, StoreOk;
    if calls == [] {
      NobodyWrites(max);
    } else {
      var n := |calls| - 1;
      WritersAreAloneExactly(max, calls[..n]);
      AloneOneMore(max, calls);
      ServiceCalls.EveryRunIsOk(max, calls[..n]);
      if WritersAreAlone(After(max, calls[..n]).db) {
        CallKeepsAloneExactly(max, After(max, calls[..n]), calls[n].0, calls[n].1);
      }
    }
  }

  lemma NobodyWrites(max: nat)
    ensures AloneThroughout(max, []) && EntersAloneThroughout(max, [])
  {
  }

  // ---- A run with two writers -------------------------------------------

  /** A writer that has been through the lock step waits, with the lock or without. */
  lemma WriterIsMadeToWait(db: Db, id: nat)
    requires id < |db.entries| && Numbered(db.entries[id].log, id) && db.entries[id] == NewEntry(id, Write)
    ensures
      var db' := TryAcquire(db, GrantsWith(true), 2, id, "d", 0).db;
      && Touches(db, db', id) && IsWaiting(db', id)
      && db'.entries[id].task.spec == NewEntry(id, Write).task.spec
  {
    hide GrantsWith, ActiveCount, LockModeOf, NewTask;
    LockOfRequest(true, Write, id);
    NewEntryIsQueued(id, Write);
    hide NewEntry;
    TryAcquireSucceedsExactly(2, db, GrantsWith(true), id, 0);
  }

  lemma {:induction false} TwoWritersQueued() returns (calls: ServiceCalls.Run)
    ensures After(2, calls) == World(Db([NewEntry(0, Write), NewEntry(1, Write)], map[], map[]), GrantsWith(true))
  {
    hide After, GrantsWith, Enqueue, NewEntry, TaskRequest, PolicyFromCreate;
    NothingCalled();
    AfterOneMore(2, [], ChangeGrant(GrantCreation(true)));
    calls := [] + [(ChangeGrant(GrantCreation(true)), 0)];
    FirstGrantIsMade();
    RequestIsEnqueued(EMPTY_DB, true, Write);
    AfterOneMore(2, calls, EnqueueTask(Some(PROFILE), TaskRequest(Write)));
    calls := calls + [(EnqueueTask(Some(PROFILE), TaskRequest(Write)), 0)];
    var db := After(2, calls).db;
    assert db == Db([NewEntry(0, Write)], map[], map[]);
    RequestIsEnqueued(db, true, Write);
    AfterOneMore(2, calls, EnqueueTask(Some(PROFILE), TaskRequest(Write)));
    calls := calls + [(EnqueueTask(Some(PROFILE), TaskRequest(Write)), 0)];
  }

  lemma NothingCalled()
    ensures After(2, []) == World(EMPTY_DB, map[])
  {
  }

  lemma FirstGrantIsMade()
    ensures Do(2, World(EMPTY_DB, map[]), ChangeGrant(GrantCreation(true)), 0) == World(EMPTY_DB, GrantsWith(true))
  {
    hide PolicyFromCreate;
  }

  /** Two writers of one directory, both past the lock step, one of them without the lock:
      marking both as preparing leaves two active writers there. */
  lemma {:induction false} PreparingByHandRunsTwoWriters() returns (calls: ServiceCalls.Run)
    ensures
      var db := After(2, calls).db;
      && IsActiveAt(db, 0) && IsActiveAt(db, 1)
      && db.entries[0].task.spec.directoryId == db.entries[1].task.spec.directoryId == "d"
      && Write in db.entries[0].task.spec.requiredCapabilities && Write in db.entries[1].task.spec.requiredCapabilities
      && !WritersAreAlone(db)
  {
    hide After, GrantsWith, TryAcquire, NewEntry, StoreOk, ChangeStatus, Numbered, WritersAreAlone;
    calls := TwoWritersQueued();
    NewEntryIsQueued(0, Write);
    NewEntryIsQueued(1, Write);
    var db := After(2, calls).db;
    WriterIsMadeToWait(db, 0);
    AfterOneMore(2, calls, TryAcquireLock(0, "d"));
    calls := calls + [(TryAcquireLock(0, "d"), 0)];
    WriterIsMadeToWait(After(2, calls).db, 1);
    AfterOneMore(2, calls, TryAcquireLock(1, "d"));
    calls := calls + [(TryAcquireLock(1, "d"), 0)];
    ServiceCalls.EveryRunIsOk(2, calls);
    StatusNarrows(After(2, calls).db, 0, Preparing, EmptyObject, 0);
    AfterOneMore(2, calls, MarkPreparing(0));
    calls := calls + [(MarkPreparing(0), 0)];
    ServiceCalls.EveryRunIsOk(2, calls);
    StatusNarrows(After(2, calls).db, 1, Preparing, EmptyObject, 0);
    AfterOneMore(2, calls, MarkPreparing(1));
    calls := calls + [(MarkPreparing(1), 0)];
    TwoWritersAreNotAlone(After(2, calls).db);
  }

  lemma TwoWritersAreNotAlone(db: Db)
    requires IsActiveAt(db, 0) && IsActiveAt(db, 1)
    requires db.entries[0].task.spec.directoryId == db.entries[1].task.spec.directoryId
    requires Write in db.entries[0].task.spec.requiredCapabilities
    ensures !WritersAreAlone(db)
  {
    assert !MayShare(db, 0, 1);
  }
}
