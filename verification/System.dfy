/**
 The daemon's task engine as a state machine: enqueues, admissions, execution
 outcomes written one store call at a time, cancels, permission traffic and grant
 changes, in any order and any number.
 */
module TaskSystem {
  import opened Results
  import opened Lifecycle
  import opened TaskModel
  import opened Locks
  import opened Grants
  import opened Store
  import opened StoreInvariants
  import opened Scheduler

  /** An `execute_task` call past admission: waiting for the runtime, then writing its outcome. */
  datatype Worker =
    | Executing(id: nat)
    | Persisting(id: nat, output: seq<(EventType, Payload)>, status: TaskStatus, error: Payload, message: string)
    | Reloading(id: nat, message: string)
    | Saving(saved: TaskResult)

  datatype Sys = Sys(db: Db, grants: GrantTable, workers: map<nat, Worker>)

  const INITIAL := Sys(EMPTY_DB, map[], map[])

  datatype Step =
    | EnqueueStep(profile: Option<Profile>, input: CreateTask)
    | AdmitStep(w: nat, admitted: nat, runtime: RuntimeSearch, prepared: bool)
    | OutcomeStep(w: nat, output: seq<(EventType, Payload)>, status: TaskStatus, error: Payload, message: string)
    | AbandonStep(w: nat)
    | PersistStep(w: nat)
    | CancelStep(cancelled: nat)
    | RequestStep(asker: nat, request: PermissionRequest)
    | AnswerStep(asker: nat, requestId: string, decision: Decision, reason: Option<string>)
    | GrantStep(call: GrantCall)

  /** One store call of `persist_outcome`. */
  function Persist(s: Sys, w: nat, now: Timestamp): Sys
    requires w in s.workers
  {
    match s.workers[w]
    case Executing(_) => s
    case Persisting(id, output, status, error, message) =>
      if output != [] then
        var r := AppendEvent(s.db, id, output[0].0, output[0].1, now);
        s.(db := r.db,
           workers := if r.result.Ok? then s.workers[w := Persisting(id, output[1..], status, error, message)] else s.workers - {w})
      else
        var r := ChangeStatus(s.db, id, status, error, now);
        s.(db := r.db, workers := if r.result.Ok? then s.workers[w := Reloading(id, message)] else s.workers - {w})
    case Reloading(id, message) =>
      if id < |s.db.entries| then
        s.(workers := s.workers[w := Saving(TaskResult(id, s.db.entries[id].task.status, message))])
      else s.(workers := s.workers - {w})
    case Saving(saved) => s.(db := SaveResult(s.db, saved, now), workers := s.workers - {w})
  }

  function Next(max: nat, s: Sys, step: Step, now: Timestamp): Sys {
    match step
    case EnqueueStep(profile, input) => s.(db := Enqueue(s.db, s.grants, profile, input, now).db)
    case AdmitStep(w, id, runtime, prepared) =>
      var r := Admit(s.db, s.grants, max, id, runtime, prepared, now);
      s.(db := r.db, workers := if r.result.Ok? then s.workers[w := Executing(id)] else s.workers)
    case OutcomeStep(w, output, status, error, message) =>
      if w in s.workers && s.workers[w].Executing?
      then s.(workers := s.workers[w := Persisting(s.workers[w].id, output, status, error, message)]) else s
    case AbandonStep(w) => s.(workers := s.workers - {w})
    case PersistStep(w) => if w in s.workers then Persist(s, w, now) else s
    case CancelStep(id) => s.(db := CancelTask(s.db, id, now).db)
    case RequestStep(id, request) => s.(db := RecordPermission(s.db, id, request, now).db)
    case AnswerStep(id, requestId, decision, reason) =>
      s.(db := ResolvePermission(s.db, id, requestId, decision, reason, now).db)
    case GrantStep(call) => s.(grants := Apply(s.grants, call).0)
  }

  /** A runtime emits what executions append and ends in a terminal status, and a new
      grant gets an unused id. */
  ghost predicate Permitted(s: Sys, step: Step) {
    && (step.AdmitStep? ==> step.w !in s.workers)
    && (step.OutcomeStep? ==>
          step.status.IsTerminal() && forall i :: 0 <= i < |step.output| ==> IsRuntimeEvent(step.output[i].0, step.output[i].1))
    && (step.GrantStep? && step.call.Create? ==> step.call.id !in s.grants)
  }

  type Run = seq<(Step, Timestamp)>

  function From(max: nat, s: Sys, steps: Run): Sys {
    if steps == [] then s
    else Next(max, From(max, s, steps[..|steps| - 1]), steps[|steps| - 1].0, steps[|steps| - 1].1)
  }

  ghost predicate IsRun(max: nat, s: Sys, steps: Run) {
    forall i :: 0 <= i < |steps| ==> Permitted(From(max, s, steps[..i]), steps[i].0)
  }

  // ---- The invariant ----------------------------------------------------

  /** Held locks belong to live tasks, on their own directories. */
  ghost predicate LocksOwned(entries: seq<Entry>, locks: LockTable) {
    forall k :: k in locks && locks[k].held ==>
      && k.taskId < |entries|
      && !entries[k.taskId].task.status.IsTerminal()
      && entries[k.taskId].task.spec.directoryId == k.directoryId
  }

  /** A stored result has its task's own, terminal, status. */
  ghost predicate ResultsMatch(entries: seq<Entry>) {
    forall i :: 0 <= i < |entries| && entries[i].task.result.Some? ==>
      && entries[i].task.status.IsTerminal()
      && entries[i].task.result.value.status == entries[i].task.status
      && entries[i].task.result.value.taskId == i
  }

  ghost predicate WorkerOk(entries: seq<Entry>, p: Worker) {
    match p
    case Executing(id) => id < |entries|
    case Persisting(id, output, status, _, _) =>
      id < |entries| && status.IsTerminal() && forall i :: 0 <= i < |output| ==> IsRuntimeEvent(output[i].0, output[i].1)
    case Reloading(id, _) => id < |entries| && entries[id].task.status.IsTerminal()
    case Saving(saved) =>
      saved.taskId < |entries| && saved.status == entries[saved.taskId].task.status && saved.status.IsTerminal()
  }

  ghost predicate WorkersOk(entries: seq<Entry>, workers: map<nat, Worker>) {
    forall w :: w in workers ==> WorkerOk(entries, workers[w])
  }

  ghost predicate EngineOk(max: nat, db: Db) {
    && StoreOk(db)
    && LocksOwned(db.entries, db.locks)
    && ResultsMatch(db.entries)
    && ActiveCount(db.entries) <= max
  }

  ghost predicate SysOk(max: nat, s: Sys) {
    && EngineOk(max, s.db)
    && SoundTable(s.grants)
    && WorkersOk(s.db.entries, s.workers)
  }

  // ---- Counting ---------------------------------------------------------

  function Weight(entry: Entry): nat {
    if entry.task.status.IsActive() then 1 else 0
  }

  lemma {:induction false} CountAfterReplace(entries: seq<Entry>, id: nat, entry': Entry)
    requires id < |entries|
    ensures ActiveCount(entries[id := entry']) == ActiveCount(entries) - Weight(entries[id]) + Weight(entry')
  {
    var n := |entries| - 1;
    var entries' := entries[id := entry'];
    if id < n {
      CountAfterReplace(entries[..n], id, entry');
      assert entries'[..n] == entries[..n][id := entry'];
    } else {
      assert entries'[..n] == entries[..n];
    }
  }

  lemma {:induction false} CountDependsOnTasks(entries: seq<Entry>, entries': seq<Entry>)
    requires |entries| == |entries'|
    requires forall i :: 0 <= i < |entries| ==> entries'[i].task.status == entries[i].task.status
    ensures ActiveCount(entries') == ActiveCount(entries)
  {
    if entries != [] {
      CountDependsOnTasks(entries[..|entries| - 1], entries'[..|entries| - 1]);
    }
  }

  // ---- Single moves -----------------------------------------------------

  /** Store calls that leave task rows and locks alone leave the engine alone. */
  lemma SameTasksKeepEngine(max: nat, db: Db, db': Db)
    requires EngineOk(max, db) && StoreOk(db') && SameTasks(db, db')
    ensures EngineOk(max, db')
  {
    CountDependsOnTasks(db.entries, db'.entries);
  }

  ghost predicate Moved(entry: Entry, entry': Entry, next: TaskStatus) {
    && Allowed(entry.task.status, next)
    && entry'.task.status == next
    && entry'.task.spec == entry.task.spec
    && entry'.task.result == entry.task.result
  }

  lemma MoveKeepsRows(entries: seq<Entry>, locks: LockTable, id: nat, entry': Entry, next: TaskStatus, now: Timestamp)
    requires id < |entries| && Moved(entries[id], entry', next)
    requires ResultsMatch(entries) && LocksOwned(entries, locks)
    ensures
      var locks' := if next.IsTerminal() then ReleaseHeld(locks, id, now) else locks;
      ResultsMatch(entries[id := entry']) && LocksOwned(entries[id := entry'], locks')
  {
  }

  /** A committed transition keeps the engine, provided a task enters Preparing only with
      room under the limit. */
  lemma StatusKeepsEngine(max: nat, db: Db, id: nat, next: TaskStatus, payload: Payload, now: Timestamp)
    requires EngineOk(max, db)
    requires next.Preparing? && id < |db.entries| ==> ActiveCount(db.entries) < max
    ensures
      var r := ChangeStatus(db, id, next, payload, now);
      var commits := id < |db.entries| && Allowed(db.entries[id].task.status, next);
      && EngineOk(max, r.db)
      && Grows(db, r.db)
      && |r.db.entries| == |db.entries|
      && (commits ==> r.result.Ok? && r.db.entries[id].task.status == next && r.db.entries[id].task.spec == db.entries[id].task.spec)
      && (!commits ==> r.db == db && (r.result.Err? || next.IsTerminal()))
      && (!next.IsTerminal() ==> r.db.locks == db.locks)
      && (!next.IsActive() ==> ActiveCount(r.db.entries) <= ActiveCount(db.entries))
  {
    hide StoreOk, Grows, ChangeStatus, Sourced, Moved, LocksOwned, ResultsMatch, ActiveCount;
    ChangeStatusKeeps(db, id, next, payload, now);
    OkIsNumbered(db, id);
    ChangeStatusMoves(db, id, next, payload, now);
    if id < |db.entries| && Allowed(db.entries[id].task.status, next) {
      var entry' := ChangeStatus(db, id, next, payload, now).db.entries[id];
      MoveKeepsRows(db.entries, db.locks, id, entry', next, now);
      CountAfterReplace(db.entries, id, entry');
      MovedWeights(db.entries[id], entry', next);
    }
  }

  lemma MovedWeights(entry: Entry, entry': Entry, next: TaskStatus)
    requires Moved(entry, entry', next)
    ensures entry'.task.status == next && entry'.task.spec == entry.task.spec
    ensures Weight(entry') <= Weight(entry) + (if next.Preparing? then 1 else 0)
  {
  }

  lemma ChangeStatusMoves(db: Db, id: nat, next: TaskStatus, payload: Payload, now: Timestamp)
    requires id < |db.entries| ==> Numbered(db.entries[id].log, id)
    ensures
      var r := ChangeStatus(db, id, next, payload, now);
      var commits := id < |db.entries| && Allowed(db.entries[id].task.status, next);
      && |r.db.entries| == |db.entries|
      && (!commits ==> r.db == db && (r.result.Err? || next.IsTerminal()))
      && (commits ==>
            && r.result.Ok?
            && Moved(db.entries[id], r.db.entries[id], next)
            && r.db.entries == db.entries[id := r.db.entries[id]]
            && r.db.locks == if next.IsTerminal() then ReleaseHeld(db.locks, id, now) else db.locks)
  {
    ChangeStatusEffect(db, id, next, payload, now);
  }

  lemma LockKeepsEngine(max: nat, db: Db, id: nat, mode: LockMode, now: Timestamp)
    requires EngineOk(max, db)
    requires id < |db.entries| && !db.entries[id].task.status.IsTerminal()
    requires !Conflicts(db.locks, db.entries[id].task.spec.directoryId, mode)
    ensures EngineOk(max, db.(locks := WithLock(db.locks, db.entries[id].task.spec.directoryId, id, mode, now)))
  {
    AcquireKeepsExclusive(db.locks, db.entries[id].task.spec.directoryId, id, mode, now);
  }

  // ---- Admission --------------------------------------------------------

  lemma WaitKeepsEngine(max: nat, db: Db, id: nat, reason: string, decision: LockDecision, now: Timestamp)
    requires EngineOk(max, db) && id < |db.entries|
    ensures
      var r := Wait(db, id, reason, decision, now);
      && EngineOk(max, r.db)
      && Grows(db, r.db)
      && |r.db.entries| == |db.entries|
      && r.db.locks == db.locks
      && ActiveCount(r.db.entries) <= ActiveCount(db.entries)
      && (r.result.Ok? ==> r.result.value == decision)
  {
    hide StoreOk;
    StatusKeepsEngine(max, db, id, WaitingDirectoryLock, Opaque(reason), now);
  }

  lemma SameEntriesGrow(db: Db, db': Db)
    requires db'.entries == db.entries && db'.permissions == db.permissions
    ensures Grows(db, db')
  {
    EntriesGrowReflexive(db.entries);
  }

  /** The lock step: when it lets the task on, the limit has room. */
  lemma TryAcquireKeepsEngine(max: nat, db: Db, grants: GrantTable, id: nat, now: Timestamp)
    requires EngineOk(max, db)
    requires id < |db.entries| && !db.entries[id].task.status.IsTerminal()
    ensures
      var r := TryAcquire(db, grants, max, id, db.entries[id].task.spec.directoryId, now);
      && EngineOk(max, r.db)
      && Grows(db, r.db)
      && |r.db.entries| == |db.entries|
      && (r.result.Ok? && !r.result.value.Waiting? ==> ActiveCount(r.db.entries) < max)
  {
    hide EngineOk, Grows, Wait, ActiveCount, Conflicts, LockModeOf;
    var task := db.entries[id].task;
    var directoryId := task.spec.directoryId;
    GrowsReflexive(db);
    WaitKeepsEngine(max, db, id, "global_capacity", Waiting, now);
    WaitKeepsEngine(max, db, id, "directory_lock", Waiting, now);
    if directoryId in grants {
      var mode := LockModeOf(task, grants[directoryId]);
      if !Conflicts(db.locks, directoryId, mode) {
        LockKeepsEngine(max, db, id, mode, now);
        var db' := db.(locks := WithLock(db.locks, directoryId, id, mode, now));
        WaitKeepsEngine(max, db', id, "directory_lock_acquired", Acquired, now);
        SameEntriesGrow(db, db');
        GrowsTransitive(db, db', Wait(db', id, "directory_lock_acquired", Acquired, now).db);
      }
    }
  }

  /** The task row after `mark_preparing`, if it applies. */
  function Prepared(db: Db, id: nat, now: Timestamp): Db
    requires id < |db.entries|
  {
    if db.entries[id].task.status.WaitingDirectoryLock? then ChangeStatus(db, id, Preparing, EmptyObject, now).db else db
  }

  lemma PrepareEndsIn(db: Db, grants: GrantTable, id: nat, prepared: bool, now: Timestamp)
    requires id < |db.entries|
    ensures
      var r := PrepareWorkspace(db, grants, id, prepared, now);
      || r.db == db
      || r.db == Prepared(db, id, now)
      || r.db == ChangeStatus(Prepared(db, id, now), id, Failed, Opaque("workspace preparation failed"), now).db
  {
  }

  lemma PreparedKeepsEngine(max: nat, db: Db, id: nat, now: Timestamp)
    requires EngineOk(max, db) && id < |db.entries| && ActiveCount(db.entries) < max
    ensures EngineOk(max, Prepared(db, id, now))
    ensures Grows(db, Prepared(db, id, now)) && |Prepared(db, id, now).entries| == |db.entries|
  {
    EntriesGrowReflexive(db.entries);
    StatusKeepsEngine(max, db, id, Preparing, EmptyObject, now);
  }

  lemma PrepareKeepsEngine(max: nat, db: Db, grants: GrantTable, id: nat, prepared: bool, now: Timestamp)
    requires EngineOk(max, db) && id < |db.entries| && ActiveCount(db.entries) < max
    ensures
      var r := PrepareWorkspace(db, grants, id, prepared, now);
      EngineOk(max, r.db) && Grows(db, r.db) && |r.db.entries| == |db.entries|
  {
    hide StoreOk;
    EntriesGrowReflexive(db.entries);
    PreparedKeepsEngine(max, db, id, now);
    var db1 := Prepared(db, id, now);
    StatusKeepsEngine(max, db1, id, Failed, Opaque("workspace preparation failed"), now);
    GrowsTransitive(db, db1, ChangeStatus(db1, id, Failed, Opaque("workspace preparation failed"), now).db);
    PrepareEndsIn(db, grants, id, prepared, now);
  }

  lemma MarkRunningKeepsEngine(max: nat, db: Db, id: nat, now: Timestamp)
    requires EngineOk(max, db)
    ensures
      var r := MarkRunning(db, id, now);
      EngineOk(max, r.db) && Grows(db, r.db) && |r.db.entries| == |db.entries|
  {
    hide StoreOk, ActiveCount;
    StatusKeepsEngine(max, db, id, Running, EmptyObject, now);
  }

  lemma AdmitKeepsEngine(
      max: nat, db: Db, grants: GrantTable, id: nat, runtime: RuntimeSearch, prepared: bool, now: Timestamp)
    requires EngineOk(max, db)
    ensures
      var r := Admit(db, grants, max, id, runtime, prepared, now);
      && EngineOk(max, r.db)
      && Grows(db, r.db)
      && |r.db.entries| == |db.entries|
      && (r.result.Ok? ==> id < |db.entries|)
  {
    hide EngineOk, Grows, TryAcquire, PrepareWorkspace, MarkRunning, ActiveCount;
    GrowsReflexive(db);
    if id < |db.entries| && !db.entries[id].task.status.IsTerminal() {
      TryAcquireKeepsEngine(max, db, grants, id, now);
      var lock := TryAcquire(db, grants, max, id, db.entries[id].task.spec.directoryId, now);
      if lock.result.Ok? && !lock.result.value.Waiting? {
        PrepareKeepsEngine(max, lock.db, grants, id, prepared, now);
        var workspace := PrepareWorkspace(lock.db, grants, id, prepared, now);
        GrowsTransitive(db, lock.db, workspace.db);
        MarkRunningKeepsEngine(max, workspace.db, id, now);
        GrowsTransitive(db, workspace.db, MarkRunning(workspace.db, id, now).db);
      }
    }
  }

  // ---- Every step -------------------------------------------------------

  lemma GrowthKeepsWorkers(db: Db, db': Db, workers: map<nat, Worker>)
    requires WorkersOk(db.entries, workers) && Grows(db, db')
    ensures WorkersOk(db'.entries, workers)
  {
    forall w | w in workers
      ensures WorkerOk(db'.entries, workers[w])
    {
      assert WorkerOk(db.entries, workers[w]);
      assert forall i :: 0 <= i < |db.entries| ==> EntryGrows(db.entries[i], db'.entries[i]);
    }
  }

  lemma EnqueueKeepsEngine(max: nat, db: Db, grants: GrantTable, profile: Option<Profile>, input: CreateTask, now: Timestamp)
    requires EngineOk(max, db) && SoundTable(grants)
    ensures EngineOk(max, Enqueue(db, grants, profile, input, now).db)
    ensures Grows(db, Enqueue(db, grants, profile, input, now).db)
  {
    EntriesGrowReflexive(db.entries);
    var r := Enqueue(db, grants, profile, input, now);
    EnqueueCreatesExactlyCoveredTasks(db, grants, profile, input, now);
    if r.result.Ok? {
      var mode := PreChecks(grants, profile, input).value;
      var checked := input.(
        workspaceMode := Some(mode), providerId := Some(profile.value.providerId),
        model := Some(profile.value.model), permissionMode := Some(profile.value.permissionMode));
      assert r.db == CreateRow(db, checked, now).db;
      CreateKeeps(db, checked, now);
      NewRowKeepsEngine(max, db, r.db);
    }
  }

  lemma NewRowKeepsEngine(max: nat, db: Db, db': Db)
    requires EngineOk(max, db) && StoreOk(db')
    requires |db'.entries| == |db.entries| + 1 && db'.entries[..|db.entries|] == db.entries && db'.locks == db.locks
    requires db'.entries[|db.entries|].task.status == Queued && db'.entries[|db.entries|].task.result.None?
    ensures EngineOk(max, db')
  {
    hide StoreOk;
    assert forall i :: 0 <= i < |db.entries| ==> db'.entries[i] == db.entries[i];
  }

  lemma SaveKeepsEngine(max: nat, db: Db, saved: TaskResult, now: Timestamp)
    requires EngineOk(max, db)
    requires WorkerOk(db.entries, Saving(saved))
    ensures EngineOk(max, SaveResult(db, saved, now))
    ensures Grows(db, SaveResult(db, saved, now))
  {
    hide StoreOk, ActiveCount;
    SaveResultKeeps(db, saved, now);
    CountDependsOnTasks(db.entries, SaveResult(db, saved, now).entries);
  }

  lemma CancelKeepsEngine(max: nat, db: Db, id: nat, now: Timestamp)
    requires EngineOk(max, db)
    ensures EngineOk(max, CancelTask(db, id, now).db)
    ensures Grows(db, CancelTask(db, id, now).db)
  {
    EntriesGrowReflexive(db.entries);
    StatusKeepsEngine(max, db, id, Cancelled, EmptyObject, now);
  }

  lemma PersistKeeps(max: nat, s: Sys, w: nat, now: Timestamp)
    requires SysOk(max, s) && w in s.workers
    ensures SysOk(max, Persist(s, w, now)) && Grows(s.db, Persist(s, w, now).db)
  {
    hide Grows, StoreOk, LocksOwned, ResultsMatch, ActiveCount, SoundTable, SameTasks, AppendEvent, SaveResult;
    GrowsReflexive(s.db);
    assert WorkerOk(s.db.entries, s.workers[w]);
    var s' := Persist(s, w, now);
    match s.workers[w]
    case Executing(_) =>
    case Persisting(id, output, status, error, _) =>
      if output != [] {
        AppendOutputKeeps(s.db, id, output[0].0, output[0].1, now);
        SameTasksKeepEngine(max, s.db, s'.db);
      } else {
        StatusKeepsEngine(max, s.db, id, status, error, now);
      }
      GrowthKeepsWorkers(s.db, s'.db, s.workers);
    case Reloading(_, _) =>
    case Saving(saved) =>
      SaveKeepsEngine(max, s.db, saved, now);
      GrowthKeepsWorkers(s.db, s'.db, s.workers);
  }

  lemma StepKeeps(max: nat, s: Sys, step: Step, now: Timestamp)
    requires SysOk(max, s) && Permitted(s, step)
    ensures SysOk(max, Next(max, s, step, now)) && Grows(s.db, Next(max, s, step, now).db)
  {
    hide StoreOk, Grows, Admit, CancelTask, Enqueue, RecordPermission, ResolvePermission, Apply, LocksOwned, ResultsMatch, ActiveCount, SoundTable, SameTasks;
    GrowsReflexive(s.db);
    var s' := Next(max, s, step, now);
    match step
    case EnqueueStep(profile, input) =>
      EnqueueKeepsEngine(max, s.db, s.grants, profile, input, now);
      GrowthKeepsWorkers(s.db, s'.db, s.workers);
    case AdmitStep(w, id, runtime, prepared) =>
      AdmitKeepsEngine(max, s.db, s.grants, id, runtime, prepared, now);
      GrowthKeepsWorkers(s.db, s'.db, s.workers);
    case OutcomeStep(w, output, status, error, message) =>
      assert w in s.workers ==> WorkerOk(s.db.entries, s.workers[w]);
    case AbandonStep(w) =>
    case PersistStep(w) =>
      if w in s.workers { PersistKeeps(max, s, w, now); }
    case CancelStep(id) =>
      CancelKeepsEngine(max, s.db, id, now);
      GrowthKeepsWorkers(s.db, s'.db, s.workers);
    case RequestStep(id, request) =>
      RecordPermissionKeeps(s.db, id, request, now);
      SameTasksKeepEngine(max, s.db, s'.db);
      GrowthKeepsWorkers(s.db, s'.db, s.workers);
    case AnswerStep(id, requestId, decision, reason) =>
      ResolvePermissionKeeps(s.db, id, requestId, decision, reason, now);
      SameTasksKeepEngine(max, s.db, s'.db);
      GrowthKeepsWorkers(s.db, s'.db, s.workers);
    case GrantStep(call) =>
      ApplyKeepsSound(s.grants, call);
  }

  lemma {:induction false} RunKeeps(max: nat, s: Sys, steps: Run)
    requires SysOk(max, s) && IsRun(max, s, steps)
    ensures SysOk(max, From(max, s, steps)) && Grows(s.db, From(max, s, steps).db)
  {
    hide SysOk, Next, Grows, Permitted;
    GrowsReflexive(s.db);
    if steps != [] {
      var n := |steps| - 1;
      var init := steps[..n];
      assert forall i :: 0 <= i < n ==> init[..i] == steps[..i];
      RunKeeps(max, s, init);
      StepKeeps(max, From(max, s, init), steps[n].0, steps[n].1);
      GrowsTransitive(s.db, From(max, s, init).db, From(max, s, steps).db);
    }
  }

  lemma {:induction false} EveryRunIsOk(max: nat, steps: Run)
    requires IsRun(max, INITIAL, steps)
    ensures SysOk(max, From(max, INITIAL, steps))
  {
    EmptyIsOk();
    RunKeeps(max, INITIAL, steps);
  }

  // ---- Main results -----------------------------------------------------

  /** Whatever mix of enqueues, admissions, retries, failures and cancels occurs, at
      most `max` tasks are ever Preparing or Running. */
  lemma {:induction false} CapacityHolds(max: nat, steps: Run)
    requires IsRun(max, INITIAL, steps)
    ensures ActiveCount(From(max, INITIAL, steps).db.entries) <= max
  {
    EveryRunIsOk(max, steps);
  }

  /** Every held lock belongs to an existing, non-terminal task on that directory, and
      a held exclusive lock is the only held lock there. */
  lemma {:induction false} LocksBelongToLiveTasks(max: nat, steps: Run, key: LockKey)
    requires IsRun(max, INITIAL, steps)
    requires
      var locks := From(max, INITIAL, steps).db.locks;
      key in locks && locks[key].held
    ensures
      var db := From(max, INITIAL, steps).db;
      && key.taskId < |db.entries|
      && !db.entries[key.taskId].task.status.IsTerminal()
      && db.entries[key.taskId].task.spec.directoryId == key.directoryId
      && (db.locks[key].mode.Exclusive? ==>
            forall k :: k in db.locks && db.locks[k].held && k.directoryId == key.directoryId ==> k == key)
  {
    EveryRunIsOk(max, steps);
  }

  /** The first terminal status is final: no later run changes it or its timestamps,
      and whatever result is stored has that status. */
  lemma {:induction false} FirstTerminalIsFinal(max: nat, before: Run, after: Run, id: nat)
    requires IsRun(max, INITIAL, before) && IsRun(max, From(max, INITIAL, before), after)
    requires
      var entries := From(max, INITIAL, before).db.entries;
      id < |entries| && entries[id].task.status.IsTerminal()
    ensures
      var s := From(max, INITIAL, before);
      var s' := From(max, s, after);
      && id < |s'.db.entries|
      && var task, task' := s.db.entries[id].task, s'.db.entries[id].task;
         && task'.status == task.status
         && task'.stamps == task.stamps
         && (task'.result.Some? ==> task'.result.value.status == task.status)
  {
    EveryRunIsOk(max, before);
    RunKeeps(max, From(max, INITIAL, before), after);
    var s := From(max, INITIAL, before);
    assert EntryGrows(s.db.entries[id], From(max, s, after).db.entries[id]);
  }

  /** An outcome that lost the race to another terminal status writes nothing, and its
      worker stops before it could store a result. */
  lemma {:induction false} LosingOutcomeChangesNothing(max: nat, steps: Run, w: nat, now: Timestamp)
    requires IsRun(max, INITIAL, steps)
    requires
      var s := From(max, INITIAL, steps);
      && w in s.workers && s.workers[w].Persisting? && s.workers[w].output == []
      && s.workers[w].id < |s.db.entries|
      && s.db.entries[s.workers[w].id].task.status.IsTerminal()
      && s.db.entries[s.workers[w].id].task.status != s.workers[w].status
    ensures
      var s := From(max, INITIAL, steps);
      Next(max, s, PersistStep(w), now) == s.(workers := s.workers - {w})
  {
    hide From;
  }

  // ---- Persisting without interruption ----------------------------------

  /** How many more store calls a worker has to make. */
  function Remaining(p: Worker): nat {
    match p
    case Executing(_) => 0
    case Persisting(_, output, _, _, _) => |output| + 3
    case Reloading(_, _) => 2
    case Saving(_) => 1
  }

  function Drain(s: Sys, w: nat, now: Timestamp): Sys
    decreases if w in s.workers then Remaining(s.workers[w]) else 0
  {
    if w in s.workers && !s.workers[w].Executing? then Drain(Persist(s, w, now), w, now) else s
  }

  /** A worker's store calls, when nothing comes in between, add up to `persist_outcome`. */
  lemma {:induction false} DrainIsPersistOutcome(s: Sys, w: nat, now: Timestamp)
    requires w in s.workers && s.workers[w].Persisting?
    ensures
      var p := s.workers[w];
      && Drain(s, w, now).db == PersistOutcome(s.db, p.id, p.output, p.status, p.error, p.message, now).db
      && Drain(s, w, now).workers == s.workers - {w}
    decreases |s.workers[w].output|
  {
    var p := s.workers[w];
    var s1 := Persist(s, w, now);
    if p.output != [] {
      if w in s1.workers {
        DrainIsPersistOutcome(s1, w, now);
        assert s1.workers - {w} == s.workers - {w};
      }
    } else if w in s1.workers {
      var s2 := Persist(s1, w, now);
      assert s1.workers - {w} == s.workers - {w};
      if w in s2.workers {
        assert Drain(s2, w, now) == Drain(Persist(s2, w, now), w, now);
        assert s2.workers - {w} == s.workers - {w};
      }
      assert Drain(s1, w, now) == Drain(s2, w, now);
    }
  }
}
