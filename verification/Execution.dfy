/**
 What becomes of single tasks over whole runs of the engine: a result is written once,
 and a task that was made to wait for its lock never runs.
 */
module Execution {
  import opened Results
  import opened Lifecycle
  import opened TaskModel
  import opened Directory
  import opened Locks
  import opened Grants
  import opened Store
  import opened StoreInvariants
  import opened StoreAnswers
  import opened Scheduler
  import opened TaskSystem
  import opened Admission
  import opened Examples

  /** A runtime's outcome, when nothing comes in between, ends in the log and the result as
      it was handed over: its output in order, its status, its error and its message. */
  lemma {:induction false} HandedOverOutcomeIsRecorded(
      max: nat, s: Sys, w: nat, output: Output, status: TaskStatus, error: Payload, message: string, now: Timestamp)
    requires w in s.workers && s.workers[w].Executing? && s.workers[w].id < |s.db.entries|
    requires Numbered(s.db.entries[s.workers[w].id].log, s.workers[w].id)
    requires s.db.entries[s.workers[w].id].task.status == Running && status.IsTerminal()
    ensures
      var id := s.workers[w].id;
      var s' := Drain(Next(max, s, OutcomeStep(w, output, status, error, message), now), w, now);
      var log := s.db.entries[id].log;
      && s'.workers == s.workers - {w} && s'.grants == s.grants
      && id < |s'.db.entries|
      && s'.db.entries[id].task.status == status
      && s'.db.entries[id].task.result == Some(TaskResult(id, status, message))
      && s'.db.entries[id].log ==
           log + OutputEvents(id, |log|, output, now) + [Event(id, |log| + |output| + 1, EventTypeForStatus(status), error, now)]
  {
    hide Numbered, PersistOutcome, Drain;
    var s1 := Next(max, s, OutcomeStep(w, output, status, error, message), now);
    DrainIsPersistOutcome(s1, w, now);
    DrainKeepsGrants(s1, w, now);
    OutcomeIsRecorded(s.db, s.workers[w].id, output, status, error, message, now);
    assert s1.workers - {w} == s.workers - {w};
  }

  lemma {:induction false} DrainKeepsGrants(s: Sys, w: nat, now: Timestamp)
    ensures Drain(s, w, now).grants == s.grants
    decreases if w in s.workers then Remaining(s.workers[w]) else 0
  {
    hide AppendEvent, ChangeStatus, SaveResult;
    if w in s.workers && !s.workers[w].Executing? {
      DrainKeepsGrants(Persist(s, w, now), w, now);
    }
  }

  /** In any state the engine comes to: a new request is recorded as pending, and its first
      answer decides it, each with its event. */
  lemma {:induction false} RequestIsAskedAndAnswered(
      max: nat, steps: Run, id: nat, request: PermissionRequest, decision: Decision, reason: Option<string>, now: Timestamp)
    requires IsRun(max, INITIAL, steps)
    requires id < |From(max, INITIAL, steps).db.entries| && request.requestId !in From(max, INITIAL, steps).db.permissions
    ensures
      var s := From(max, INITIAL, steps);
      var asked := Next(max, s, RequestStep(id, request), now);
      var answered := Next(max, asked, AnswerStep(id, request.requestId, decision, reason), now);
      var n, response := |s.db.entries[id].log|, PermissionResponse(request.requestId, decision, reason);
      && request.requestId in asked.db.permissions && request.requestId in answered.db.permissions
      && asked.db.permissions[request.requestId] == PermissionRecord(id, n + 1, Pending, request, None, now, None)
      && answered.db.permissions[request.requestId] == PermissionRecord(
           id, n + 1, if decision == Approve then Approved else Denied, request, Some(response), now, Some(now))
      && id < |answered.db.entries|
      && answered.db.entries[id].log == s.db.entries[id].log + [
           Event(id, n + 1, ProviderPermissionRequested, RequestPayload(request), now),
           Event(id, n + 2, ProviderPermissionDecided, DecisionPayload(response), now)]
  {
    hide From, IsRun, RecordPermission, ResolvePermission, StoreOk, LocksOwned, ResultsMatch, ActiveCount, WorkersOk, SoundTable;
    EveryRunIsOk(max, steps);
    AskingThenAnswering(From(max, INITIAL, steps).db, id, request, decision, reason, now);
  }

  lemma AskingThenAnswering(
      db: Db, id: nat, request: PermissionRequest, decision: Decision, reason: Option<string>, now: Timestamp)
    requires StoreOk(db) && id < |db.entries| && request.requestId !in db.permissions
    ensures
      var asked := RecordPermission(db, id, request, now).db;
      var answered := ResolvePermission(asked, id, request.requestId, decision, reason, now).db;
      var n, response := |db.entries[id].log|, PermissionResponse(request.requestId, decision, reason);
      && request.requestId in asked.permissions && request.requestId in answered.permissions
      && asked.permissions[request.requestId] == PermissionRecord(id, n + 1, Pending, request, None, now, None)
      && answered.permissions[request.requestId] == PermissionRecord(
           id, n + 1, if decision == Approve then Approved else Denied, request, Some(response), now, Some(now))
      && id < |answered.entries|
      && answered.entries[id].log == db.entries[id].log + [
           Event(id, n + 1, ProviderPermissionRequested, RequestPayload(request), now),
           Event(id, n + 2, ProviderPermissionDecided, DecisionPayload(response), now)]
  {
    OkIsNumbered(db, id);
    RequestIsRecorded(db, id, request, now);
    RecordPermissionKeeps(db, id, request, now);
    var asked := RecordPermission(db, id, request, now).db;
    OkIsNumbered(asked, id);
    OkIsRecorded(asked, id, request.requestId);
    hide RecordPermission, ResolvePermission, StoreOk, RecordOk, Numbered;
    ResolvePermissionEffect(asked, id, request.requestId, decision, reason, now);
  }

  function TaskOf(p: Worker): nat {
    match p
    case Executing(id) => id
    case Persisting(id, _, _, _, _) => id
    case Reloading(id, _) => id
    case Saving(saved) => saved.taskId
  }

  /** A task with a worker has come to run and has no result yet, and no other worker. */
  ghost predicate OneWorkerEach(entries: seq<Entry>, workers: map<nat, Worker>) {
    && (forall w :: w in workers ==> WorkerHasStarted(entries, workers[w]))
    && (forall v, w :: v in workers && w in workers && TaskOf(workers[v]) == TaskOf(workers[w]) ==> v == w)
  }

  ghost predicate WorkerHasStarted(entries: seq<Entry>, p: Worker) {
    && TaskOf(p) < |entries|
    && Rank(entries[TaskOf(p)].task.status) >= 3
    && entries[TaskOf(p)].task.result.None?
  }

  ghost predicate ResultsKept(entries: seq<Entry>, entries': seq<Entry>) {
    && |entries| <= |entries'|
    && forall i :: 0 <= i < |entries| ==> entries'[i].task.result == entries[i].task.result
  }

  lemma TouchesKeepsResults(db: Db, db': Db, id: nat)
    requires Touches(db, db', id)
    ensures ResultsKept(db.entries, db'.entries)
  {
  }

  lemma AdmitKeepsResults(max: nat, db: Db, grants: GrantTable, id: nat, runtime: RuntimeSearch, prepared: bool, now: Timestamp)
    requires StoreOk(db)
    ensures ResultsKept(db.entries, Admit(db, grants, max, id, runtime, prepared, now).db.entries)
  {
    OkIsNumbered(db, id);
    hide StoreOk, Touches, TryAcquire, PrepareWorkspace, MarkRunning;
    AdmitSucceedsExactly(max, db, grants, id, runtime, prepared, now);
    if id < |db.entries| {
      TouchesKeepsResults(db, Admit(db, grants, max, id, runtime, prepared, now).db, id);
    }
  }

  lemma StatusKeepsResults(db: Db, id: nat, next: TaskStatus, payload: Payload, now: Timestamp)
    requires StoreOk(db)
    ensures ResultsKept(db.entries, ChangeStatus(db, id, next, payload, now).db.entries)
  {
    OkIsNumbered(db, id);
    hide StoreOk, Touches;
    if id < |db.entries| {
      hide ChangeStatus;
      ChangeStatusTouches(db, id, next, payload, now);
      TouchesKeepsResults(db, ChangeStatus(db, id, next, payload, now).db, id);
    }
  }

  lemma EnqueueKeepsResults(db: Db, grants: GrantTable, profile: Option<Profile>, input: CreateTask, now: Timestamp)
    requires SoundTable(grants)
    ensures ResultsKept(db.entries, Enqueue(db, grants, profile, input, now).db.entries)
  {
    hide Enqueue, SoundTable, PreChecks;
    EnqueueCreatesExactlyCoveredTasks(db, grants, profile, input, now);
    var entries' := Enqueue(db, grants, profile, input, now).db.entries;
    assert entries' == db.entries || entries'[..|db.entries|] == db.entries;
    assert forall i :: 0 <= i < |db.entries| && entries' != db.entries ==> entries'[i] == entries'[..|db.entries|][i];
  }

  /** The one step that writes a result. */
  ghost predicate IsSave(s: Sys, step: Step) {
    step.PersistStep? && step.w in s.workers && s.workers[step.w].Saving?
  }

  lemma OtherStepsKeepResults(max: nat, s: Sys, step: Step, now: Timestamp)
    requires SysOk(max, s) && Permitted(s, step) && !IsSave(s, step)
    ensures ResultsKept(s.db.entries, Next(max, s, step, now).db.entries)
  {
    hide StoreOk, Admit, ChangeStatus, Enqueue, AppendEvent, RecordPermission, ResolvePermission, Apply, SoundTable, LocksOwned, ResultsMatch, ActiveCount;
    match step
    case EnqueueStep(profile, input) => EnqueueKeepsResults(s.db, s.grants, profile, input, now);
    case AdmitStep(w, id, runtime, prepared) => AdmitKeepsResults(max, s.db, s.grants, id, runtime, prepared, now);
    case PersistStep(w) =>
      if w in s.workers && s.workers[w].Persisting? {
        var p := s.workers[w];
        assert WorkerOk(s.db.entries, p);
        if p.output != [] {
          AppendOutputKeeps(s.db, p.id, p.output[0].0, p.output[0].1, now);
        } else {
          StatusKeepsResults(s.db, p.id, p.status, p.error, now);
        }
      }
    case CancelStep(id) => StatusKeepsResults(s.db, id, Cancelled, EmptyObject, now);
    case RequestStep(id, request) => RecordPermissionKeeps(s.db, id, request, now);
    case AnswerStep(id, requestId, decision, reason) => ResolvePermissionKeeps(s.db, id, requestId, decision, reason, now);
    case _ =>
  }

  lemma SaveWritesOwnResult(max: nat, s: Sys, w: nat, now: Timestamp)
    requires w in s.workers && s.workers[w].Saving?
    ensures
      var s', id := Next(max, s, PersistStep(w), now), TaskOf(s.workers[w]);
      && s'.workers == s.workers - {w}
      && |s'.db.entries| == |s.db.entries|
      && forall i :: 0 <= i < |s.db.entries| && i != id ==> s'.db.entries[i] == s.db.entries[i]
  {
  }

  lemma GrowthKeepsWorkers(entries: seq<Entry>, entries': seq<Entry>, workers: map<nat, Worker>)
    requires OneWorkerEach(entries, workers)
    requires EntriesGrow(entries, entries') && ResultsKept(entries, entries')
    ensures OneWorkerEach(entries', workers)
  {
    forall w | w in workers
      ensures WorkerHasStarted(entries', workers[w])
    {
      assert WorkerHasStarted(entries, workers[w]);
      assert EntryGrows(entries[TaskOf(workers[w])], entries'[TaskOf(workers[w])]);
    }
  }

  /** Apart from a successful admission, a step adds no worker and moves none to another task. */
  lemma WorkersOnlyMove(max: nat, s: Sys, step: Step, now: Timestamp, w: nat)
    requires w in Next(max, s, step, now).workers
    requires step.AdmitStep? ==> step.w != w || Admit(s.db, s.grants, max, step.admitted, step.runtime, step.prepared, now).result.Err?
    ensures w in s.workers && TaskOf(Next(max, s, step, now).workers[w]) == TaskOf(s.workers[w])
  {
    hide Admit, ChangeStatus, Enqueue, AppendEvent, RecordPermission, ResolvePermission, Apply, CancelTask;
  }

  lemma FewerWorkersKeep(entries: seq<Entry>, workers: map<nat, Worker>, workers': map<nat, Worker>)
    requires OneWorkerEach(entries, workers)
    requires forall w :: w in workers' ==> w in workers && TaskOf(workers'[w]) == TaskOf(workers[w])
    ensures OneWorkerEach(entries, workers')
  {
    forall w | w in workers'
      ensures WorkerHasStarted(entries, workers'[w])
    {
      assert WorkerHasStarted(entries, workers[w]);
    }
  }

  lemma AdmissionKeepsWorkers(max: nat, s: Sys, w: nat, id: nat, runtime: RuntimeSearch, prepared: bool, now: Timestamp)
    requires SysOk(max, s) && OneWorkerEach(s.db.entries, s.workers) && w !in s.workers
    requires Admit(s.db, s.grants, max, id, runtime, prepared, now).result.Ok?
    ensures
      var s' := Next(max, s, AdmitStep(w, id, runtime, prepared), now);
      OneWorkerEach(s'.db.entries, s'.workers)
  {
    AdmittedHadNotStarted(max, s, id, runtime, prepared, now);
    StepKeeps(max, s, AdmitStep(w, id, runtime, prepared), now);
    AdmitKeepsResults(max, s.db, s.grants, id, runtime, prepared, now);
    hide SysOk, Admit, OneWorkerEach;
    var s' := Next(max, s, AdmitStep(w, id, runtime, prepared), now);
    GrowthKeepsWorkers(s.db.entries, s'.db.entries, s.workers);
    NewWorkerKeeps(s.db.entries, s'.db.entries, s.workers, w, id);
  }

  lemma AdmittedHadNotStarted(max: nat, s: Sys, id: nat, runtime: RuntimeSearch, prepared: bool, now: Timestamp)
    requires SysOk(max, s)
    requires Admit(s.db, s.grants, max, id, runtime, prepared, now).result.Ok?
    ensures id < |s.db.entries| && Rank(s.db.entries[id].task.status) < 3
    ensures WorkerHasStarted(Admit(s.db, s.grants, max, id, runtime, prepared, now).db.entries, Executing(id))
  {
    OkIsNumbered(s.db, id);
    hide StoreOk, Admit, SoundTable, LocksOwned, ActiveCount, LockModeOf, Conflicts, WorkersOk;
    AdmitSucceedsExactly(max, s.db, s.grants, id, runtime, prepared, now);
  }

  lemma NewWorkerKeeps(entries: seq<Entry>, entries': seq<Entry>, workers: map<nat, Worker>, w: nat, id: nat)
    requires OneWorkerEach(entries, workers) && OneWorkerEach(entries', workers) && w !in workers
    requires id < |entries| && Rank(entries[id].task.status) < 3
    requires WorkerHasStarted(entries', Executing(id))
    ensures OneWorkerEach(entries', workers[w := Executing(id)])
  {
    assert forall v :: v in workers ==> WorkerHasStarted(entries, workers[v]);
  }

  lemma StepKeepsWorkers(max: nat, s: Sys, step: Step, now: Timestamp)
    requires SysOk(max, s) && Permitted(s, step) && OneWorkerEach(s.db.entries, s.workers)
    ensures
      var s' := Next(max, s, step, now);
      OneWorkerEach(s'.db.entries, s'.workers)
  {
    StepKeeps(max, s, step, now);
    hide SysOk, Next, OneWorkerEach, Admit;
    var s' := Next(max, s, step, now);
    if step.AdmitStep? && Admit(s.db, s.grants, max, step.admitted, step.runtime, step.prepared, now).result.Ok? {
      AdmissionKeepsWorkers(max, s, step.w, step.admitted, step.runtime, step.prepared, now);
    } else {
      forall w | w in s'.workers
        ensures w in s.workers && TaskOf(s'.workers[w]) == TaskOf(s.workers[w])
      {
        WorkersOnlyMove(max, s, step, now, w);
      }
      FewerWorkersKeep(s.db.entries, s.workers, s'.workers);
      if IsSave(s, step) {
        SaveKeepsWorkers(max, s, step.w, now);
      } else {
        OtherStepsKeepResults(max, s, step, now);
        GrowthKeepsWorkers(s.db.entries, s'.db.entries, s'.workers);
      }
    }
  }

  lemma SaveKeepsWorkers(max: nat, s: Sys, w: nat, now: Timestamp)
    requires OneWorkerEach(s.db.entries, s.workers) && w in s.workers && s.workers[w].Saving?
    ensures
      var s' := Next(max, s, PersistStep(w), now);
      OneWorkerEach(s'.db.entries, s'.workers)
  {
    SaveWritesOwnResult(max, s, w, now);
    hide Next;
    var s' := Next(max, s, PersistStep(w), now);
    forall v | v in s'.workers
      ensures WorkerHasStarted(s'.db.entries, s'.workers[v])
    {
      assert WorkerHasStarted(s.db.entries, s.workers[v]);
    }
  }

  lemma {:induction false} RunKeepsWorkers(max: nat, s: Sys, steps: Run)
    requires SysOk(max, s) && IsRun(max, s, steps) && OneWorkerEach(s.db.entries, s.workers)
    ensures
      var s' := From(max, s, steps);
      SysOk(max, s') && OneWorkerEach(s'.db.entries, s'.workers)
  {
    hide SysOk, Next, OneWorkerEach, Permitted;
    if steps != [] {
      RunPrefix(max, s, steps);
      var n := |steps| - 1;
      RunKeepsWorkers(max, s, steps[..n]);
      StepKeepsWorkers(max, From(max, s, steps[..n]), steps[n].0, steps[n].1);
      StepKeeps(max, From(max, s, steps[..n]), steps[n].0, steps[n].1);
    }
  }

  lemma {:induction false} RunPrefix(max: nat, s: Sys, steps: Run)
    requires IsRun(max, s, steps) && steps != []
    ensures IsRun(max, s, steps[..|steps| - 1])
    ensures Permitted(From(max, s, steps[..|steps| - 1]), steps[|steps| - 1].0)
  {
    hide Permitted, From;
    var init := steps[..|steps| - 1];
    assert forall i :: 0 <= i < |init| ==> init[..i] == steps[..i];
  }

  // ---- Results ----------------------------------------------------------

  lemma StepKeepsResult(max: nat, s: Sys, step: Step, now: Timestamp, id: nat)
    requires SysOk(max, s) && Permitted(s, step) && OneWorkerEach(s.db.entries, s.workers)
    requires id < |s.db.entries| && s.db.entries[id].task.result.Some?
    ensures
      var s' := Next(max, s, step, now);
      id < |s'.db.entries| && s'.db.entries[id].task.result == s.db.entries[id].task.result
  {
    hide SysOk, Next;
    if IsSave(s, step) {
      assert WorkerHasStarted(s.db.entries, s.workers[step.w]);
      SaveWritesOwnResult(max, s, step.w, now);
    } else {
      OtherStepsKeepResults(max, s, step, now);
    }
  }

  lemma {:induction false} RunKeepsResult(max: nat, s: Sys, steps: Run, id: nat)
    requires SysOk(max, s) && IsRun(max, s, steps) && OneWorkerEach(s.db.entries, s.workers)
    requires id < |s.db.entries| && s.db.entries[id].task.result.Some?
    ensures
      var s' := From(max, s, steps);
      id < |s'.db.entries| && s'.db.entries[id].task.result == s.db.entries[id].task.result
  {
    hide SysOk, Next, OneWorkerEach, Permitted;
    if steps != [] {
      RunPrefix(max, s, steps);
      var n := |steps| - 1;
      RunKeepsWorkers(max, s, steps[..n]);
      RunKeepsResult(max, s, steps[..n], id);
      StepKeepsResult(max, From(max, s, steps[..n]), steps[n].0, steps[n].1, id);
    }
  }

  /** A stored result is never written again, whatever runs, retries or cancels follow. */
  lemma {:induction false} ResultIsWrittenOnce(max: nat, before: Run, after: Run, id: nat)
    requires IsRun(max, INITIAL, before) && IsRun(max, From(max, INITIAL, before), after)
    requires
      var entries := From(max, INITIAL, before).db.entries;
      id < |entries| && entries[id].task.result.Some?
    ensures
      var s := From(max, INITIAL, before);
      var s' := From(max, s, after);
      id < |s'.db.entries| && s'.db.entries[id].task.result == s.db.entries[id].task.result
  {
    hide SysOk, From, IsRun;
    InitialIsOk(max);
    RunKeepsWorkers(max, INITIAL, before);
    RunKeepsResult(max, From(max, INITIAL, before), after, id);
  }

  lemma InitialIsOk(max: nat)
    ensures SysOk(max, INITIAL) && OneWorkerEach(INITIAL.db.entries, INITIAL.workers)
  {
    EmptyIsOk();
  }

  // ---- Waiting tasks ----------------------------------------------------

  ghost predicate WaitsOrCancelled(s: Sys, id: nat) {
    id < |s.db.entries| && (s.db.entries[id].task.status.WaitingDirectoryLock? || s.db.entries[id].task.status.Cancelled?)
  }

  /** The step does not admit the task while its grant asks for no lock. */
  ghost predicate AsksForLock(s: Sys, step: Step, id: nat) {
    step.AdmitStep? && step.admitted == id && id < |s.db.entries| ==> NeedsSomeLock(s.db.entries[id].task, s.grants)
  }

  ghost predicate NeedsSomeLock(task: Task, grants: GrantTable) {
    task.spec.directoryId in grants ==> !LockModeOf(task, grants[task.spec.directoryId]).NoLock?
  }

  lemma AdmissionLeavesWaiting(max: nat, db: Db, grants: GrantTable, id: nat, runtime: RuntimeSearch, prepared: bool, now: Timestamp)
    requires id < |db.entries| && Numbered(db.entries[id].log, id)
    requires WaitsOrCancelled(Sys(db, grants, map[]), id) && NeedsSomeLock(db.entries[id].task, grants)
    ensures
      var r := Admit(db, grants, max, id, runtime, prepared, now);
      r.result.Err? && id < |r.db.entries| && r.db.entries[id].task == db.entries[id].task
  {
    hide TryAcquire, PrepareWorkspace, MarkRunning, Conflicts, ActiveCount, LockModeOf, Numbered, LockIsFree;
    if db.entries[id].task.status.WaitingDirectoryLock? && db.entries[id].task.spec.directoryId in grants {
      TryAcquireSucceedsExactly(max, db, grants, id, now);
    }
  }

  /** The task's row after a step that is about other tasks, or about none. */
  ghost predicate RowStays(db: Db, db': Db, id: nat) {
    id < |db.entries| && id < |db'.entries| && db'.entries[id].task == db.entries[id].task
  }

  lemma StatusOfOthersStays(db: Db, other: nat, next: TaskStatus, payload: Payload, now: Timestamp, id: nat)
    requires StoreOk(db) && id < |db.entries| && other != id
    ensures RowStays(db, ChangeStatus(db, other, next, payload, now).db, id)
  {
    OkIsNumbered(db, other);
    hide StoreOk;
    if other < |db.entries| {
      hide ChangeStatus;
      ChangeStatusTouches(db, other, next, payload, now);
    }
  }

  lemma AdmissionOfOthersStays(
      max: nat, db: Db, grants: GrantTable, other: nat, runtime: RuntimeSearch, prepared: bool, now: Timestamp, id: nat)
    requires StoreOk(db) && id < |db.entries| && other != id
    ensures RowStays(db, Admit(db, grants, max, other, runtime, prepared, now).db, id)
  {
    OkIsNumbered(db, other);
    hide StoreOk;
    if other < |db.entries| {
      hide Admit;
      AdmitSucceedsExactly(max, db, grants, other, runtime, prepared, now);
    }
  }

  lemma EnqueueLeavesRows(db: Db, grants: GrantTable, profile: Option<Profile>, input: CreateTask, now: Timestamp, id: nat)
    requires SoundTable(grants) && id < |db.entries|
    ensures RowStays(db, Enqueue(db, grants, profile, input, now).db, id)
  {
    hide Enqueue, SoundTable, PreChecks;
    EnqueueCreatesExactlyCoveredTasks(db, grants, profile, input, now);
    var entries' := Enqueue(db, grants, profile, input, now).db.entries;
    assert entries' != db.entries ==> entries'[id] == entries'[..|db.entries|][id];
  }

  lemma CancelLeavesWaiting(db: Db, other: nat, now: Timestamp, id: nat)
    requires StoreOk(db) && id < |db.entries| && db.entries[id].task.status.WaitingDirectoryLock?
    ensures
      var db' := CancelTask(db, other, now).db;
      RowStays(db, db', id) || (id < |db'.entries| && db'.entries[id].task.status.Cancelled?)
  {
    OkIsNumbered(db, id);
    hide StoreOk, ChangeStatus;
    if other == id {
      CancelEndsTask(db, id, now);
    } else {
      StatusOfOthersStays(db, other, Cancelled, EmptyObject, now, id);
    }
  }

  /** Only a worker of the task, a cancel or an admission could move it, and the first
      does not exist and the last gets nowhere. */
  lemma StepLeavesWaiting(max: nat, s: Sys, step: Step, now: Timestamp, id: nat)
    requires SysOk(max, s) && Permitted(s, step) && OneWorkerEach(s.db.entries, s.workers)
    requires WaitsOrCancelled(s, id) && s.db.entries[id].task.status.WaitingDirectoryLock? && AsksForLock(s, step, id)
    ensures
      var s' := Next(max, s, step, now);
      || RowStays(s.db, s'.db, id)
      || (id < |s'.db.entries| && s'.db.entries[id].task.status.Cancelled?)
  {
    OkIsNumbered(s.db, id);
    hide StoreOk, Admit, ChangeStatus, Enqueue, AppendEvent, RecordPermission, ResolvePermission, Apply, SoundTable, LocksOwned, ResultsMatch, ActiveCount, LockModeOf, CancelTask;
    match step
    case EnqueueStep(profile, input) => EnqueueLeavesRows(s.db, s.grants, profile, input, now, id);
    case AdmitStep(_, other, runtime, prepared) =>
      if other == id {
        AdmissionLeavesWaiting(max, s.db, s.grants, id, runtime, prepared, now);
      } else {
        AdmissionOfOthersStays(max, s.db, s.grants, other, runtime, prepared, now, id);
      }
    case PersistStep(w) =>
      if w in s.workers { WorkerLeavesWaiting(max, s, w, now, id); }
    case CancelStep(other) => CancelLeavesWaiting(s.db, other, now, id);
    case RequestStep(asker, request) => RecordPermissionKeeps(s.db, asker, request, now);
    case AnswerStep(asker, requestId, decision, reason) => ResolvePermissionKeeps(s.db, asker, requestId, decision, reason, now);
    case _ =>
  }

  lemma WorkerLeavesWaiting(max: nat, s: Sys, w: nat, now: Timestamp, id: nat)
    requires StoreOk(s.db) && WorkersOk(s.db.entries, s.workers) && OneWorkerEach(s.db.entries, s.workers) && w in s.workers
    requires id < |s.db.entries| && s.db.entries[id].task.status.WaitingDirectoryLock?
    ensures RowStays(s.db, Persist(s, w, now).db, id)
  {
    hide StoreOk, ChangeStatus, AppendEvent;
    assert WorkerHasStarted(s.db.entries, s.workers[w]) && WorkerOk(s.db.entries, s.workers[w]);
    match s.workers[w]
    case Persisting(other, output, status, error, _) =>
      if output != [] {
        AppendOutputKeeps(s.db, other, output[0].0, output[0].1, now);
      } else {
        StatusOfOthersStays(s.db, other, status, error, now, id);
      }
    case _ =>
  }

  lemma StepKeepsWaiting(max: nat, s: Sys, step: Step, now: Timestamp, id: nat)
    requires SysOk(max, s) && Permitted(s, step) && OneWorkerEach(s.db.entries, s.workers)
    requires WaitsOrCancelled(s, id) && AsksForLock(s, step, id)
    ensures WaitsOrCancelled(Next(max, s, step, now), id)
  {
    StepKeeps(max, s, step, now);
    assert EntryGrows(s.db.entries[id], Next(max, s, step, now).db.entries[id]);
    if s.db.entries[id].task.status.WaitingDirectoryLock? {
      StepLeavesWaiting(max, s, step, now, id);
    }
  }

  lemma {:induction false} RunKeepsWaiting(max: nat, s: Sys, steps: Run, id: nat)
    requires SysOk(max, s) && IsRun(max, s, steps) && OneWorkerEach(s.db.entries, s.workers)
    requires WaitsOrCancelled(s, id) && forall i :: 0 <= i < |steps| ==> AsksForLock(From(max, s, steps[..i]), steps[i].0, id)
    ensures WaitsOrCancelled(From(max, s, steps), id)
  {
    hide SysOk, Next, OneWorkerEach, Permitted, WaitsOrCancelled, AsksForLock;
    if steps != [] {
      RunPrefix(max, s, steps);
      var n := |steps| - 1;
      assert forall i :: 0 <= i < n ==> steps[..n][..i] == steps[..i] && steps[..n][i] == steps[i];
      RunKeepsWorkers(max, s, steps[..n]);
      RunKeepsWaiting(max, s, steps[..n], id);
      StepKeepsWaiting(max, From(max, s, steps[..n]), steps[n].0, steps[n].1, id);
    }
  }

  /** A task that waits never runs as long as it is not admitted under a grant that asks
      for no lock: in every later state it still waits or has been cancelled, whatever else
      runs and whatever becomes of its grant. */
  lemma {:induction false} WaitingTaskNeverRuns(max: nat, before: Run, after: Run, id: nat)
    requires IsRun(max, INITIAL, before) && IsRun(max, From(max, INITIAL, before), after)
    requires WaitsOrCancelled(From(max, INITIAL, before), id)
    requires
      var s := From(max, INITIAL, before);
      forall i :: 0 <= i < |after| ==> AsksForLock(From(max, s, after[..i]), after[i].0, id)
    ensures WaitsOrCancelled(From(max, From(max, INITIAL, before), after), id)
  {
    hide SysOk, From, IsRun, OneWorkerEach, AsksForLock, WaitsOrCancelled;
    InitialIsOk(max);
    RunKeepsWorkers(max, INITIAL, before);
    RunKeepsWaiting(max, From(max, INITIAL, before), after, id);
  }

  // ---- A run that strands a lock ----------------------------------------

  lemma {:induction false} FromOneMore(max: nat, steps: Run, step: Step)
    requires IsRun(max, INITIAL, steps) && Permitted(From(max, INITIAL, steps), step)
    ensures IsRun(max, INITIAL, steps + [(step, 0)])
    ensures From(max, INITIAL, steps + [(step, 0)]) == Next(max, From(max, INITIAL, steps), step, 0)
  {
    hide Permitted, Next;
    var longer := steps + [(step, 0)];
    assert longer[..|longer| - 1] == steps;
    forall i | 0 <= i < |longer|
      ensures Permitted(From(max, INITIAL, longer[..i]), longer[i].0)
    {
      assert i < |steps| ==> longer[..i] == steps[..i];
    }
  }

  lemma {:induction false} WriterEnqueued(before: Run) returns (steps: Run)
    requires IsRun(2, INITIAL, before) && From(2, INITIAL, before).grants == GrantsWith(true)
    ensures IsRun(2, INITIAL, steps)
    ensures
      var s := From(2, INITIAL, before);
      From(2, INITIAL, steps) == s.(db := s.db.(entries := s.db.entries + [NewEntry(|s.db.entries|, Write)]))
  {
    hide From, IsRun, GrantsWith, Enqueue, NewEntry, TaskRequest;
    RequestIsEnqueued(From(2, INITIAL, before).db, true, Write);
    FromOneMore(2, before, EnqueueStep(Some(PROFILE), TaskRequest(Write)));
    steps := before + [(EnqueueStep(Some(PROFILE), TaskRequest(Write)), 0)];
  }

  lemma {:induction false} TwoWritersQueued() returns (steps: Run)
    ensures IsRun(2, INITIAL, steps)
    ensures From(2, INITIAL, steps) == Sys(Db([NewEntry(0, Write), NewEntry(1, Write)], map[], map[]), GrantsWith(true), map[])
  {
    hide From, IsRun, GrantsWith, NewEntry, Next, Permitted;
    NothingHasHappened();
    FirstGrant();
    FromOneMore(2, [], GrantStep(GrantCreation(true)));
    steps := [] + [(GrantStep(GrantCreation(true)), 0)];
    steps := WriterEnqueued(steps);
    steps := WriterEnqueued(steps);
  }

  lemma NothingHasHappened()
    ensures IsRun(2, INITIAL, []) && From(2, INITIAL, []) == INITIAL
  {
  }

  lemma FirstGrant()
    ensures Permitted(INITIAL, GrantStep(GrantCreation(true)))
    ensures Next(2, INITIAL, GrantStep(GrantCreation(true)), 0) == Sys(EMPTY_DB, GrantsWith(true), map[])
  {
    hide PolicyFromCreate;
  }

  /** Two tasks that need the one directory's lock for themselves, and how far they have come. */
  ghost predicate Writers(s: Sys, first: TaskStatus, second: TaskStatus) {
    && "d" in s.grants
    && |s.db.entries| == 2
    && s.db.entries[0].task.status == first && NeedsLock(s.db.entries[0], 0, s.grants["d"])
    && s.db.entries[1].task.status == second && NeedsLock(s.db.entries[1], 1, s.grants["d"])
  }

  ghost predicate NeedsLock(entry: Entry, id: nat, grant: Grant) {
    && entry.task.spec.directoryId == "d" && Write in entry.task.spec.requiredCapabilities
    && LockModeOf(entry.task, grant) == Exclusive && Numbered(entry.log, id)
  }

  lemma NewWriterNeedsLock(id: nat)
    ensures "d" in GrantsWith(true)
    ensures NewEntry(id, Write).task.status == Queued && NeedsLock(NewEntry(id, Write), id, GrantsWith(true)["d"])
  {
    hide NewEntry, GrantsWith, LockModeOf;
    LockOfRequest(true, Write, id);
    NewEntryIsQueued(id, Write);
  }

  /** Touching a task's row leaves the lock it needs. */
  lemma TouchesKeepsNeeds(db: Db, db': Db, id: nat, grant: Grant)
    requires Touches(db, db', id) && |db.entries| == 2
    requires NeedsLock(db.entries[0], 0, grant) && NeedsLock(db.entries[1], 1, grant)
    ensures |db'.entries| == 2 && NeedsLock(db'.entries[0], 0, grant) && NeedsLock(db'.entries[1], 1, grant)
    ensures db'.entries[1 - id].task.status == db.entries[1 - id].task.status
  {
    hide ModeForCapabilities;
  }

  lemma CountOfTwo(entries: seq<Entry>)
    requires |entries| == 2
    ensures ActiveCount(entries) == Weight(entries[0]) + Weight(entries[1])
  {
    assert ActiveCount(entries[..1]) == ActiveCount(entries[..1][..0]) + Weight(entries[0]);
    assert ActiveCount(entries) == ActiveCount(entries[..1]) + Weight(entries[1]);
  }

  const FIRST_KEY := LockKey("d", 0)
  const SECOND_KEY := LockKey("d", 1)

  /** The first runs with the lock, the second waits for it. */
  lemma {:induction false} SecondWritersWaits() returns (steps: Run)
    ensures IsRun(2, INITIAL, steps)
    ensures
      var s := From(2, INITIAL, steps);
      && Writers(s, Running, WaitingDirectoryLock)
      && s.grants == GrantsWith(true)
      && s.db.locks == map[FIRST_KEY := Lock(Exclusive, true, 0, None)]
      && s.workers == map[0 := Executing(0)]
  {
    hide From, IsRun, GrantsWith, Admit, Touches, NewEntry, ActiveCount, LockModeOf;
    steps := TwoWritersQueued();
    var s := From(2, INITIAL, steps);
    NewWriterNeedsLock(0);
    NewWriterNeedsLock(1);
    FirstWriterRuns(s);
    FromOneMore(2, steps, AdmitStep(0, 0, Found, true));
    steps := steps + [(AdmitStep(0, 0, Found, true), 0)];
    var s1 := From(2, INITIAL, steps);
    SecondWriterIsRefused(s1);
    FromOneMore(2, steps, AdmitStep(1, 1, Found, true));
    steps := steps + [(AdmitStep(1, 1, Found, true), 0)];
  }

  lemma FirstWriterRuns(s: Sys)
    requires Writers(s, Queued, Queued) && s.db.locks == map[] && s.workers == map[]
    ensures
      var s' := Next(2, s, AdmitStep(0, 0, Found, true), 0);
      && Writers(s', Running, Queued)
      && s'.db.locks == map[FIRST_KEY := Lock(Exclusive, true, 0, None)]
      && s'.workers == map[0 := Executing(0)]
  {
    CountOfTwo(s.db.entries);
    hide LockModeOf, Admit, ActiveCount, Touches;
    assert s.db.entries[0].task.spec.directoryId == "d" && LockModeOf(s.db.entries[0].task, s.grants["d"]) == Exclusive;
    AdmitSucceedsExactly(2, s.db, s.grants, 0, Found, true, 0);
    TouchesKeepsNeeds(s.db, Admit(s.db, s.grants, 2, 0, Found, true, 0).db, 0, s.grants["d"]);
  }

  lemma SecondWriterIsRefused(s: Sys)
    requires Writers(s, Running, Queued)
    requires s.db.locks == map[FIRST_KEY := Lock(Exclusive, true, 0, None)]
    ensures
      var s' := Next(2, s, AdmitStep(1, 1, Found, true), 0);
      && Writers(s', Running, WaitingDirectoryLock)
      && s'.db.locks == s.db.locks
      && s'.workers == s.workers
  {
    hide LockModeOf, TryAcquire, ActiveCount, Touches;
    assert FIRST_KEY in s.db.locks && Conflicts(s.db.locks, "d", Exclusive);
    TryAcquireSucceedsExactly(2, s.db, s.grants, 1, 0);
    TouchesKeepsNeeds(s.db, TryAcquire(s.db, s.grants, 2, 1, "d", 0).db, 1, s.grants["d"]);
  }

  /** Under a limit of two: one writer runs while a second is made to wait, and ends.
      Admitting the second again leaves it waiting with the lock held, which keeps
      everybody else off the directory for as long as nobody cancels it. */
  lemma {:induction false} RetryStrandsLock() returns (steps: Run)
    ensures IsRun(2, INITIAL, steps)
    ensures
      var s := From(2, INITIAL, steps);
      && Writers(s, Completed, WaitingDirectoryLock)
      && Holds(s.db.locks, SECOND_KEY) && s.db.locks[SECOND_KEY].mode.Exclusive?
      && WaitsOrCancelled(s, 1)
  {
    hide From, IsRun, GrantsWith, Admit, Touches, NewEntry, ActiveCount, LockModeOf, ChangeStatus;
    hide Enqueue, CancelTask, Apply, RecordPermission, ResolvePermission, AppendEvent;
    steps := SecondWritersWaits();
    FromOneMore(2, steps, OutcomeStep(0, [], Completed, EmptyObject, "done"));
    steps := steps + [(OutcomeStep(0, [], Completed, EmptyObject, "done"), 0)];
    var s := From(2, INITIAL, steps);
    FirstWriterEnds(s);
    FromOneMore(2, steps, PersistStep(0));
    steps := steps + [(PersistStep(0), 0)];
    var s1 := From(2, INITIAL, steps);
    SecondWriterRetries(s1);
    FromOneMore(2, steps, AdmitStep(1, 1, Found, true));
    steps := steps + [(AdmitStep(1, 1, Found, true), 0)];
  }

  lemma FirstWriterEnds(s: Sys)
    requires Writers(s, Running, WaitingDirectoryLock)
    requires s.db.locks == map[FIRST_KEY := Lock(Exclusive, true, 0, None)]
    requires s.workers == map[0 := Persisting(0, [], Completed, EmptyObject, "done")]
    ensures
      var s' := Next(2, s, PersistStep(0), 0);
      && Writers(s', Completed, WaitingDirectoryLock)
      && (forall k :: k in s'.db.locks ==> !s'.db.locks[k].held)
      && s'.workers.Keys == {0}
  {
    hide LockModeOf, ChangeStatus, Touches;
    ChangeStatusTouches(s.db, 0, Completed, EmptyObject, 0);
    TouchesKeepsNeeds(s.db, ChangeStatus(s.db, 0, Completed, EmptyObject, 0).db, 0, s.grants["d"]);
  }

  lemma SecondWriterRetries(s: Sys)
    requires Writers(s, Completed, WaitingDirectoryLock)
    requires forall k :: k in s.db.locks ==> !s.db.locks[k].held
    ensures
      var s' := Next(2, s, AdmitStep(1, 1, Found, true), 0);
      && Writers(s', Completed, WaitingDirectoryLock)
      && Holds(s'.db.locks, SECOND_KEY) && s'.db.locks[SECOND_KEY].mode.Exclusive?
      && WaitsOrCancelled(s', 1)
  {
    CountOfTwo(s.db.entries);
    hide LockModeOf, Admit, ActiveCount;
    FailedAdmissionStrandsLockExactly(2, s.db, s.grants, 1, Found, true, 0);
  }
}
