/** What single store calls answer and write, said without the functions they are made of. */
module StoreAnswers {
  import opened Results
  import opened Lifecycle
  import opened TaskModel
  import opened Store
  import opened StoreInvariants

  /** A time that was recorded stays; otherwise it is recorded when its moment comes. */
  predicate IsStamped(stamp: Option<Timestamp>, before: Option<Timestamp>, due: bool, now: Timestamp) {
    if before != None then stamp == before else if due then stamp == Some(now) else stamp == None
  }

  /** The row has moved: its status and its times, and nothing of what it is. */
  predicate IsMovedRow(task': Task, task: Task, next: TaskStatus, now: Timestamp) {
    && task' == Task(task.spec, next, task'.stamps, task.result, now)
    && IsStamped(task'.stamps.startedAt, task.stamps.startedAt, next == Running, now)
    && IsStamped(task'.stamps.completedAt, task.stamps.completedAt, next == Completed, now)
    && IsStamped(task'.stamps.cancelledAt, task.stamps.cancelledAt, next == Cancelled, now)
    && IsStamped(task'.stamps.failedAt, task.stamps.failedAt, next == Failed || next == TimedOut, now)
  }

  /** The task's held locks are given back, as of now; all other lock rows stay. */
  ghost predicate IsReleased(locks': LockTable, locks: LockTable, id: nat, now: Timestamp) {
    && locks'.Keys == locks.Keys
    && forall k :: k in locks ==>
         locks'[k] == if k.taskId == id && locks[k].held then Lock(locks[k].mode, false, locks[k].createdAt, Some(now)) else locks[k]
  }

  lemma ReleaseFreesExactly(db: Db, id: nat, now: Timestamp)
    ensures
      var db' := ReleaseLocks(db, id, now);
      IsReleased(db'.locks, db.locks, id, now) && db' == db.(locks := db'.locks)
  {
  }

  lemma RowMoves(task: Task, next: TaskStatus, now: Timestamp)
    ensures IsMovedRow(WithStatus(task, next, now), task, next, now)
  {
  }

  /** A transition of an existing task: the row moves along the lifecycle, its event is
      logged under the next number, and an end gives its locks back, all or nothing. */
  lemma TransitionAnswers(db: Db, id: nat, next: TaskStatus, payload: Payload, now: Timestamp)
    requires id < |db.entries| && Numbered(db.entries[id].log, id)
    ensures
      var task, log := db.entries[id].task, db.entries[id].log;
      var r := ChangeStatus(db, id, next, payload, now);
      if Allowed(task.status, next) then
        && r.result.Ok? && IsMovedRow(r.result.value, task, next, now)
        && r.db == Db(
             db.entries[id := Entry(r.result.value, log + [Event(id, |log| + 1, EventTypeForStatus(next), payload, now)])],
             r.db.locks, db.permissions)
        && (if next.IsTerminal() then IsReleased(r.db.locks, db.locks, id, now) else r.db.locks == db.locks)
      else
        && r.db == db
        && r.result == (if !task.status.IsTerminal() then Err(State(InvalidTransition))
                        else if next == task.status then Ok(task) else Err(State(AlreadyTerminal)))
  {
    NumberedSequences(db.entries[id].log, id);
    TransitionIsJudged(db.entries[id].task.status, next);
    RowMoves(db.entries[id].task, next, now);
    ReleaseFreesExactly(db, id, now);
    hide WithStatus, IsMovedRow, IsReleased, ReleaseHeld, Allowed, ValidateTransition, SequenceTaken, Numbered;
  }

  /** What is asked of a task that does not exist is refused, and nothing changes. */
  lemma MissingTasksAreRefused(
      db: Db, id: nat, next: TaskStatus, eventType: EventType, payload: Payload,
      request: PermissionRequest, decision: Decision, reason: Option<string>, now: Timestamp)
    requires id >= |db.entries|
    ensures ChangeStatus(db, id, next, payload, now) == Reply(db, Err(TaskNotFound))
    ensures AppendEvent(db, id, eventType, payload, now) == Reply(db, Err(TaskNotFound))
    ensures RecordPermission(db, id, request, now) == Reply(db, Err(TaskNotFound))
    ensures ResolvePermission(db, id, request.requestId, decision, reason, now) == Reply(db, Err(TaskNotFound))
    ensures forall status, message :: SaveResult(db, TaskResult(id, status, message), now) == db
  {
  }

  /** A result replaces the task's stored one, and nothing else but the time of the update. */
  lemma ResultIsStored(db: Db, result: TaskResult, now: Timestamp)
    requires result.taskId < |db.entries|
    ensures
      var entry := db.entries[result.taskId];
      SaveResult(db, result, now) == db.(entries := db.entries[result.taskId :=
        Entry(Task(entry.task.spec, entry.task.status, entry.task.stamps, Some(result), now), entry.log)])
  {
  }

  /** Recording a request adds its event and its pending row. */
  lemma RequestIsRecorded(db: Db, id: nat, request: PermissionRequest, now: Timestamp)
    requires id < |db.entries| && Numbered(db.entries[id].log, id) && request.requestId !in db.permissions
    ensures
      var entry := db.entries[id];
      var event := Event(id, |entry.log| + 1, ProviderPermissionRequested, RequestPayload(request), now);
      RecordPermission(db, id, request, now) == Reply(
        Db(db.entries[id := Entry(entry.task, entry.log + [event])], db.locks,
           db.permissions[request.requestId := PermissionRecord(id, |entry.log| + 1, Pending, request, None, now, None)]),
        Ok(event))
  {
    NumberedSequences(db.entries[id].log, id);
  }

  /** A request id that is taken is refused, and nothing changes. */
  lemma TakenRequestIsRefused(db: Db, id: nat, request: PermissionRequest, now: Timestamp)
    requires id < |db.entries| && request.requestId in db.permissions
    ensures RecordPermission(db, id, request, now) == Reply(db, Err(Store(UniqueViolation)))
  {
  }
}
