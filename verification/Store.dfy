/**
 The task database as a value: the task rows, each task's event rows, the
 directory locks and the permission requests, with one function per store call.
 A task id is the index of its row; task rows are never deleted.
 */
module Store {
  import opened Results
  import opened Lifecycle
  import opened TaskModel
  import opened Directory
  import opened Locks

  datatype Decision = Approve | Deny

  datatype PermissionRequest = PermissionRequest(requestId: string, providerId: string, kind: string, summary: string)

  datatype PermissionResponse = PermissionResponse(requestId: string, decision: Decision, reason: Option<string>)

  /** A provider's own frame may name a request and a decision, or neither; it is told
      from a decision the store wrote by the type it carries. */
  datatype Payload =
    | EmptyObject
    | Opaque(text: string)
    | RequestPayload(request: PermissionRequest)
    | DecisionPayload(response: PermissionResponse)
    | ProviderFrame(requestId: Option<string>, decision: Option<Decision>, reason: Option<string>)

  datatype Event = Event(taskId: nat, sequence: int, eventType: EventType, payload: Payload, createdAt: Timestamp)

  type Log = seq<Event>

  /** A task row together with the event rows of that task, in insertion order. */
  datatype Entry = Entry(task: Task, log: Log)

  datatype LockKey = LockKey(directoryId: string, taskId: nat)

  datatype Lock = Lock(mode: LockMode, held: bool, createdAt: Timestamp, releasedAt: Option<Timestamp>)

  type LockTable = map<LockKey, Lock>

  datatype RequestStatus = Pending | Approved | Denied

  datatype PermissionRecord = PermissionRecord(
    taskId: nat,
    sequence: int,
    status: RequestStatus,
    request: PermissionRequest,
    response: Option<PermissionResponse>,
    requestedAt: Timestamp,
    respondedAt: Option<Timestamp>)

  datatype Db = Db(entries: seq<Entry>, locks: LockTable, permissions: map<string, PermissionRecord>)

  const EMPTY_DB := Db([], map[], map[])

  datatype StoreFailure = UniqueViolation | LookupFailed | ResolvedMissingResponse | ResolvedMissingEvent

  datatype StoreError =
    | TaskNotFound
    | PermissionRequestNotFound
    | PermissionRequestAlreadyResolved
    | Model(model: ModelError)
    | State(state: StateError)
    | Store(failure: StoreFailure)

  /** What a store call leaves in the database and returns. */
  datatype Reply<+T> = Reply(db: Db, result: Result<T, StoreError>)

  // ---- Event rows -------------------------------------------------------

  function MaxSequence(log: Log): int {
    if log == [] then 0
    else
      var rest, last := MaxSequence(log[..|log| - 1]), log[|log| - 1].sequence;
      if last > rest then last else rest
  }

  function NextSequence(log: Log): int {
    MaxSequence(log) + 1
  }

  /** UNIQUE(task_id, sequence) would refuse a row with this number. */
  predicate SequenceTaken(log: Log, sequence: int) {
    exists e | e in log :: e.sequence == sequence
  }

  /** The rows numbered above the cursor. */
  function EventsAfter(log: Log, cursor: int): Log {
    if log == [] then []
    else EventsAfter(log[..|log| - 1], cursor) +
         (if log[|log| - 1].sequence > cursor then [log[|log| - 1]] else [])
  }

  function WithEvent(entry: Entry, id: nat, sequence: int, eventType: EventType, payload: Payload, now: Timestamp): Entry {
    entry.(log := entry.log + [Event(id, sequence, eventType, payload, now)])
  }

  // ---- Task rows --------------------------------------------------------

  function NewTask(input: CreateTask, now: Timestamp): Task {
    Task(
      TaskSpec(
        input.ownerProductId, input.agentId, input.directoryId, RequiredCapabilities(input),
        if input.workspaceMode.Some? then input.workspaceMode.value else Worktree,
        input.directOptIn, input.prompt, input.metadata,
        if input.providerId.Some? then input.providerId.value else "",
        if input.model.Some? then input.model.value else "",
        if input.permissionMode.Some? then input.permissionMode.value else "provider_default",
        input.timeoutSeconds, now),
      Queued, Stamps(None, None, None, None), None, now)
  }

  function CreateRow(db: Db, input: CreateTask, now: Timestamp): Reply<nat> {
    match Validate(input)
    case Some(e) => Reply(db, Err(Model(e)))
    case None =>
      var id := |db.entries|;
      var entry := Entry(NewTask(input, now), [Event(id, 1, TaskQueued, EmptyObject, now)]);
      Reply(db.(entries := db.entries + [entry]), Ok(id))
  }

  function Coalesce(stored: Option<Timestamp>, stamp: bool, now: Timestamp): Option<Timestamp> {
    if stored.Some? then stored else if stamp then Some(now) else None
  }

  function Stamp(stamps: Stamps, next: TaskStatus, now: Timestamp): Stamps {
    Stamps(
      Coalesce(stamps.startedAt, next.Running?, now),
      Coalesce(stamps.completedAt, next.Completed?, now),
      Coalesce(stamps.cancelledAt, next.Cancelled?, now),
      Coalesce(stamps.failedAt, next.Failed? || next.TimedOut?, now))
  }

  /** The row update of a transition. */
  function WithStatus(task: Task, next: TaskStatus, now: Timestamp): Task {
    Task(task.spec, next, Stamp(task.stamps, next, now), task.result, now)
  }

  function ReleaseHeld(locks: LockTable, id: nat, now: Timestamp): LockTable {
    map k | k in locks ::
      if k.taskId == id && locks[k].held then locks[k].(held := false, releasedAt := Some(now)) else locks[k]
  }

  /** The transaction of a transition, given the event number read beforehand:
      all of row update, event row and lock release, or nothing. */
  function CommitTransition(
      db: Db, id: nat, next: TaskStatus, sequence: int, payload: Payload, now: Timestamp): Option<Db>
    requires id < |db.entries|
  {
    var entry := db.entries[id];
    if SequenceTaken(entry.log, sequence) then None
    else
      var updated := WithEvent(entry.(task := WithStatus(entry.task, next, now)), id, sequence, EventTypeForStatus(next), payload, now);
      Some(db.(
        entries := db.entries[id := updated],
        locks := if next.IsTerminal() then ReleaseHeld(db.locks, id, now) else db.locks))
  }

  function ChangeStatus(db: Db, id: nat, next: TaskStatus, payload: Payload, now: Timestamp): Reply<Task> {
    if id >= |db.entries| then Reply(db, Err(TaskNotFound))
    else
      var entry := db.entries[id];
      match ValidateTransition(entry.task.status, next)
      case Err(e) => Reply(db, Err(State(e)))
      case Ok(Idempotent) => Reply(db, Ok(entry.task))
      case Ok(Changed) =>
        match CommitTransition(db, id, next, NextSequence(entry.log), payload, now)
        case None => Reply(db, Err(Store(UniqueViolation)))
        case Some(db') => Reply(db', Ok(db'.entries[id].task))
  }

  /** The insert of an appended event, given the event number read beforehand. */
  function CommitEvent(
      db: Db, id: nat, eventType: EventType, sequence: int, payload: Payload, now: Timestamp): Option<Db>
    requires id < |db.entries|
  {
    if SequenceTaken(db.entries[id].log, sequence) then None
    else Some(db.(entries := db.entries[id := WithEvent(db.entries[id], id, sequence, eventType, payload, now)]))
  }

  function AppendEvent(db: Db, id: nat, eventType: EventType, payload: Payload, now: Timestamp): Reply<Event> {
    if id >= |db.entries| then Reply(db, Err(TaskNotFound))
    else
      var sequence := NextSequence(db.entries[id].log);
      match CommitEvent(db, id, eventType, sequence, payload, now)
      case None => Reply(db, Err(Store(UniqueViolation)))
      case Some(db') => Reply(db', Ok(Event(id, sequence, eventType, payload, now)))
  }

  function SaveResult(db: Db, result: TaskResult, now: Timestamp): Db {
    if result.taskId >= |db.entries| then db
    else
      var entry := db.entries[result.taskId];
      db.(entries := db.entries[result.taskId := entry.(task := entry.task.(result := Some(result), updatedAt := now))])
  }

  // ---- Permission requests ----------------------------------------------

  function RecordPermission(db: Db, id: nat, request: PermissionRequest, now: Timestamp): Reply<Event> {
    if id >= |db.entries| then Reply(db, Err(TaskNotFound))
    else
      var sequence := NextSequence(db.entries[id].log);
      if request.requestId in db.permissions then Reply(db, Err(Store(UniqueViolation)))
      else
        match CommitEvent(db, id, ProviderPermissionRequested, sequence, RequestPayload(request), now)
        case None => Reply(db, Err(Store(UniqueViolation)))
        case Some(db') =>
          Reply(db'.(permissions := db.permissions[request.requestId :=
                       PermissionRecord(id, sequence, Pending, request, None, now, None)]),
                Ok(Event(id, sequence, ProviderPermissionRequested, RequestPayload(request), now)))
  }

  function StatusFor(decision: Decision): RequestStatus {
    match decision case Approve => Approved case Deny => Denied
  }

  /** The request a payload names, as the query for a decision event reads it. */
  function NamedRequest(payload: Payload): Option<string> {
    match payload
    case DecisionPayload(response) => Some(response.requestId)
    case ProviderFrame(requestId, _, _) => requestId
    case _ => None
  }

  /** The payload read back as a decision, if it has the fields of one. */
  function AsDecision(payload: Payload): Option<PermissionResponse> {
    match payload
    case DecisionPayload(response) => Some(response)
    case ProviderFrame(Some(requestId), Some(decision), reason) => Some(PermissionResponse(requestId, decision, reason))
    case _ => None
  }

  predicate IsDecisionOn(e: Event, requestId: string) {
    e.eventType.ProviderPermissionDecided? && NamedRequest(e.payload) == Some(requestId)
  }

  /** A decision event the store wrote when it resolved the request. */
  predicate IsStoredDecision(e: Event, requestId: string) {
    e.eventType.ProviderPermissionDecided? && e.payload.DecisionPayload? && e.payload.response.requestId == requestId
  }

  /** What executions append: an outcome's events, none of them a decision the store wrote. */
  predicate IsRuntimeEvent(eventType: EventType, payload: Payload) {
    eventType.IsRuntimeOutput() && !payload.DecisionPayload?
  }

  /** The earliest decision event that names a request. */
  function FirstDecision(log: Log, requestId: string): Option<Event> {
    if log == [] then None
    else if IsDecisionOn(log[0], requestId) then Some(log[0])
    else FirstDecision(log[1..], requestId)
  }

  datatype Resolution = Resolution(status: RequestStatus, decision: Decision, event: Event, duplicated: bool)

  function ResolvePermission(
      db: Db, id: nat, requestId: string, decision: Decision, reason: Option<string>, now: Timestamp): Reply<Resolution>
  {
    if id >= |db.entries| then Reply(db, Err(TaskNotFound))
    else if requestId !in db.permissions || db.permissions[requestId].taskId != id then
      Reply(db, Err(PermissionRequestNotFound))
    else
      var record := db.permissions[requestId];
      var log := db.entries[id].log;
      if !record.status.Pending? then
        if record.response.None? then Reply(db, Err(Store(ResolvedMissingResponse)))
        else if record.response.value.decision != decision then Reply(db, Err(PermissionRequestAlreadyResolved))
        else
          (match FirstDecision(log, requestId)
           case None => Reply(db, Err(Store(ResolvedMissingEvent)))
           case Some(event) => Reply(db, Ok(Resolution(StatusFor(decision), decision, event, true))))
      else
        var response := PermissionResponse(requestId, decision, reason);
        var sequence := NextSequence(log);
        match CommitEvent(db, id, ProviderPermissionDecided, sequence, DecisionPayload(response), now)
        case None => Reply(db, Err(Store(UniqueViolation)))
        case Some(db') =>
          Reply(db'.(permissions := db.permissions[requestId :=
                       record.(status := StatusFor(decision), response := Some(response), respondedAt := Some(now))]),
                Ok(Resolution(StatusFor(decision), decision,
                              Event(id, sequence, ProviderPermissionDecided, DecisionPayload(response), now), false)))
  }

  // ---- Directory locks --------------------------------------------------

  predicate Conflicts(locks: LockTable, directoryId: string, mode: LockMode) {
    exists k | k in locks :: k.directoryId == directoryId && locks[k].held && (mode.Exclusive? || locks[k].mode.Exclusive?)
  }

  function WithLock(locks: LockTable, directoryId: string, id: nat, mode: LockMode, now: Timestamp): LockTable {
    locks[LockKey(directoryId, id) := Lock(mode, true, now, None)]
  }

  function AcquireLock(db: Db, directoryId: string, id: nat, mode: LockMode, now: Timestamp): (Db, bool) {
    if Conflicts(db.locks, directoryId, mode) then (db, false)
    else (db.(locks := WithLock(db.locks, directoryId, id, mode, now)), true)
  }

  function ReleaseLocks(db: Db, id: nat, now: Timestamp): Db {
    db.(locks := ReleaseHeld(db.locks, id, now))
  }
}
