/** Enqueueing, admission and outcome persistence, as functions of the database. */
module Scheduler {
  import opened Results
  import opened Lifecycle
  import opened TaskModel
  import opened Directory
  import opened Locks
  import opened Grants
  import opened Store

  /** The part of an agent profile that enqueueing reads. */
  datatype Profile = Profile(
    ownerProductId: string, providerId: string, model: string, permissionMode: string, allowDirect: bool)

  datatype ValidationError =
    | NoSuchTask
    | InvalidTaskInput
    | InvalidTaskPrompt
    | InvalidTaskState
    | AgentNotFound
    | DirectoryNotFound
    | AgentAuthorizationFailed
    | DirectoryAuthorizationFailed
    | CapabilityNotAllowed
    | WorkspaceModeNotAllowed
    | DirectModeRefused
    | ProviderOverrideNotAllowed
    | ModelOverrideNotAllowed
    | PermissionModeOverrideNotAllowed
    | DirectoryLockConflict
    | TaskAlreadyTerminal
    | RegistryFailed
    | RuntimeUnavailable
    | StoreFailed(failure: StoreFailure)

  datatype Outcome<+T> = Outcome(db: Db, result: Result<T, ValidationError>)

  function FromModel(e: ModelError): ValidationError {
    match e case InvalidPrompt => InvalidTaskPrompt case InvalidTask => InvalidTaskInput
  }

  function FromStore(e: StoreError): ValidationError {
    match e
    case TaskNotFound => NoSuchTask
    case PermissionRequestNotFound => InvalidTaskState
    case PermissionRequestAlreadyResolved => InvalidTaskState
    case Model(m) => FromModel(m)
    case State(AlreadyTerminal) => TaskAlreadyTerminal
    case State(InvalidTransition) => InvalidTaskState
    case Store(failure) => StoreFailed(failure)
  }

  function FromSecurity(e: SecurityError): ValidationError {
    match e
    case DirectModeNotAllowed => DirectModeRefused
    case AuthorizationFailed => DirectoryAuthorizationFailed
    case InvalidCapability => CapabilityNotAllowed
    case _ => WorkspaceModeNotAllowed
  }

  // ---- Enqueue ----------------------------------------------------------

  function SelectWorkspaceMode(
      requested: Option<WorkspaceMode>, policy: GrantPolicy, directOptIn: bool): Result<WorkspaceMode, ValidationError>
  {
    var mode := if requested.Some? then requested.value else policy.defaultWorkspaceMode;
    if mode !in policy.workspaceModes then
      Err(if mode.Direct? then DirectModeRefused else WorkspaceModeNotAllowed)
    else if mode.Direct? && policy.directNeedsOptIn && !directOptIn then Err(DirectModeRefused)
    else Ok(mode)
  }

  predicate Overrides(requested: Option<string>, actual: string) {
    requested.Some? && requested.value != actual
  }

  function RequestFor(input: CreateTask, mode: WorkspaceMode): AuthorizationRequest {
    AuthorizationRequest(
      input.ownerProductId, input.agentId, input.directoryId, RequiredCapabilities(input), mode, input.directOptIn,
      input.metadata.Some? && input.metadata.value.Object? && input.metadata.value.approvedByScope == Some(true))
  }

  /** Everything `Enqueue` checks before it asks the grant to authorise. */
  function PreChecks(grants: GrantTable, profile: Option<Profile>, input: CreateTask): (r: Result<WorkspaceMode, ValidationError>)
    ensures r.Ok? ==> input.directoryId in grants && profile.Some? && r.value in grants[input.directoryId].policy.workspaceModes
  {
    match Validate(input)
    case Some(e) => Err(FromModel(e))
    case None =>
      if input.directoryId !in grants then Err(DirectoryNotFound)
      else
        var policy := grants[input.directoryId].policy;
        match SelectWorkspaceMode(input.workspaceMode, policy, input.directOptIn)
        case Err(e) => Err(e)
        case Ok(mode) =>
          if profile.None? then Err(AgentNotFound)
          else if profile.value.ownerProductId != input.ownerProductId then Err(AgentAuthorizationFailed)
          else if Overrides(input.providerId, profile.value.providerId) then Err(ProviderOverrideNotAllowed)
          else if Overrides(input.model, profile.value.model) then Err(ModelOverrideNotAllowed)
          else if Overrides(input.permissionMode, profile.value.permissionMode) then Err(PermissionModeOverrideNotAllowed)
          else if mode.Direct? && !profile.value.allowDirect then Err(DirectModeRefused)
          else if exists c | c in RequiredCapabilities(input) :: c !in policy.capabilities then Err(CapabilityNotAllowed)
          else Ok(mode)
  }

  function Enqueue(db: Db, grants: GrantTable, profile: Option<Profile>, input: CreateTask, now: Timestamp): Outcome<nat> {
    match PreChecks(grants, profile, input)
    case Err(e) => Outcome(db, Err(e))
    case Ok(mode) =>
      match Authorize(grants[input.directoryId], RequestFor(input, mode))
      case Some(e) => Outcome(db, Err(FromSecurity(e)))
      case None =>
        var r := CreateRow(db, input.(
          workspaceMode := Some(mode), providerId := Some(profile.value.providerId),
          model := Some(profile.value.model), permissionMode := Some(profile.value.permissionMode)), now);
        Outcome(r.db, match r.result case Ok(id) => Ok(id) case Err(e) => Err(FromStore(e)))
  }

  // ---- Admission --------------------------------------------------------

  /** Preparing or Running tasks. */
  function ActiveCount(entries: seq<Entry>): nat {
    if entries == [] then 0
    else ActiveCount(entries[..|entries| - 1]) + (if entries[|entries| - 1].task.status.IsActive() then 1 else 0)
  }

  datatype LockDecision = Acquired | Waiting | NotRequired

  function Wait(db: Db, id: nat, reason: string, decision: LockDecision, now: Timestamp): Outcome<LockDecision> {
    var r := ChangeStatus(db, id, WaitingDirectoryLock, Opaque(reason), now);
    Outcome(r.db, match r.result case Ok(_) => Ok(decision) case Err(e) => Err(FromStore(e)))
  }

  function LockModeOf(task: Task, grant: Grant): LockMode {
    ModeForCapabilities(task.spec.requiredCapabilities, grant.policy.lockPolicy)
  }

  function TryAcquire(db: Db, grants: GrantTable, max: nat, id: nat, directoryId: string, now: Timestamp): Outcome<LockDecision> {
    if id >= |db.entries| then Outcome(db, Err(NoSuchTask))
    else if ActiveCount(db.entries) >= max then Wait(db, id, "global_capacity", Waiting, now)
    else if directoryId !in grants then Outcome(db, Err(DirectoryNotFound))
    else
      var mode := LockModeOf(db.entries[id].task, grants[directoryId]);
      if mode.NoLock? then Outcome(db, Ok(NotRequired))
      else
        var (db', acquired) := AcquireLock(db, directoryId, id, mode, now);
        if acquired then Wait(db', id, "directory_lock_acquired", Acquired, now)
        else Wait(db', id, "directory_lock", Waiting, now)
  }

  /** `prepared` is what the workspace preparer answers. */
  function PrepareWorkspace(db: Db, grants: GrantTable, id: nat, prepared: bool, now: Timestamp): Outcome<()> {
    if id >= |db.entries| then Outcome(db, Err(NoSuchTask))
    else if db.entries[id].task.spec.directoryId !in grants then Outcome(db, Err(DirectoryNotFound))
    else
      var r := if db.entries[id].task.status.WaitingDirectoryLock?
               then ChangeStatus(db, id, Preparing, EmptyObject, now)
               else Reply(db, Ok(db.entries[id].task));
      match r.result
      case Err(e) => Outcome(r.db, Err(FromStore(e)))
      case Ok(_) =>
        if prepared then Outcome(r.db, Ok(()))
        else
          var f := ChangeStatus(r.db, id, Failed, Opaque("workspace preparation failed"), now);
          Outcome(f.db, Err(match f.result case Ok(_) => WorkspaceModeNotAllowed case Err(e) => FromStore(e)))
  }

  function MarkRunning(db: Db, id: nat, now: Timestamp): Outcome<()> {
    var r := ChangeStatus(db, id, Running, EmptyObject, now);
    Outcome(r.db, match r.result case Ok(_) => Ok(()) case Err(e) => Err(FromStore(e)))
  }

  /** What the look-ups of `execute_task` find: the agent's profile, the provider
      registry, and an available runtime with an executable. */
  datatype RuntimeSearch = NoProfile | BadRegistry | NoRuntime | Found

  /** The part of `execute_task` up to the runtime call. */
  function Admit(db: Db, grants: GrantTable, max: nat, id: nat, runtime: RuntimeSearch, prepared: bool, now: Timestamp): Outcome<()> {
    if id >= |db.entries| then Outcome(db, Err(NoSuchTask))
    else if db.entries[id].task.status.IsTerminal() then Outcome(db, Err(TaskAlreadyTerminal))
    else if runtime.NoProfile? then Outcome(db, Err(StoreFailed(LookupFailed)))
    else if db.entries[id].task.spec.directoryId !in grants then Outcome(db, Err(StoreFailed(LookupFailed)))
    else if runtime.BadRegistry? then Outcome(db, Err(RegistryFailed))
    else if runtime.NoRuntime? then Outcome(db, Err(RuntimeUnavailable))
    else
      var lock := TryAcquire(db, grants, max, id, db.entries[id].task.spec.directoryId, now);
      match lock.result
      case Err(e) => Outcome(lock.db, Err(e))
      case Ok(Waiting) => Outcome(lock.db, Err(DirectoryLockConflict))
      case Ok(_) =>
        var workspace := PrepareWorkspace(lock.db, grants, id, prepared, now);
        match workspace.result
        case Err(e) => workspace
        case Ok(_) => MarkRunning(workspace.db, id, now)
  }

  // ---- Cancel -----------------------------------------------------------

  function CancelTask(db: Db, id: nat, now: Timestamp): Outcome<()> {
    if id >= |db.entries| then Outcome(db, Err(NoSuchTask))
    else
      var status := db.entries[id].task.status;
      if status.Completed? || status.Failed? || status.TimedOut? then Outcome(db, Err(TaskAlreadyTerminal))
      else
        var r := ChangeStatus(db, id, Cancelled, EmptyObject, now);
        Outcome(r.db, match r.result case Ok(_) => Ok(()) case Err(e) => Err(FromStore(e)))
  }

  // ---- What enqueueing promises -----------------------------------------

  /** Once the pre-checks have passed, the grant refuses for two reasons only. */
  lemma AuthorizeFailsOnlyOn(grants: GrantTable, profile: Option<Profile>, input: CreateTask)
    requires SoundTable(grants)
    requires PreChecks(grants, profile, input).Ok?
    ensures input.directoryId in grants
    ensures
      var grant := grants[input.directoryId];
      var request := RequestFor(input, PreChecks(grants, profile, input).value);
      Authorize(grant, request).Some? <==>
        || grant.productId != input.ownerProductId
        || grant.agentId != input.agentId
        || (request.remoteExecution && !grant.policy.allowRemoteExecution)
  {
  }

  /** A task is created exactly when the pre-checks pass and the grant covers the
      request in full; the row carries the mode, provider and model that were checked. */
  lemma EnqueueCreatesExactlyCoveredTasks(db: Db, grants: GrantTable, profile: Option<Profile>, input: CreateTask, now: Timestamp)
    requires SoundTable(grants)
    ensures
      var r := Enqueue(db, grants, profile, input, now);
      && (r.result.Ok? <==>
            && PreChecks(grants, profile, input).Ok?
            && Covers(grants[input.directoryId], RequestFor(input, PreChecks(grants, profile, input).value)))
      && (r.result.Err? ==> r.db == db)
      && (r.result.Ok? ==>
            && r.result.value == |db.entries| == |r.db.entries| - 1
            && r.db.entries[..|db.entries|] == db.entries
            && var task := r.db.entries[|db.entries|].task;
               && task.status == Queued
               && task.result.None?
               && task.spec == TaskSpec(
                    input.ownerProductId, input.agentId, input.directoryId, RequiredCapabilities(input),
                    PreChecks(grants, profile, input).value, input.directOptIn, input.prompt, input.metadata,
                    profile.value.providerId, profile.value.model, profile.value.permissionMode,
                    input.timeoutSeconds, now)
               && r.db.entries[|db.entries|].log == [Event(|db.entries|, 1, TaskQueued, EmptyObject, now)]
               && r.db.locks == db.locks)
  {
    if PreChecks(grants, profile, input).Ok? {
      AuthorizeFailsOnlyOn(grants, profile, input);
    }
  }

  // ---- Persisting an outcome --------------------------------------------

  type Output = seq<(EventType, Payload)>

  function AppendAll(db: Db, id: nat, output: Output, now: Timestamp): Reply<()>
    decreases |output|
  {
    if output == [] then Reply(db, Ok(()))
    else
      var r := AppendEvent(db, id, output[0].0, output[0].1, now);
      match r.result
      case Err(e) => Reply(r.db, Err(e))
      case Ok(_) => AppendAll(r.db, id, output[1..], now)
  }

  /** `persist_outcome` run without interruption. */
  function PersistOutcome(db: Db, id: nat, output: Output, status: TaskStatus, error: Payload, message: string, now: Timestamp): Outcome<()> {
    var appended := AppendAll(db, id, output, now);
    match appended.result
    case Err(e) => Outcome(appended.db, Err(FromStore(e)))
    case Ok(_) =>
      var r := ChangeStatus(appended.db, id, status, error, now);
      match r.result
      case Err(e) => Outcome(r.db, Err(FromStore(e)))
      case Ok(_) =>
        if id >= |r.db.entries| then Outcome(r.db, Err(NoSuchTask))
        else Outcome(SaveResult(r.db, TaskResult(id, r.db.entries[id].task.status, message), now), Ok(()))
  }
}
