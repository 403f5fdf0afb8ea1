/** What enqueueing asks of a request, check by check, and the row it then writes. */
module Enqueueing {
  import opened Results
  import opened Lifecycle
  import opened TaskModel
  import opened Directory
  import opened Grants
  import opened Store
  import opened Scheduler

  // ---- The checks ---------------------------------------------------------

  /** Left open, or as the profile has it. */
  predicate Agrees(requested: Option<string>, actual: string) {
    requested == None || requested == Some(actual)
  }

  predicate AllowsMode(policy: GrantPolicy, mode: WorkspaceMode, directOptIn: bool) {
    mode in policy.workspaceModes && (mode == Direct && policy.directNeedsOptIn ==> directOptIn)
  }

  ghost predicate AllowsCapabilities(policy: GrantPolicy, input: CreateTask) {
    forall c :: Requires(input, c) ==> c in policy.capabilities
  }

  predicate IsForRemoteExecution(input: CreateTask) {
    match input.metadata case Some(Object(_, approved)) => approved == Some(true) case _ => false
  }

  predicate IsGrantedTo(grant: Grant, input: CreateTask) {
    grant.productId == input.ownerProductId && grant.agentId == input.agentId && grant.id == input.directoryId
  }

  /** All that a task needs to be enqueued and work in the given mode. */
  ghost predicate IsEnqueueable(grants: GrantTable, profile: Option<Profile>, input: CreateTask, mode: WorkspaceMode) {
    && IsNamed(input) && HasText(input.prompt) && HasFitOptions(input)
    && input.directoryId in grants && profile.Some?
    && var grant, p := grants[input.directoryId], profile.value;
       && Takes(mode, input.workspaceMode, grant.policy.defaultWorkspaceMode)
       && AllowsMode(grant.policy, mode, input.directOptIn)
       && p.ownerProductId == input.ownerProductId
       && Agrees(input.providerId, p.providerId) && Agrees(input.model, p.model) && Agrees(input.permissionMode, p.permissionMode)
       && (mode == Direct ==> p.allowDirect)
       && AllowsCapabilities(grant.policy, input)
       && IsGrantedTo(grant, input)
       && (IsForRemoteExecution(input) ==> grant.policy.allowRemoteExecution)
  }

  /** The checks in the order they are made, each with the refusal it leads to. */
  ghost function Checks(grants: GrantTable, profile: Option<Profile>, input: CreateTask, mode: WorkspaceMode): seq<(bool, ValidationError)>
    requires input.directoryId in grants
  {
    var grant := grants[input.directoryId];
    [ (AllowsMode(grant.policy, mode, input.directOptIn), if mode == Worktree then WorkspaceModeNotAllowed else DirectModeRefused),
      (profile.Some?, AgentNotFound),
      (profile.Some? && profile.value.ownerProductId == input.ownerProductId, AgentAuthorizationFailed),
      (profile.Some? && Agrees(input.providerId, profile.value.providerId), ProviderOverrideNotAllowed),
      (profile.Some? && Agrees(input.model, profile.value.model), ModelOverrideNotAllowed),
      (profile.Some? && Agrees(input.permissionMode, profile.value.permissionMode), PermissionModeOverrideNotAllowed),
      (profile.Some? && (mode == Direct ==> profile.value.allowDirect), DirectModeRefused),
      (AllowsCapabilities(grant.policy, input), CapabilityNotAllowed),
      (IsGrantedTo(grant, input), DirectoryAuthorizationFailed),
      (IsForRemoteExecution(input) ==> grant.policy.allowRemoteExecution, DirectoryAuthorizationFailed) ]
  }

  ghost predicate FailsFirst(checks: seq<(bool, ValidationError)>, k: nat) {
    k < |checks| && !checks[k].0 && forall j :: 0 <= j < k ==> checks[j].0
  }

  lemma CapabilitiesAreAllowedExactly(policy: GrantPolicy, input: CreateTask)
    ensures AllowsCapabilities(policy, input) <==> !exists c | c in RequiredCapabilities(input) :: c !in policy.capabilities
  {
    forall c ensures c in RequiredCapabilities(input) <==> Requires(input, c) {
      RequiredExactly(input, c);
    }
  }

  lemma SelectsExactly(input: CreateTask, policy: GrantPolicy, mode: WorkspaceMode)
    requires Takes(mode, input.workspaceMode, policy.defaultWorkspaceMode)
    ensures
      SelectWorkspaceMode(input.workspaceMode, policy, input.directOptIn) ==
      if AllowsMode(policy, mode, input.directOptIn) then Ok(mode)
      else Err(if mode == Worktree then WorkspaceModeNotAllowed else DirectModeRefused)
  {
  }

  lemma AuthorizesExactly(grant: Grant, input: CreateTask, mode: WorkspaceMode)
    requires AllowsMode(grant.policy, mode, input.directOptIn) && AllowsCapabilities(grant.policy, input)
    ensures
      Authorize(grant, RequestFor(input, mode)) ==
      if IsGrantedTo(grant, input) && (IsForRemoteExecution(input) ==> grant.policy.allowRemoteExecution) then None
      else Some(AuthorizationFailed)
  {
    hide AllowsCapabilities, RequiredCapabilities;
    CapabilitiesAreAllowedExactly(grant.policy, input);
  }

  /** A request that is not valid is refused as such, an unknown directory next, and then
      the first of the checks that fails decides. */
  lemma FirstFailedCheckDecides(
      db: Db, grants: GrantTable, profile: Option<Profile>, input: CreateTask, mode: WorkspaceMode, k: nat, now: Timestamp)
    requires input.directoryId in grants ==> Takes(mode, input.workspaceMode, grants[input.directoryId].policy.defaultWorkspaceMode)
    ensures
      var r := Enqueue(db, grants, profile, input, now);
      if !IsNamed(input) then r == Outcome(db, Err(InvalidTaskInput))
      else if !HasText(input.prompt) then r == Outcome(db, Err(InvalidTaskPrompt))
      else if !HasFitOptions(input) then r == Outcome(db, Err(InvalidTaskInput))
      else if input.directoryId !in grants then r == Outcome(db, Err(DirectoryNotFound))
      else FailsFirst(Checks(grants, profile, input, mode), k) ==> r == Outcome(db, Err(Checks(grants, profile, input, mode)[k].1))
  {
    hide Validate, RequiredCapabilities, AllowsCapabilities, SelectWorkspaceMode, CreateRow, HasText, HasFitOptions, AllowsMode, Requires;
    ValidExactly(input);
    if input.directoryId in grants {
      CapabilitiesAreAllowedExactly(grants[input.directoryId].policy, input);
      SelectsExactly(input, grants[input.directoryId].policy, mode);
      var checks := Checks(grants, profile, input, mode);
      if FailsFirst(checks, k) {
        assert (k > 0 ==> checks[0].0) && (k > 1 ==> checks[1].0) && (k > 2 ==> checks[2].0);
        assert (k > 3 ==> checks[3].0) && (k > 4 ==> checks[4].0) && (k > 5 ==> checks[5].0);
        assert (k > 6 ==> checks[6].0) && (k > 7 ==> checks[7].0) && (k > 8 ==> checks[8].0);
        if k >= 8 { AuthorizesExactly(grants[input.directoryId], input, mode); }
      }
    }
  }

  // ---- The row ------------------------------------------------------------

  /** The row but for its mode: the request's own fields, the capabilities it requires, the
      profile's provider, model and permission mode; queued, with no result. */
  ghost predicate IsRowOf(task: Task, input: CreateTask, profile: Profile, now: Timestamp) {
    && task.status == Queued && task.result == None && task.updatedAt == now
    && task.stamps == Stamps(None, None, None, None)
    && (forall c :: c in task.spec.requiredCapabilities <==> Requires(input, c))
    && task.spec == TaskSpec(
         input.ownerProductId, input.agentId, input.directoryId, task.spec.requiredCapabilities, task.spec.workspaceMode,
         input.directOptIn, input.prompt, input.metadata, profile.providerId, profile.model, profile.permissionMode,
         input.timeoutSeconds, now)
  }

  /** The row that is written once everything is checked. */
  function Added(db: Db, input: CreateTask, mode: WorkspaceMode, profile: Profile, now: Timestamp): Reply<nat> {
    CreateRow(db, input.(
      workspaceMode := Some(mode), providerId := Some(profile.providerId),
      model := Some(profile.model), permissionMode := Some(profile.permissionMode)), now)
  }

  lemma RowIsAsAsked(db: Db, input: CreateTask, mode: WorkspaceMode, profile: Profile, now: Timestamp)
    requires Validate(input).None?
    ensures
      var r := Added(db, input, mode, profile, now);
      var id := |db.entries|;
      && r.result == Ok(id) && |r.db.entries| == id + 1
      && r.db == db.(entries := db.entries + [r.db.entries[id]])
      && r.db.entries[id].log == [Event(id, 1, TaskQueued, EmptyObject, now)]
      && IsRowOf(r.db.entries[id].task, input, profile, now)
      && r.db.entries[id].task.spec.workspaceMode == mode
  {
    forall c ensures c in RequiredCapabilities(input) <==> Requires(input, c) {
      RequiredExactly(input, c);
    }
  }

  lemma OnlyOneMode(grants: GrantTable, profile: Option<Profile>, input: CreateTask, mode: WorkspaceMode)
    requires IsEnqueueable(grants, profile, input, mode)
    ensures profile.Some? && mode == GetOr(input.workspaceMode, grants[input.directoryId].policy.defaultWorkspaceMode)
  {
  }

  lemma NowhereToGo(db: Db, grants: GrantTable, profile: Option<Profile>, input: CreateTask, now: Timestamp)
    requires input.directoryId !in grants
    ensures Enqueue(db, grants, profile, input, now).result.Err? && Enqueue(db, grants, profile, input, now).db == db
    ensures forall mode :: !IsEnqueueable(grants, profile, input, mode)
  {
  }

  lemma ChosenModeDecides(
      db: Db, grants: GrantTable, profile: Option<Profile>, input: CreateTask, mode: WorkspaceMode, now: Timestamp)
    requires input.directoryId in grants && Takes(mode, input.workspaceMode, grants[input.directoryId].policy.defaultWorkspaceMode)
    ensures
      var r := Enqueue(db, grants, profile, input, now);
      if IsEnqueueable(grants, profile, input, mode) then
        && r == Outcome(Added(db, input, mode, profile.value, now).db, Ok(|db.entries|))
        && Validate(input).None?
      else r.result.Err? && r.db == db
  {
    hide Validate, RequiredCapabilities, AllowsCapabilities, SelectWorkspaceMode, HasText, HasFitOptions, AllowsMode, Requires, CreateRow;
    ValidExactly(input);
    var policy := grants[input.directoryId].policy;
    CapabilitiesAreAllowedExactly(policy, input);
    SelectsExactly(input, policy, mode);
    if AllowsMode(policy, mode, input.directOptIn) && AllowsCapabilities(policy, input) {
      AuthorizesExactly(grants[input.directoryId], input, mode);
    }
    if profile.Some? && Validate(input).None? {
      RowIsAsAsked(db, input, mode, profile.value, now);
    }
  }

  /** A task is enqueued exactly when there is a mode it may work in, and the row then has
      that mode, what was asked for and what the profile says. A refusal changes nothing. */
  lemma EnqueueAcceptsExactly(db: Db, grants: GrantTable, profile: Option<Profile>, input: CreateTask, now: Timestamp)
    ensures
      var r := Enqueue(db, grants, profile, input, now);
      && (r.result.Ok? <==> exists mode :: IsEnqueueable(grants, profile, input, mode))
      && (r.result.Err? ==> r.db == db)
      && (r.result.Ok? ==>
            var id := |db.entries|;
            && profile.Some?
            && r.result.value == id && |r.db.entries| == id + 1
            && r.db == db.(entries := db.entries + [r.db.entries[id]])
            && r.db.entries[id].log == [Event(id, 1, TaskQueued, EmptyObject, now)]
            && var task := r.db.entries[id].task;
               && IsEnqueueable(grants, profile, input, task.spec.workspaceMode)
               && IsRowOf(task, input, profile.value, now))
  {
    hide Enqueue, IsEnqueueable, IsRowOf;
    if input.directoryId in grants {
      var mode := GetOr(input.workspaceMode, grants[input.directoryId].policy.defaultWorkspaceMode);
      ChosenModeDecides(db, grants, profile, input, mode, now);
      if IsEnqueueable(grants, profile, input, mode) {
        OnlyOneMode(grants, profile, input, mode);
        RowIsAsAsked(db, input, mode, profile.value, now);
      }
      forall m | IsEnqueueable(grants, profile, input, m) ensures m == mode {
        OnlyOneMode(grants, profile, input, m);
      }
    } else {
      NowhereToGo(db, grants, profile, input, now);
    }
  }

  /** What the store itself fills in for what is left open. */
  lemma RowDefaults(db: Db, input: CreateTask, now: Timestamp)
    ensures
      var r := CreateRow(db, input, now);
      && (r.result.Err? <==> !(IsNamed(input) && HasText(input.prompt) && HasFitOptions(input)))
      && (r.result.Err? ==> r.db == db)
      && (r.result.Ok? ==>
            && |r.db.entries| == |db.entries| + 1
            && var spec := r.db.entries[|db.entries|].task.spec;
               && Takes(spec.workspaceMode, input.workspaceMode, Worktree)
               && Takes(spec.providerId, input.providerId, "")
               && Takes(spec.model, input.model, "")
               && Takes(spec.permissionMode, input.permissionMode, "provider_default"))
  {
    hide Validate, HasText, HasFitOptions;
    ValidExactly(input);
  }
}
