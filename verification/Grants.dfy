/** The directory-grant table and the policy every stored grant keeps. */
module Grants {
  import opened Results
  import opened Directory

  datatype CreateGrant = CreateGrant(
    productId: string,
    agentId: string,
    capabilities: seq<Capability>,
    workspaceModes: Option<seq<WorkspaceMode>>,
    defaultWorkspaceMode: Option<WorkspaceMode>,
    lockPolicy: Option<LockPolicy>,
    directNeedsOptIn: Option<bool>,
    allowRemoteExecution: Option<bool>)

  datatype PatchGrant = PatchGrant(
    capabilities: Option<seq<Capability>>,
    workspaceModes: Option<seq<WorkspaceMode>>,
    defaultWorkspaceMode: Option<WorkspaceMode>,
    lockPolicy: Option<LockPolicy>,
    directNeedsOptIn: Option<bool>,
    allowRemoteExecution: Option<bool>)

  /** `ModeIndexPanic` stands for the out-of-bounds index that aborts the caller. */
  datatype GrantError = GrantNotFound | PathRejected | Security(reason: SecurityError) | ModeIndexPanic

  type GrantTable = map<string, Grant>

  function GetOr<T>(o: Option<T>, fallback: T): T {
    if o.Some? then o.value else fallback
  }

  function PolicyFromCreate(input: CreateGrant, isGitRepository: bool): Result<GrantPolicy, GrantError> {
    if input.workspaceModes.None? && !isGitRepository then
      Err(Security(InvalidWorkspaceMode))
    else
      var modes := GetOr(input.workspaceModes, [Worktree]);
      if input.defaultWorkspaceMode.None? && Worktree !in modes && modes == [] then
        Err(ModeIndexPanic)
      else
        var default :=
          if input.defaultWorkspaceMode.Some? then input.defaultWorkspaceMode.value
          else if Worktree in modes then Worktree
          else modes[0];
        var lockPolicy := GetOr(input.lockPolicy, if Write in input.capabilities then ExclusivePolicy else SharedPolicy);
        if modes == [Worktree] && !isGitRepository then
          Err(Security(InvalidWorkspaceMode))
        else
          AsSecurity(NewPolicy(GrantPolicy(
            input.capabilities, modes, default, lockPolicy,
            GetOr(input.directNeedsOptIn, true), GetOr(input.allowRemoteExecution, false))))
  }

  function AsSecurity(r: Result<GrantPolicy, SecurityError>): Result<GrantPolicy, GrantError> {
    match r
    case Ok(p) => Ok(p)
    case Err(e) => Err(Security(e))
  }

  function PatchPolicy(policy: GrantPolicy, patch: PatchGrant): Result<GrantPolicy, GrantError> {
    AsSecurity(NewPolicy(GrantPolicy(
      GetOr(patch.capabilities, policy.capabilities),
      GetOr(patch.workspaceModes, policy.workspaceModes),
      GetOr(patch.defaultWorkspaceMode, policy.defaultWorkspaceMode),
      GetOr(patch.lockPolicy, policy.lockPolicy),
      GetOr(patch.directNeedsOptIn, policy.directNeedsOptIn),
      GetOr(patch.allowRemoteExecution, policy.allowRemoteExecution))))
  }

  predicate IsEmptyPatch(patch: PatchGrant) {
    patch == PatchGrant(None, None, None, None, None, None)
  }

  /** One request against the table. The path check, the repository probe and the
      row id the database picks are inputs. */
  datatype GrantCall =
    | Create(id: string, input: CreateGrant, pathAccepted: bool, isGitRepository: bool)
    | Patch(id: string, patch: PatchGrant)
    | Delete(id: string)

  function Apply(grants: GrantTable, call: GrantCall): (r: (GrantTable, Option<GrantError>)) {
    match call
    case Create(id, input, pathAccepted, isGitRepository) =>
      if !pathAccepted then (grants, Some(PathRejected))
      else (match PolicyFromCreate(input, isGitRepository)
            case Err(e) => (grants, Some(e))
            case Ok(policy) => (grants[id := Grant(id, input.productId, input.agentId, policy)], None))
    case Patch(id, patch) =>
      if IsEmptyPatch(patch) then (grants, Some(Security(AuthorizationFailed)))
      else if id !in grants then (grants, Some(GrantNotFound))
      else (match PatchPolicy(grants[id].policy, patch)
            case Err(e) => (grants, Some(e))
            case Ok(policy) => (grants[id := grants[id].(policy := policy)], None))
    case Delete(id) =>
      if id !in grants then (grants, Some(GrantNotFound)) else (grants - {id}, None)
  }

  /** The table after a whole run of requests. */
  function ApplyAll(grants: GrantTable, calls: seq<GrantCall>): GrantTable {
    if calls == [] then grants else Apply(ApplyAll(grants, calls[..|calls| - 1]), calls[|calls| - 1]).0
  }

  ghost predicate SoundTable(grants: GrantTable) {
    forall id :: id in grants ==> grants[id].id == id && SoundPolicy(grants[id].policy)
  }

  lemma CreatedPolicyIsSound(input: CreateGrant, isGitRepository: bool)
    ensures PolicyFromCreate(input, isGitRepository).Ok? ==> SoundPolicy(PolicyFromCreate(input, isGitRepository).value)
  {
  }

  lemma PatchedPolicyIsSound(policy: GrantPolicy, patch: PatchGrant)
    ensures PatchPolicy(policy, patch).Ok? ==> SoundPolicy(PatchPolicy(policy, patch).value)
  {
  }

  lemma ApplyKeepsSound(grants: GrantTable, call: GrantCall)
    requires SoundTable(grants)
    ensures SoundTable(Apply(grants, call).0)
    ensures Apply(grants, call).1.Some? ==> Apply(grants, call).0 == grants
  {
    hide SoundPolicy, PolicyFromCreate, PatchPolicy;
    match call
    case Create(_, input, _, isGitRepository) => CreatedPolicyIsSound(input, isGitRepository);
    case Patch(id, patch) =>
      if id in grants { PatchedPolicyIsSound(grants[id].policy, patch); }
    case Delete(_) =>
  }

  /** Any run of creates, patches and deletes leaves only sound grants. */
  lemma {:induction false} EveryStoredGrantIsSound(calls: seq<GrantCall>)
    ensures SoundTable(ApplyAll(map[], calls))
  {
    if calls != [] {
      EveryStoredGrantIsSound(calls[..|calls| - 1]);
      ApplyKeepsSound(ApplyAll(map[], calls[..|calls| - 1]), calls[|calls| - 1]);
    }
  }

  /** Creation aborts on one input family only: an explicit empty mode list with no default mode. */
  lemma CreatePanicsExactlyOnEmptyModes(input: CreateGrant, isGitRepository: bool)
    ensures PolicyFromCreate(input, isGitRepository) == Err(ModeIndexPanic)
            <==> input.workspaceModes == Some([]) && input.defaultWorkspaceMode.None?
  {
  }

  /** Patching a stored grant with its own policy changes nothing. */
  lemma PatchingWithTheSamePolicyIsIdentity(grants: GrantTable, id: string)
    requires SoundTable(grants) && id in grants
    ensures
      var p := grants[id].policy;
      Apply(grants, Patch(id, PatchGrant(Some(p.capabilities), Some(p.workspaceModes), Some(p.defaultWorkspaceMode),
        Some(p.lockPolicy), Some(p.directNeedsOptIn), Some(p.allowRemoteExecution)))) == (grants, None)
  {
    SoundPolicyIsNormal(grants[id].policy);
    assert grants[id := grants[id]] == grants;
  }

  // ---- What a request asks for is what the grant says -------------------

  /** The field as asked for, or else as it was. */
  predicate Takes<T(==)>(field: T, asked: Option<T>, otherwise: T) {
    asked == Some(field) || (asked.None? && field == otherwise)
  }

  ghost predicate TakesMembers<T(!new)>(field: seq<T>, asked: Option<seq<T>>, otherwise: seq<T>) {
    && (asked.Some? ==> forall x :: x in field <==> x in asked.value)
    && (asked.None? ==> forall x :: x in field <==> x in otherwise)
  }

  /** A patch that is accepted changes the fields it names, to what it says, and no other. */
  lemma PatchedPolicyIsExactly(policy: GrantPolicy, patch: PatchGrant)
    ensures
      var r := PatchPolicy(policy, patch);
      r.Ok? ==>
        && TakesMembers(r.value.capabilities, patch.capabilities, policy.capabilities)
        && TakesMembers(r.value.workspaceModes, patch.workspaceModes, policy.workspaceModes)
        && Takes(r.value.defaultWorkspaceMode, patch.defaultWorkspaceMode, policy.defaultWorkspaceMode)
        && Takes(r.value.lockPolicy, patch.lockPolicy, policy.lockPolicy)
        && Takes(r.value.directNeedsOptIn, patch.directNeedsOptIn, policy.directNeedsOptIn)
        && Takes(r.value.allowRemoteExecution, patch.allowRemoteExecution, policy.allowRemoteExecution)
  {
  }

  /** It is accepted exactly when the policy so changed grants something, has its default
      among its modes, and locks if it grants Write. */
  lemma PatchIsAcceptedExactly(policy: GrantPolicy, patch: PatchGrant)
    ensures
      PatchPolicy(policy, patch).Ok? <==>
        exists asked: GrantPolicy ::
          && Takes(asked.capabilities, patch.capabilities, policy.capabilities)
          && Takes(asked.workspaceModes, patch.workspaceModes, policy.workspaceModes)
          && Takes(asked.defaultWorkspaceMode, patch.defaultWorkspaceMode, policy.defaultWorkspaceMode)
          && Takes(asked.lockPolicy, patch.lockPolicy, policy.lockPolicy)
          && asked.capabilities != []
          && asked.defaultWorkspaceMode in asked.workspaceModes
          && (Write in asked.capabilities ==> asked.lockPolicy != NoLockPolicy)
  {
    hide NewPolicy;
    var asked := GrantPolicy(
      GetOr(patch.capabilities, policy.capabilities), GetOr(patch.workspaceModes, policy.workspaceModes),
      GetOr(patch.defaultWorkspaceMode, policy.defaultWorkspaceMode), GetOr(patch.lockPolicy, policy.lockPolicy),
      GetOr(patch.directNeedsOptIn, policy.directNeedsOptIn), GetOr(patch.allowRemoteExecution, policy.allowRemoteExecution));
    RefusedPolicyIsNamed(asked);
    assert Takes(asked.capabilities, patch.capabilities, policy.capabilities);
  }

  /** A created policy holds what was asked for. Left open, its modes are worktree only, its
      default is worktree or else the first mode, its lock exclusive if it grants Write and
      else shared; direct mode needs an opt-in and remote execution is refused. */
  lemma CreatedPolicyIsExactly(input: CreateGrant, isGitRepository: bool)
    ensures
      var r := PolicyFromCreate(input, isGitRepository);
      var modes := if input.workspaceModes.Some? then input.workspaceModes.value else [Worktree];
      r.Ok? ==>
        && TakesMembers(r.value.capabilities, None, input.capabilities)
        && TakesMembers(r.value.workspaceModes, None, modes)
        && (Worktree in modes ==> Takes(r.value.defaultWorkspaceMode, input.defaultWorkspaceMode, Worktree))
        && (Worktree !in modes ==> modes != [] && Takes(r.value.defaultWorkspaceMode, input.defaultWorkspaceMode, modes[0]))
        && (Write in input.capabilities ==> Takes(r.value.lockPolicy, input.lockPolicy, ExclusivePolicy))
        && (Write !in input.capabilities ==> Takes(r.value.lockPolicy, input.lockPolicy, SharedPolicy))
        && Takes(r.value.directNeedsOptIn, input.directNeedsOptIn, true)
        && Takes(r.value.allowRemoteExecution, input.allowRemoteExecution, false)
  {
    var modes := if input.workspaceModes.Some? then input.workspaceModes.value else [Worktree];
    assert [Worktree][0] == Worktree;
    assert modes == [] ==> forall m :: m !in NormalizeModes(modes);
  }

  /** What creation refuses: worktree mode alone outside a repository, and what no policy may be. */
  lemma CreationIsRefusedExactly(input: CreateGrant, isGitRepository: bool)
    ensures
      var r := PolicyFromCreate(input, isGitRepository);
      var worktreeOnly := input.workspaceModes.None? || input.workspaceModes == Some([Worktree]);
      var modes := if input.workspaceModes.Some? then input.workspaceModes.value else [Worktree];
      var modesFit := modes != [] && (input.defaultWorkspaceMode.Some? ==> input.defaultWorkspaceMode.value in modes);
      var locksFit := Write in input.capabilities ==> input.lockPolicy != Some(NoLockPolicy);
      && (r.Ok? <==> (worktreeOnly ==> isGitRepository) && input.capabilities != [] && modesFit && locksFit)
      && (worktreeOnly && !isGitRepository ==> r == Err(Security(InvalidWorkspaceMode)))
  {
    hide NewPolicy;
    var modes := if input.workspaceModes.Some? then input.workspaceModes.value else [Worktree];
    if modes != [] {
      assert modes[0] in modes;
      var default :=
        if input.defaultWorkspaceMode.Some? then input.defaultWorkspaceMode.value
        else if Worktree in modes then Worktree else modes[0];
      var lockPolicy := GetOr(input.lockPolicy, if Write in input.capabilities then ExclusivePolicy else SharedPolicy);
      RefusedPolicyIsNamed(GrantPolicy(
        input.capabilities, modes, default, lockPolicy,
        GetOr(input.directNeedsOptIn, true), GetOr(input.allowRemoteExecution, false)));
    } else if input.defaultWorkspaceMode.Some? {
      RefusedPolicyIsNamed(GrantPolicy(
        input.capabilities, modes, input.defaultWorkspaceMode.value,
        GetOr(input.lockPolicy, if Write in input.capabilities then ExclusivePolicy else SharedPolicy),
        GetOr(input.directNeedsOptIn, true), GetOr(input.allowRemoteExecution, false)));
    }
  }

  /** What a request does to the table: its own grant only, and of that one a patch leaves
      the owner and a refusal everything. */
  lemma RequestReachesItsGrantOnly(grants: GrantTable, call: GrantCall)
    ensures
      var (grants', error) := Apply(grants, call);
      && (forall id :: id != call.id ==> (id in grants' <==> id in grants) && (id in grants ==> grants'[id] == grants[id]))
      && (error.Some? ==> grants' == grants)
      && (call.Delete? ==> call.id !in grants' && (error == if call.id in grants then None else Some(GrantNotFound)))
      && (call.Create? ==>
            && (error == Some(PathRejected) <==> !call.pathAccepted)
            && (error.None? ==>
                  && call.id in grants'
                  && PolicyFromCreate(call.input, call.isGitRepository) == Ok(grants'[call.id].policy)
                  && grants'[call.id] == Grant(call.id, call.input.productId, call.input.agentId, grants'[call.id].policy)))
      && (call.Patch? ==>
            && (error == Some(Security(AuthorizationFailed)) <==>
                  call.patch.capabilities.None? && call.patch.workspaceModes.None? && call.patch.defaultWorkspaceMode.None? &&
                  call.patch.lockPolicy.None? && call.patch.directNeedsOptIn.None? && call.patch.allowRemoteExecution.None?)
            && (error.None? ==>
                  && call.id in grants && call.id in grants'
                  && PatchPolicy(grants[call.id].policy, call.patch) == Ok(grants'[call.id].policy)
                  && grants'[call.id] == grants[call.id].(policy := grants'[call.id].policy)))
  {
  }

  class DirectoryGrantStore {
    var grants: GrantTable

    constructor ()
      ensures grants == map[]
    {
      grants := map[];
    }

    method CreateRow(id: string, input: CreateGrant, pathAccepted: bool, isGitRepository: bool)
      returns (error: Option<GrantError>)
      modifies this
      ensures (grants, error) == Apply(old(grants), Create(id, input, pathAccepted, isGitRepository))
    {
      if !pathAccepted {
        return Some(PathRejected);
      }
      match PolicyFromCreate(input, isGitRepository)
      case Err(e) => return Some(e);
      case Ok(policy) =>
        grants := grants[id := Grant(id, input.productId, input.agentId, policy)];
        return None;
    }

    method PatchRow(id: string, patch: PatchGrant) returns (error: Option<GrantError>)
      modifies this
      ensures (grants, error) == Apply(old(grants), Patch(id, patch))
    {
      if IsEmptyPatch(patch) {
        return Some(Security(AuthorizationFailed));
      }
      if id !in grants {
        return Some(GrantNotFound);
      }
      var current := grants[id];
      match PatchPolicy(current.policy, patch)
      case Err(e) => return Some(e);
      case Ok(policy) =>
        grants := grants[id := current.(policy := policy)];
        return None;
    }

    method DeleteRow(id: string) returns (error: Option<GrantError>)
      modifies this
      ensures (grants, error) == Apply(old(grants), Delete(id))
    {
      if id !in grants {
        return Some(GrantNotFound);
      }
      grants := grants - {id};
      return None;
    }
  }
}
