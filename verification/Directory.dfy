/** Directory grants: the policy each grant obeys and the authorisation it gives. */
module Directory {
  import opened Results
  import opened Ordering

  datatype Capability = Read | Write | Shell | Git

  datatype WorkspaceMode = Worktree | Direct

  datatype LockPolicy = ExclusivePolicy | SharedPolicy | NoLockPolicy

  datatype GrantPolicy = GrantPolicy(
    capabilities: seq<Capability>,
    workspaceModes: seq<WorkspaceMode>,
    defaultWorkspaceMode: WorkspaceMode,
    lockPolicy: LockPolicy,
    directNeedsOptIn: bool,
    allowRemoteExecution: bool)

  datatype Grant = Grant(id: string, productId: string, agentId: string, policy: GrantPolicy)

  datatype AuthorizationRequest = AuthorizationRequest(
    productId: string,
    agentId: string,
    directoryId: string,
    requiredCapabilities: seq<Capability>,
    workspaceMode: WorkspaceMode,
    directOptIn: bool,
    remoteExecution: bool)

  datatype SecurityError =
    | InvalidCapability
    | InvalidWorkspaceMode
    | InvalidLockPolicy
    | DirectModeNotAllowed
    | AuthorizationFailed

  function CapabilityOrder(c: Capability): int {
    match c case Read => 0 case Write => 1 case Shell => 2 case Git => 3
  }

  function ModeOrder(m: WorkspaceMode): int {
    match m case Worktree => 0 case Direct => 1
  }

  const CAPABILITIES := [Read, Write, Shell, Git]

  const WORKSPACE_MODES := [Worktree, Direct]

  lemma CapabilitiesAreListed()
    ensures forall c: Capability :: c in CAPABILITIES
    ensures StrictlyOrdered(CapabilityOrder, CAPABILITIES)
  {
    forall c: Capability ensures c in CAPABILITIES {
      match c
      case Read => assert CAPABILITIES[0] == c;
      case Write => assert CAPABILITIES[1] == c;
      case Shell => assert CAPABILITIES[2] == c;
      case Git => assert CAPABILITIES[3] == c;
    }
    forall i | 0 <= i < 4 ensures CapabilityOrder(CAPABILITIES[i]) == i {
      if i == 0 {} else if i == 1 {} else if i == 2 {}
    }
  }

  lemma WorkspaceModesAreListed()
    ensures forall m: WorkspaceMode :: m in WORKSPACE_MODES
    ensures StrictlyOrdered(ModeOrder, WORKSPACE_MODES)
  {
    forall m: WorkspaceMode ensures m in WORKSPACE_MODES {
      match m
      case Worktree => assert WORKSPACE_MODES[0] == m;
      case Direct => assert WORKSPACE_MODES[1] == m;
    }
  }

  /** Collecting into an ordered set and back. */
  function NormalizeCapabilities(cs: seq<Capability>): (r: seq<Capability>)
    ensures forall c :: c in r <==> c in cs
    ensures StrictlyOrdered(CapabilityOrder, r)
  {
    CapabilitiesAreListed();
    CollectIsOrdered(CapabilityOrder, CAPABILITIES, cs);
    Collect(CAPABILITIES, cs)
  }

  function NormalizeModes(ms: seq<WorkspaceMode>): (r: seq<WorkspaceMode>)
    ensures forall m :: m in r <==> m in ms
    ensures StrictlyOrdered(ModeOrder, r)
  {
    WorkspaceModesAreListed();
    CollectIsOrdered(ModeOrder, WORKSPACE_MODES, ms);
    Collect(WORKSPACE_MODES, ms)
  }

  /** The normal form lists everything once, in the order read, write, shell, git. */
  lemma NormalFormIsInOrder(cs: seq<Capability>, i: nat, j: nat)
    requires i < j < |NormalizeCapabilities(cs)|
    ensures
      var first, second := NormalizeCapabilities(cs)[i], NormalizeCapabilities(cs)[j];
      first != second && (first == Read || second == Git || (first == Write && second == Shell))
  {
    assert CapabilityOrder(NormalizeCapabilities(cs)[i]) < CapabilityOrder(NormalizeCapabilities(cs)[j]);
  }

  lemma NormalModesAreInOrder(ms: seq<WorkspaceMode>, i: nat, j: nat)
    requires i < j < |NormalizeModes(ms)|
    ensures NormalizeModes(ms)[i] == Worktree && NormalizeModes(ms)[j] == Direct
  {
    assert ModeOrder(NormalizeModes(ms)[i]) < ModeOrder(NormalizeModes(ms)[j]);
  }

  function ValidatePolicy(p: GrantPolicy): Option<SecurityError> {
    if p.capabilities == [] then Some(InvalidCapability)
    else if p.workspaceModes == [] || p.defaultWorkspaceMode !in p.workspaceModes then Some(InvalidWorkspaceMode)
    else if Write in p.capabilities && p.lockPolicy.NoLockPolicy? then Some(InvalidLockPolicy)
    else None
  }

  function NewPolicy(p: GrantPolicy): Result<GrantPolicy, SecurityError> {
    var capabilities := NormalizeCapabilities(p.capabilities);
    var modes := NormalizeModes(p.workspaceModes);
    if capabilities == [] then Err(InvalidCapability)
    else if modes == [] then Err(InvalidWorkspaceMode)
    else
      var policy := p.(capabilities := capabilities, workspaceModes := modes);
      match ValidatePolicy(policy)
      case Some(e) => Err(e)
      case None => Ok(policy)
  }

  /** What every stored grant satisfies. */
  ghost predicate SoundPolicy(p: GrantPolicy) {
    && p.capabilities != []
    && p.workspaceModes != []
    && StrictlyOrdered(CapabilityOrder, p.capabilities)
    && StrictlyOrdered(ModeOrder, p.workspaceModes)
    && p.defaultWorkspaceMode in p.workspaceModes
    && (Write in p.capabilities ==> !p.lockPolicy.NoLockPolicy?)
  }

  /** A policy is accepted exactly when its normal form is sound, and what is kept is that normal form. */
  lemma NewPolicyIsSound(p: GrantPolicy)
    ensures
      var normal := p.(capabilities := NormalizeCapabilities(p.capabilities), workspaceModes := NormalizeModes(p.workspaceModes));
      if SoundPolicy(normal) then NewPolicy(p) == Ok(normal) else NewPolicy(p).Err?
  {
  }

  /** What is wrong with a policy that is refused: nothing granted, no mode or a default
      outside the modes, or Write without locks, in this order. */
  lemma RefusedPolicyIsNamed(p: GrantPolicy)
    ensures
      var r := NewPolicy(p);
      var modesFit := p.workspaceModes != [] && p.defaultWorkspaceMode in p.workspaceModes;
      var locksFit := Write in p.capabilities ==> p.lockPolicy != NoLockPolicy;
      && (r == Err(InvalidCapability) <==> p.capabilities == [])
      && (r == Err(InvalidWorkspaceMode) <==> p.capabilities != [] && !modesFit)
      && (r == Err(InvalidLockPolicy) <==> p.capabilities != [] && modesFit && !locksFit)
      && (r.Ok? <==> p.capabilities != [] && modesFit && locksFit)
  {
    var capabilities, modes := NormalizeCapabilities(p.capabilities), NormalizeModes(p.workspaceModes);
    assert p.capabilities != [] ==> p.capabilities[0] in capabilities;
    assert capabilities != [] ==> capabilities[0] in p.capabilities;
    assert p.workspaceModes != [] ==> p.workspaceModes[0] in modes;
    assert modes != [] ==> modes[0] in p.workspaceModes;
  }

  /** A sound policy is its own normal form, so re-saving it changes nothing. */
  lemma SoundPolicyIsNormal(p: GrantPolicy)
    requires SoundPolicy(p)
    ensures NewPolicy(p) == Ok(p)
  {
    SameMembersSameList(CapabilityOrder, NormalizeCapabilities(p.capabilities), p.capabilities);
    SameMembersSameList(ModeOrder, NormalizeModes(p.workspaceModes), p.workspaceModes);
  }

  function Authorize(grant: Grant, request: AuthorizationRequest): Option<SecurityError> {
    if grant.productId != request.productId || grant.agentId != request.agentId || grant.id != request.directoryId then
      Some(AuthorizationFailed)
    else if exists c | c in request.requiredCapabilities :: c !in grant.policy.capabilities then
      Some(AuthorizationFailed)
    else if request.workspaceMode !in grant.policy.workspaceModes then
      Some(if request.workspaceMode.Direct? then DirectModeNotAllowed else AuthorizationFailed)
    else if request.workspaceMode.Direct? && grant.policy.directNeedsOptIn && !request.directOptIn then
      Some(DirectModeNotAllowed)
    else if request.remoteExecution && !grant.policy.allowRemoteExecution then
      Some(AuthorizationFailed)
    else
      None
  }

  /** Everything a grant promises about a task that it lets through. */
  ghost predicate Covers(grant: Grant, request: AuthorizationRequest) {
    && grant.productId == request.productId
    && grant.agentId == request.agentId
    && grant.id == request.directoryId
    && (forall c :: c in request.requiredCapabilities ==> c in grant.policy.capabilities)
    && request.workspaceMode in grant.policy.workspaceModes
    && (request.workspaceMode.Direct? && grant.policy.directNeedsOptIn ==> request.directOptIn)
    && (request.remoteExecution ==> grant.policy.allowRemoteExecution)
  }

  /** A grant authorises exactly what it covers. It names direct mode as the reason exactly
      when that is all that is in the way, whatever remote execution would have met. */
  lemma AuthorizesExactlyWhatItCovers(grant: Grant, request: AuthorizationRequest)
    ensures
      var r := Authorize(grant, request);
      var owned := grant.productId == request.productId && grant.agentId == request.agentId && grant.id == request.directoryId;
      var capable := forall c :: c in request.requiredCapabilities ==> c in grant.policy.capabilities;
      var directFits := Direct in grant.policy.workspaceModes && (grant.policy.directNeedsOptIn ==> request.directOptIn);
      && (r == None <==> Covers(grant, request))
      && (r == Some(DirectModeNotAllowed) <==> owned && capable && request.workspaceMode == Direct && !directFits)
      && (r == None || r == Some(DirectModeNotAllowed) || r == Some(AuthorizationFailed))
  {
  }
}

/** The lock a task takes on its directory. */
module Locks {
  import opened Directory

  datatype LockMode = Exclusive | Shared | NoLock

  function ModeForCapabilities(capabilities: seq<Capability>, policy: LockPolicy): LockMode {
    if policy.NoLockPolicy? then NoLock
    else if exists c | c in capabilities :: c.Write? || c.Shell? || c.Git? then Exclusive
    else match policy
      case ExclusivePolicy => Exclusive
      case SharedPolicy => Shared
      case NoLockPolicy => NoLock
  }

  predicate DoesMoreThanRead(capabilities: seq<Capability>) {
    Write in capabilities || Shell in capabilities || Git in capabilities
  }

  /** No lock under a grant without locks; an exclusive one under an exclusive policy,
      whatever the task does, and for whatever does more than read; else a shared one. */
  lemma LockModeIsExactly(capabilities: seq<Capability>, policy: LockPolicy)
    ensures
      var mode := ModeForCapabilities(capabilities, policy);
      && (mode == NoLock <==> policy == NoLockPolicy)
      && (mode == Exclusive <==> policy != NoLockPolicy && (policy == ExclusivePolicy || DoesMoreThanRead(capabilities)))
      && (mode == Shared <==> policy == SharedPolicy && !DoesMoreThanRead(capabilities))
  {
    assert DoesMoreThanRead(capabilities) <==> exists c | c in capabilities :: c.Write? || c.Shell? || c.Git?;
  }
}
