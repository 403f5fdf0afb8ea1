/** Concrete grants and tasks, from which runs that show a failure are built. */
module Examples {
  import opened Results
  import opened Text
  import opened Ordering
  import opened Lifecycle
  import opened TaskModel
  import opened Directory
  import opened Locks
  import opened Grants
  import opened Store
  import opened StoreInvariants
  import opened Scheduler

  const PROFILE := Profile("p", "provider", "model", "provider_default", false)

  /** A request for a grant that lets the agent read, or read and write, one directory. */
  function GrantRequest(writes: bool): CreateGrant {
    CreateGrant("p", "a", if writes then [Read, Write] else [Read], Some([Worktree]), Some(Worktree), None, None, None)
  }

  function GrantCreation(writes: bool): GrantCall {
    Create("d", GrantRequest(writes), true, true)
  }

  function GrantsWith(writes: bool): GrantTable {
    Apply(map[], GrantCreation(writes)).0
  }

  /** A task on that directory that needs one capability. */
  function TaskRequest(capability: Capability): CreateTask {
    CreateTask("p", "a", "d", "go", Some([capability]), Some(Worktree), false, None,
               Some("provider"), Some("model"), Some("provider_default"), None)
  }

  lemma RequestIsValid(capability: Capability)
    ensures Validate(TaskRequest(capability)).None?
    ensures forall c :: c in RequiredCapabilities(TaskRequest(capability)) <==> c == capability
  {
    hide IsBlank;
    var t := TaskRequest(capability);
    NotBlank(t.ownerProductId);
    NotBlank(t.agentId);
    NotBlank(t.directoryId);
    NotBlank(t.prompt);
    assert [capability][0] in RequiredCapabilities(t);
  }

  const READING_TASK := TaskRequest(Read)

  lemma ReadingTaskIsValid()
    ensures Validate(READING_TASK).None?
  {
    RequestIsValid(Read);
  }

  lemma NotBlank(s: string)
    requires s != [] && !IsWhitespace(s[0])
    ensures !IsBlank(s)
  {
    assert s[0] in s;
  }

  lemma GrantIsCreated(writes: bool)
    ensures "d" in GrantsWith(writes) && GrantsWith(writes).Keys == {"d"}
    ensures
      var grant := GrantsWith(writes)["d"];
      && grant.id == "d" && grant.productId == "p" && grant.agentId == "a"
      && (forall c :: c in grant.policy.capabilities <==> c == Read || (writes && c == Write))
      && grant.policy.workspaceModes == [Worktree]
      && grant.policy.lockPolicy == (if writes then ExclusivePolicy else SharedPolicy)
  {
    hide NormalizeCapabilities, NormalizeModes, StrictlyOrdered;
    var input := GrantRequest(writes);
    var lockPolicy := if writes then ExclusivePolicy else SharedPolicy;
    var p := GrantPolicy(input.capabilities, [Worktree], Worktree, lockPolicy, true, false);
    assert PolicyFromCreate(input, true) == AsSecurity(NewPolicy(p));
    NewPolicyIsSound(p);
    var normal := p.(capabilities := NormalizeCapabilities(p.capabilities), workspaceModes := NormalizeModes(p.workspaceModes));
    assert Read in input.capabilities && Read in normal.capabilities;
    assert [Worktree][0] in normal.workspaceModes;
    OnlyWorktree(normal.workspaceModes);
    assert SoundPolicy(normal);
  }

  lemma OnlyWorktree(modes: seq<WorkspaceMode>)
    requires StrictlyOrdered(ModeOrder, modes) && forall m :: m in modes <==> m in [Worktree]
    ensures modes == [Worktree]
  {
    SameMembersSameList(ModeOrder, modes, [Worktree]);
  }

  function NewEntry(id: nat, capability: Capability): Entry {
    Entry(NewTask(TaskRequest(capability), 0), [Event(id, 1, TaskQueued, EmptyObject, 0)])
  }

  lemma RequestIsAuthorised(writes: bool, capability: Capability)
    requires capability == Read || (writes && capability == Write)
    ensures PreChecks(GrantsWith(writes), Some(PROFILE), TaskRequest(capability)) == Ok(Worktree)
    ensures Authorize(GrantsWith(writes)["d"], RequestFor(TaskRequest(capability), Worktree)).None?
  {
    hide Validate, RequiredCapabilities, GrantsWith;
    RequestIsValid(capability);
    GrantIsCreated(writes);
    assert SelectWorkspaceMode(Some(Worktree), GrantsWith(writes)["d"].policy, false) == Ok(Worktree);
  }

  /** The task is enqueued as it was asked for. */
  lemma RequestIsEnqueued(db: Db, writes: bool, capability: Capability)
    requires capability == Read || (writes && capability == Write)
    ensures Enqueue(db, GrantsWith(writes), Some(PROFILE), TaskRequest(capability), 0)
            == Outcome(db.(entries := db.entries + [NewEntry(|db.entries|, capability)]), Ok(|db.entries|))
  {
    hide PreChecks, Authorize, GrantsWith, Validate;
    RequestIsValid(capability);
    GrantIsCreated(writes);
    RequestIsAuthorised(writes, capability);
    var input := TaskRequest(capability);
    assert input.(workspaceMode := Some(Worktree), providerId := Some(PROFILE.providerId), model := Some(PROFILE.model),
                  permissionMode := Some(PROFILE.permissionMode)) == input;
  }

  /** The lock a task asks for: exclusive if it writes, else shared. */
  lemma LockOfRequest(writes: bool, capability: Capability, id: nat)
    requires capability == if writes then Write else Read
    ensures "d" in GrantsWith(writes)
    ensures LockModeOf(NewEntry(id, capability).task, GrantsWith(writes)["d"]) == if writes then Exclusive else Shared
  {
    hide GrantsWith, RequiredCapabilities;
    RequestIsValid(capability);
    GrantIsCreated(writes);
    assert writes ==> Write in RequiredCapabilities(TaskRequest(capability));
  }

  lemma NewEntryIsQueued(id: nat, capability: Capability)
    ensures
      var entry := NewEntry(id, capability);
      && entry.task.status == Queued && entry.task.spec.directoryId == "d" && Numbered(entry.log, id)
      && capability in entry.task.spec.requiredCapabilities
  {
    RequestIsValid(capability);
    hide RequiredCapabilities;
  }

  /** The same reading task, with metadata of its own, and with or without the profile's
      provider, model and permission mode spelled out. */
  function Addressed(metadata: Option<Metadata>, bare: bool): CreateTask {
    var input := TaskRequest(Read).(metadata := metadata);
    if bare then input.(providerId := None, model := None, permissionMode := None) else input
  }

  lemma AddressedIsEnqueued(db: Db, metadata: Option<Metadata>, bare: bool)
    requires metadata.Some? ==> metadata.value.Object? && metadata.value.approvedByScope.None?
    ensures Enqueue(db, GrantsWith(false), Some(PROFILE), Addressed(metadata, bare), 0).result == Ok(|db.entries|)
  {
    hide GrantsWith, Validate, RequiredCapabilities;
    GrantIsCreated(false);
    var input := Addressed(metadata, bare);
    AddressedIsValid(metadata, bare);
    assert SelectWorkspaceMode(Some(Worktree), GrantsWith(false)["d"].policy, false) == Ok(Worktree);
    assert PreChecks(GrantsWith(false), Some(PROFILE), input) == Ok(Worktree);
    assert Authorize(GrantsWith(false)["d"], RequestFor(input, Worktree)).None?;
    var checked := input.(workspaceMode := Some(Worktree), providerId := Some(PROFILE.providerId), model := Some(PROFILE.model),
                          permissionMode := Some(PROFILE.permissionMode));
    hide PreChecks, Authorize;
    assert checked == Addressed(metadata, false);
    AddressedIsValid(metadata, false);
  }

  lemma AddressedIsValid(metadata: Option<Metadata>, bare: bool)
    requires metadata.Some? ==> metadata.value.Object?
    ensures Validate(Addressed(metadata, bare)).None?
    ensures forall c :: c in RequiredCapabilities(Addressed(metadata, bare)) <==> c == Read
  {
    RequestIsValid(Read);
    assert RequiredCapabilities(Addressed(metadata, bare)) == RequiredCapabilities(TaskRequest(Read));
  }
}
