/** Tasks dispatched by the control plane: taken in once per remote id, and cancelled by it. */
module Dispatch {
  import opened Results
  import opened Ordering
  import opened Lifecycle
  import opened TaskModel
  import opened Directory
  import opened Grants
  import opened Store
  import opened Scheduler
  import opened Enqueueing
  import opened Engines

  datatype RemoteTask = RemoteTask(
    remoteTaskId: string, ownerProductId: string, agentId: string, directoryId: string, prompt: string,
    requiredCapabilities: seq<string>, workspaceMode: string, timeoutSeconds: Option<nat>, taskToken: string)

  datatype DispatchError = InvalidDispatch | FromScheduler(error: ValidationError)

  function ParseCapability(name: string): Option<Capability> {
    if name == "read" then Some(Read)
    else if name == "write" then Some(Write)
    else if name == "shell" then Some(Shell)
    else if name == "git" then Some(Git)
    else None
  }

  function ParseCapabilities(names: seq<string>): Option<seq<Capability>> {
    if names == [] then Some([])
    else
      match (ParseCapabilities(names[..|names| - 1]), ParseCapability(names[|names| - 1]))
      case (Some(before), Some(c)) => Some(before + [c])
      case _ => None
  }

  function ParseMode(name: string): Option<WorkspaceMode> {
    if name == "worktree" then Some(Worktree) else if name == "direct" then Some(Direct) else None
  }

  /** The local task a dispatch asks for. */
  function InputFor(remote: RemoteTask): Option<CreateTask> {
    match (ParseCapabilities(remote.requiredCapabilities), ParseMode(remote.workspaceMode))
    case (Some(capabilities), Some(mode)) =>
      Some(CreateTask(
        remote.ownerProductId, remote.agentId, remote.directoryId, remote.prompt, Some(capabilities), Some(mode), mode.Direct?,
        Some(Object(Some(ControlPlane(Some(remote.remoteTaskId), Some(remote.taskToken))), None)),
        None, None, None, remote.timeoutSeconds))
    case _ => None
  }

  predicate IsRemote(entry: Entry, remoteTaskId: string) {
    RemoteTaskId(entry.task.spec.metadata) == Some(remoteTaskId)
  }

  /** The first task that carries the remote id. */
  function FindRemote(entries: seq<Entry>, remoteTaskId: string): (r: Option<nat>)
    ensures r.Some? ==> r.value < |entries| && IsRemote(entries[r.value], remoteTaskId)
    ensures r.None? ==> forall i :: 0 <= i < |entries| ==> !IsRemote(entries[i], remoteTaskId)
  {
    if entries == [] then None
    else
      match FindRemote(entries[..|entries| - 1], remoteTaskId)
      case Some(i) => Some(i)
      case None => if IsRemote(entries[|entries| - 1], remoteTaskId) then Some(|entries| - 1) else None
  }

  datatype Handled<+T> = Handled(db: Db, result: Result<T, DispatchError>)

  function Ingest(db: Db, grants: GrantTable, profile: Option<Profile>, remote: RemoteTask, now: Timestamp): Handled<nat> {
    match FindRemote(db.entries, remote.remoteTaskId)
    case Some(id) => Handled(db, Ok(id))
    case None =>
      match InputFor(remote)
      case None => Handled(db, Err(InvalidDispatch))
      case Some(input) =>
        var r := Enqueue(db, grants, profile, input, now);
        Handled(r.db, match r.result case Ok(id) => Ok(id) case Err(e) => Err(FromScheduler(e)))
  }

  function CancelRemote(db: Db, remoteTaskId: string, now: Timestamp): Handled<nat> {
    match FindRemote(db.entries, remoteTaskId)
    case None => Handled(db, Err(InvalidDispatch))
    case Some(id) =>
      var r := CancelTask(db, id, now);
      Handled(r.db, match r.result case Ok(_) => Ok(id) case Err(e) => Err(FromScheduler(e)))
  }

  // ---- What a first dispatch leaves -------------------------------------

  predicate IsCapabilityName(name: string) {
    name == "read" || name == "write" || name == "shell" || name == "git"
  }

  /** Every capability has one of the four names, and the mode one of the two. */
  ghost predicate IsUnderstood(remote: RemoteTask) {
    && (forall name :: name in remote.requiredCapabilities ==> IsCapabilityName(name))
    && (remote.workspaceMode == "worktree" || remote.workspaceMode == "direct")
  }

  /** A capability is asked for exactly when its name is. */
  ghost predicate AsNamed(capabilities: seq<Capability>, names: seq<string>) {
    && (Capability.Read in capabilities <==> "read" in names)
    && (Write in capabilities <==> "write" in names)
    && (Shell in capabilities <==> "shell" in names)
    && (Git in capabilities <==> "git" in names)
  }

  /** The request for a local task that says what the message says. */
  ghost predicate Conveys(input: CreateTask, remote: RemoteTask) {
    && input.requiredCapabilities.Some?
    && AsNamed(input.requiredCapabilities.value, remote.requiredCapabilities)
    && (input.requiredCapabilities.value == [] <==> remote.requiredCapabilities == [])
    && input.workspaceMode == (if remote.workspaceMode == "direct" then Some(Direct) else Some(Worktree))
    && input.directOptIn == (remote.workspaceMode == "direct")
    && input == CreateTask(
         remote.ownerProductId, remote.agentId, remote.directoryId, remote.prompt,
         input.requiredCapabilities, input.workspaceMode, input.directOptIn,
         Some(Object(Some(ControlPlane(Some(remote.remoteTaskId), Some(remote.taskToken))), None)),
         None, None, None, remote.timeoutSeconds)
  }

  lemma {:induction false} NamesAreParsed(names: seq<string>)
    ensures
      var r := ParseCapabilities(names);
      && (r.Some? <==> forall name :: name in names ==> IsCapabilityName(name))
      && (r.Some? ==> AsNamed(r.value, names) && |r.value| == |names|)
  {
    if names != [] {
      var init, last := names[..|names| - 1], names[|names| - 1];
      NamesAreParsed(init);
      assert forall name :: name in names <==> name in init || name == last;
      assert ParseCapability(last).Some? <==> IsCapabilityName(last);
      assert ParseCapabilities(names).Some? <==> ParseCapabilities(init).Some? && ParseCapability(last).Some?;
    }
  }

  lemma UnderstoodIsConveyed(remote: RemoteTask)
    ensures IsUnderstood(remote) <==> InputFor(remote).Some?
    ensures InputFor(remote).Some? ==> Conveys(InputFor(remote).value, remote)
  {
    hide ParseCapabilities;
    NamesAreParsed(remote.requiredCapabilities);
  }

  /** The row a dispatch leads to: everything the message says, the address it can be
      called back at, and what the profile adds. */
  ghost predicate IsDispatched(task: Task, remote: RemoteTask, profile: Profile, now: Timestamp) {
    && task.status == Queued
    && AsNamed(task.spec.requiredCapabilities, remote.requiredCapabilities)
    && task.spec == TaskSpec(
         remote.ownerProductId, remote.agentId, remote.directoryId, task.spec.requiredCapabilities,
         if remote.workspaceMode == "direct" then Direct else Worktree, remote.workspaceMode == "direct", remote.prompt,
         Some(Object(Some(ControlPlane(Some(remote.remoteTaskId), Some(remote.taskToken))), None)),
         profile.providerId, profile.model, profile.permissionMode, remote.timeoutSeconds, now)
  }

  /** Requests that say the same are answered alike: it does not matter in which order, or
      how often, they name their capabilities. */
  lemma SameRequestSameAnswer(
      db: Db, grants: GrantTable, profile: Option<Profile>, input: CreateTask, same: CreateTask, remote: RemoteTask, now: Timestamp)
    requires Conveys(input, remote) && Conveys(same, remote)
    ensures Enqueue(db, grants, profile, input, now) == Enqueue(db, grants, profile, same, now)
  {
    forall c: Capability ensures c in RequiredCapabilities(input) <==> c in RequiredCapabilities(same) {
      match c case Read => case Write => case Shell => case Git =>
    }
    SameMembersSameList(CapabilityOrder, RequiredCapabilities(input), RequiredCapabilities(same));
    SameCapabilitiesSameAnswer(db, grants, profile, input, same, now);
  }

  lemma SameCapabilitiesSameAnswer(
      db: Db, grants: GrantTable, profile: Option<Profile>, input: CreateTask, same: CreateTask, now: Timestamp)
    requires same == input.(requiredCapabilities := same.requiredCapabilities)
    requires RequiredCapabilities(input) == RequiredCapabilities(same)
    ensures Enqueue(db, grants, profile, input, now) == Enqueue(db, grants, profile, same, now)
  {
    hide NormalizeCapabilities;
    assert PreChecks(grants, profile, input) == PreChecks(grants, profile, same);
  }

  lemma RowIsDispatched(task: Task, input: CreateTask, remote: RemoteTask, profile: Profile, now: Timestamp)
    requires Conveys(input, remote) && IsRowOf(task, input, profile, now) && Some(task.spec.workspaceMode) == input.workspaceMode
    ensures IsDispatched(task, remote, profile, now)
  {
    assert forall c :: c in task.spec.requiredCapabilities <==> Requires(input, c);
  }

  /** A message for a remote id that no task carries is invalid exactly when it is not
      understood. Otherwise the task it describes is enqueued or refused as any task is, and
      the row says what the message said. */
  lemma FirstDispatchIsExactly(
      db: Db, grants: GrantTable, profile: Option<Profile>, remote: RemoteTask, input: CreateTask, now: Timestamp)
    requires forall i :: 0 <= i < |db.entries| ==> !IsRemote(db.entries[i], remote.remoteTaskId)
    requires Conveys(input, remote)
    ensures
      var r := Ingest(db, grants, profile, remote, now);
      var mode := if remote.workspaceMode == "direct" then Direct else Worktree;
      && (r.result == Err(InvalidDispatch) <==> !IsUnderstood(remote))
      && (r.result.Ok? <==> IsUnderstood(remote) && IsEnqueueable(grants, profile, input, mode))
      && (r.result.Err? ==> r.db == db)
      && (r.result.Err? && IsUnderstood(remote) ==>
            var refusal := Enqueue(db, grants, profile, input, now).result;
            refusal.Err? && r.result.error == FromScheduler(refusal.error))
      && (r.result.Ok? ==>
            && profile.Some?
            && r.result.value == |db.entries| == |r.db.entries| - 1
            && r.db == db.(entries := db.entries + [r.db.entries[|db.entries|]])
            && IsDispatched(r.db.entries[|db.entries|].task, remote, profile.value, now))
  {
    hide Enqueue, InputFor, IsEnqueueable, IsRowOf, IsDispatched;
    UnderstoodIsConveyed(remote);
    if IsUnderstood(remote) {
      SameRequestSameAnswer(db, grants, profile, InputFor(remote).value, input, remote, now);
      EnqueueAcceptsExactly(db, grants, profile, input, now);
      forall mode | IsEnqueueable(grants, profile, input, mode) ensures Some(mode) == input.workspaceMode {
        OnlyOneMode(grants, profile, input, mode);
      }
      var r := Enqueue(db, grants, profile, input, now);
      if r.result.Ok? {
        RowIsDispatched(r.db.entries[|db.entries|].task, input, remote, profile.value, now);
      }
    }
  }

  /** A cancel is invalid exactly when no task carries the remote id, and then changes nothing. */
  lemma CancelIsRefusedExactly(db: Db, remoteTaskId: string, now: Timestamp)
    ensures
      var r := CancelRemote(db, remoteTaskId, now);
      && (r.result == Err(InvalidDispatch) <==> forall i :: 0 <= i < |db.entries| ==> !IsRemote(db.entries[i], remoteTaskId))
      && (r.result == Err(InvalidDispatch) ==> r.db == db)
      && (r.result.Ok? ==> r.result.value < |db.entries| && IsRemote(db.entries[r.result.value], remoteTaskId))
  {
    hide CancelTask, IsRemote;
  }

  // ---- The service as the program runs it -------------------------------

  class DispatchService {
    const engine: Engine

    constructor (engine: Engine)
      ensures this.engine == engine
    {
      this.engine := engine;
    }

    method FindByRemoteTaskId(remoteTaskId: string) returns (r: Option<nat>)
      ensures r == FindRemote(engine.tasks.entries, remoteTaskId)
    {
      var entries, i := engine.tasks.entries, 0;
      while i < |entries|
        invariant 0 <= i <= |entries|
        invariant FindRemote(entries[..i], remoteTaskId).None?
      {
        assert entries[..i + 1][..i] == entries[..i];
        if IsRemote(entries[i], remoteTaskId) {
          FirstIsFound(entries, remoteTaskId, i);
          return Some(i);
        }
        i := i + 1;
      }
      assert entries[..i] == entries;
      r := None;
    }

    method IngestTask(profile: Option<Profile>, remote: RemoteTask, now: Timestamp) returns (r: Result<nat, DispatchError>)
      modifies engine.tasks
      ensures Handled(engine.tasks.Contents(), r) == Ingest(old(engine.tasks.Contents()), engine.directories.grants, profile, remote, now)
    {
      hide Enqueue, InputFor;
      var existing := FindByRemoteTaskId(remote.remoteTaskId);
      if existing.Some? {
        return Ok(existing.value);
      }
      var input := InputFor(remote);
      if input.None? {
        return Err(InvalidDispatch);
      }
      var created := engine.EnqueueTask(profile, input.value, now);
      r := match created case Ok(id) => Ok(id) case Err(e) => Err(FromScheduler(e));
    }

    method CancelRemoteTask(remoteTaskId: string, now: Timestamp) returns (r: Result<nat, DispatchError>)
      modifies engine.tasks
      ensures Handled(engine.tasks.Contents(), r) == CancelRemote(old(engine.tasks.Contents()), remoteTaskId, now)
    {
      hide CancelTask;
      var existing := FindByRemoteTaskId(remoteTaskId);
      if existing.None? {
        return Err(InvalidDispatch);
      }
      var cancelled := engine.CancelTaskById(existing.value, now);
      r := match cancelled case Ok(_) => Ok(existing.value) case Err(e) => Err(FromScheduler(e));
    }
  }

  lemma {:induction false} FirstIsFound(entries: seq<Entry>, remoteTaskId: string, i: nat)
    requires i < |entries| && IsRemote(entries[i], remoteTaskId)
    requires FindRemote(entries[..i], remoteTaskId).None?
    ensures FindRemote(entries, remoteTaskId) == Some(i)
  {
    var n := |entries| - 1;
    if i < n {
      assert entries[..n][..i] == entries[..i];
      FirstIsFound(entries[..n], remoteTaskId, i);
    }
  }
}
