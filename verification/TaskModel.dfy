/** Tasks, the request that creates one, and the result an execution leaves behind. */
module TaskModel {
  import opened Results
  import opened Text
  import opened Lifecycle
  import opened Directory

  const MAX_TASK_TIMEOUT_SECONDS := 86_400

  type Timestamp = int

  /** The `control_plane` object of a task's metadata; either field may be missing or not a string. */
  datatype ControlPlane = ControlPlane(remoteTaskId: Option<string>, taskToken: Option<string>)

  datatype Metadata =
    | NotAnObject
    | Object(controlPlane: Option<ControlPlane>, approvedByScope: Option<bool>)

  datatype TaskResult = TaskResult(taskId: nat, status: TaskStatus, finalMessage: string)

  /** What is fixed when a task is created. */
  datatype TaskSpec = TaskSpec(
    ownerProductId: string,
    agentId: string,
    directoryId: string,
    requiredCapabilities: seq<Capability>,
    workspaceMode: WorkspaceMode,
    directOptIn: bool,
    prompt: string,
    metadata: Option<Metadata>,
    providerId: string,
    model: string,
    permissionMode: string,
    timeoutSeconds: Option<nat>,
    createdAt: Timestamp)

  datatype Stamps = Stamps(
    startedAt: Option<Timestamp>,
    completedAt: Option<Timestamp>,
    cancelledAt: Option<Timestamp>,
    failedAt: Option<Timestamp>)

  datatype Task = Task(spec: TaskSpec, status: TaskStatus, stamps: Stamps, result: Option<TaskResult>, updatedAt: Timestamp)

  datatype CreateTask = CreateTask(
    ownerProductId: string,
    agentId: string,
    directoryId: string,
    prompt: string,
    requiredCapabilities: Option<seq<Capability>>,
    workspaceMode: Option<WorkspaceMode>,
    directOptIn: bool,
    metadata: Option<Metadata>,
    providerId: Option<string>,
    model: Option<string>,
    permissionMode: Option<string>,
    timeoutSeconds: Option<nat>)

  datatype ModelError = InvalidTask | InvalidPrompt

  function RequiredCapabilities(input: CreateTask): seq<Capability> {
    NormalizeCapabilities(if input.requiredCapabilities.Some? then input.requiredCapabilities.value else [Read])
  }

  function Validate(input: CreateTask): Option<ModelError> {
    if IsBlank(input.ownerProductId) || IsBlank(input.agentId) || IsBlank(input.directoryId) then Some(InvalidTask)
    else if IsBlank(input.prompt) then Some(InvalidPrompt)
    else if RequiredCapabilities(input) == [] then Some(InvalidTask)
    else if input.metadata.Some? && input.metadata.value.NotAnObject? then Some(InvalidTask)
    else if input.timeoutSeconds.Some? &&
            (input.timeoutSeconds.value == 0 || input.timeoutSeconds.value > MAX_TASK_TIMEOUT_SECONDS) then
      Some(InvalidTask)
    else None
  }

  // ---- What a request must be -------------------------------------------

  /** There is more to it than white space. */
  predicate HasText(s: string) {
    exists c | c in s :: !IsWhitespace(c)
  }

  /** Owner, agent and directory are there. */
  predicate IsNamed(input: CreateTask) {
    HasText(input.ownerProductId) && HasText(input.agentId) && HasText(input.directoryId)
  }

  predicate Requires(input: CreateTask, c: Capability) {
    if input.requiredCapabilities.Some? then c in input.requiredCapabilities.value else c == Read
  }

  /** Some capability is asked for, the metadata is an object if there is any, and a timeout
      is positive and at most a day. */
  predicate HasFitOptions(input: CreateTask) {
    && input.requiredCapabilities != Some([])
    && input.metadata != Some(NotAnObject)
    && (input.timeoutSeconds.Some? ==> 1 <= input.timeoutSeconds.value <= 86_400)
  }

  /** A request is valid when its texts say something and its options fit; a blank prompt is
      named only if owner, agent and directory are there. */
  lemma ValidExactly(input: CreateTask)
    ensures
      var r := Validate(input);
      && (r.None? <==> IsNamed(input) && HasText(input.prompt) && HasFitOptions(input))
      && (r == Some(InvalidPrompt) <==> IsNamed(input) && !HasText(input.prompt))
  {
    if input.requiredCapabilities.Some? && input.requiredCapabilities.value != [] {
      assert input.requiredCapabilities.value[0] in RequiredCapabilities(input);
    }
    if input.requiredCapabilities.None? {
      assert [Read][0] in RequiredCapabilities(input);
    }
    assert forall c :: c in RequiredCapabilities(input) ==> Requires(input, c);
  }

  lemma RequiredExactly(input: CreateTask, c: Capability)
    ensures c in RequiredCapabilities(input) <==> Requires(input, c)
  {
  }

  /** The remote task id `find_by_remote_task_id` looks for. */
  function RemoteTaskId(metadata: Option<Metadata>): Option<string> {
    if metadata.Some? && metadata.value.Object? && metadata.value.controlPlane.Some?
    then metadata.value.controlPlane.value.remoteTaskId
    else None
  }
}
