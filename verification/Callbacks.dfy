/**
 The callbacks a control-plane client sends while tasks run: `delivered` suppresses
 repeats, keyed by real event numbers for ends and by negative sentinels for claims
 and starts. Channel events may be repeated, lost or reordered.
 */
module Callbacks {
  import opened Results
  import opened Lifecycle
  import opened TaskModel
  import opened Store
  import opened StoreInvariants
  import opened TaskStores
  import opened Scheduler
  import opened TaskSystem
  import Admission
  import opened Dispatch
  import EventStreams

  datatype Notice = Claimed | Started | Ended(status: TaskStatus)

  datatype Callback = Callback(notice: Notice, remoteTaskId: string, taskToken: string, taskId: nat, key: int)

  datatype CallbackError = InvalidMessage | MissingTask

  type Delivered = set<(nat, int)>

  /** What one call answers, with the set it leaves behind. */
  datatype Answer = Answer(delivered: Delivered, result: Result<Option<Callback>, CallbackError>)

  function StateSequence(status: TaskStatus): int {
    match status
    case WaitingDirectoryLock => -1
    case Running => -2
    case _ => 0
  }

  function ControlPlaneOf(task: Task): Option<ControlPlane> {
    if task.spec.metadata.Some? && task.spec.metadata.value.Object? then task.spec.metadata.value.controlPlane else None
  }

  /** Sends the notice unless its key has been used. */
  function Once(delivered: Delivered, task: Task, id: nat, notice: Notice, key: int): Answer {
    match ControlPlaneOf(task)
    case None => Answer(delivered, Ok(None))
    case Some(controlPlane) =>
      if controlPlane.remoteTaskId.None? || controlPlane.taskToken.None? then Answer(delivered, Err(InvalidMessage))
      else if (id, key) in delivered then Answer(delivered, Ok(None))
      else Answer(delivered + {(id, key)},
                  Ok(Some(Callback(notice, controlPlane.remoteTaskId.value, controlPlane.taskToken.value, id, key))))
  }

  function ForTaskState(delivered: Delivered, task: Task, id: nat): Answer {
    match task.status
    case WaitingDirectoryLock => Once(delivered, task, id, Claimed, StateSequence(task.status))
    case Running => Once(delivered, task, id, Started, StateSequence(task.status))
    case _ => Answer(delivered, Ok(None))
  }

  function ForEvent(delivered: Delivered, db: Db, event: Event): Answer {
    if !event.eventType.IsTerminal() then Answer(delivered, Ok(None))
    else if event.taskId >= |db.entries| then Answer(delivered, Err(MissingTask))
    else Once(delivered, db.entries[event.taskId].task, event.taskId, Ended(StatusOf(event.eventType).value), event.sequence)
  }

  /** The task-event arm of the session loop. */
  function OnTaskEvent(delivered: Delivered, db: Db, event: Event): Answer {
    if event.eventType.TaskWaitingDirectoryLock? || event.eventType.TaskRunning? then
      if event.taskId >= |db.entries| then Answer(delivered, Err(MissingTask))
      else ForTaskState(delivered, db.entries[event.taskId].task, event.taskId)
    else ForEvent(delivered, db, event)
  }

  // ---- The client beside the engine -------------------------------------

  /** `sent` lists the callbacks made, oldest first; an error stops the client for good. */
  datatype Client = Client(sys: Sys, delivered: Delivered, sent: seq<Callback>, stopped: bool)

  datatype ClientStep =
    | EngineStep(step: Step)
    | DispatchStep(profile: Option<Profile>, remote: RemoteTask)
    | CancelRemoteStep(remoteTaskId: string)
    | EventStep(event: Event)

  function Note(c: Client, answer: Answer): Client {
    match answer.result
    case Err(_) => c.(delivered := answer.delivered, stopped := true)
    case Ok(None) => c.(delivered := answer.delivered)
    case Ok(Some(callback)) => c.(delivered := answer.delivered, sent := c.sent + [callback])
  }

  function Advance(max: nat, c: Client, step: ClientStep, now: Timestamp): Client {
    match step
    case EngineStep(step) => c.(sys := Next(max, c.sys, step, now))
    case DispatchStep(profile, remote) =>
      if c.stopped then c
      else
        var r := Ingest(c.sys.db, c.sys.grants, profile, remote, now);
        c.(sys := c.sys.(db := r.db), stopped := r.result.Err?)
    case CancelRemoteStep(remoteTaskId) =>
      if c.stopped then c
      else
        var r := CancelRemote(c.sys.db, remoteTaskId, now);
        c.(sys := c.sys.(db := r.db), stopped := r.result.Err?)
    case EventStep(event) => if c.stopped then c else Note(c, OnTaskEvent(c.delivered, c.sys.db, event))
  }

  /** The channel carries stored events, each any number of times and in any order. */
  ghost predicate Proper(c: Client, step: ClientStep) {
    match step
    case EngineStep(step) => Permitted(c.sys, step)
    case EventStep(event) => event.taskId < |c.sys.db.entries| && event in c.sys.db.entries[event.taskId].log
    case _ => true
  }

  type ClientRun = seq<(ClientStep, Timestamp)>

  const INITIAL_CLIENT := Client(INITIAL, {}, [], false)

  function ClientAfter(max: nat, steps: ClientRun): Client {
    if steps == [] then INITIAL_CLIENT
    else Advance(max, ClientAfter(max, steps[..|steps| - 1]), steps[|steps| - 1].0, steps[|steps| - 1].1)
  }

  ghost predicate IsClientRun(max: nat, steps: ClientRun) {
    steps != [] ==>
      IsClientRun(max, steps[..|steps| - 1]) && Proper(ClientAfter(max, steps[..|steps| - 1]), steps[|steps| - 1].0)
  }

  // ---- What every step keeps --------------------------------------------

  function Stage(notice: Notice): nat {
    match notice case Claimed => 1 case Started => 2 case Ended(_) => 3
  }

  /** How far a task must have come for the notice to be true. */
  function NoticeRank(notice: Notice): nat {
    match notice case Claimed => 1 case Started => 3 case Ended(_) => 4
  }

  ghost predicate KeyOk(callback: Callback, log: Log) {
    match callback.notice
    case Claimed => callback.key == -1
    case Started => callback.key == -2
    case Ended(status) =>
      && status.IsTerminal()
      && 1 <= callback.key <= |log|
      && log[callback.key - 1].eventType == EventTypeForStatus(status)
  }

  /** Where a task's callbacks go: the two strings of its control-plane object, if it has one. */
  datatype Address = Nowhere | Broken | At(remoteTaskId: string, taskToken: string)

  function AddressOf(task: Task): Address {
    match task.spec.metadata
    case Some(Object(Some(ControlPlane(Some(remoteTaskId), Some(taskToken))), _)) => At(remoteTaskId, taskToken)
    case Some(Object(Some(_), _)) => Broken
    case _ => Nowhere
  }

  /** A callback that was sent is true of its task, goes to its address and has used up its key. */
  ghost predicate SentOk(callback: Callback, entries: seq<Entry>, delivered: Delivered) {
    && callback.taskId < |entries|
    && AddressOf(entries[callback.taskId].task) == At(callback.remoteTaskId, callback.taskToken)
    && (callback.taskId, callback.key) in delivered
    && Rank(entries[callback.taskId].task.status) >= NoticeRank(callback.notice)
    && KeyOk(callback, entries[callback.taskId].log)
  }

  ghost predicate AllSentOk(sent: seq<Callback>, entries: seq<Entry>, delivered: Delivered) {
    forall i :: 0 <= i < |sent| ==> SentOk(sent[i], entries, delivered)
  }

  ghost predicate InStages(sent: seq<Callback>) {
    forall i, j :: 0 <= i < j < |sent| && sent[i].taskId == sent[j].taskId ==> Stage(sent[i].notice) < Stage(sent[j].notice)
  }

  ghost predicate KeysUsed(sent: seq<Callback>, delivered: Delivered) {
    forall t, k :: (t, k) in delivered ==> exists i :: 0 <= i < |sent| && sent[i].taskId == t && sent[i].key == k
  }

  ghost predicate ClientOk(max: nat, c: Client) {
    && SysOk(max, c.sys)
    && AllSentOk(c.sent, c.sys.db.entries, c.delivered)
    && InStages(c.sent)
    && KeysUsed(c.sent, c.delivered)
  }

  lemma GrowthKeepsSent(sent: seq<Callback>, db: Db, db': Db, delivered: Delivered)
    requires AllSentOk(sent, db.entries, delivered) && Grows(db, db')
    ensures AllSentOk(sent, db'.entries, delivered)
  {
    forall i | 0 <= i < |sent|
      ensures SentOk(sent[i], db'.entries, delivered)
    {
      assert SentOk(sent[i], db.entries, delivered);
      assert EntryGrows(db.entries[sent[i].taskId], db'.entries[sent[i].taskId]);
    }
  }

  // ---- Engine steps -----------------------------------------------------

  lemma EngineStepKeeps(max: nat, c: Client, step: Step, now: Timestamp)
    requires ClientOk(max, c) && Permitted(c.sys, step)
    ensures ClientOk(max, c.(sys := Next(max, c.sys, step, now)))
  {
    hide SysOk, Grows, AllSentOk, InStages, KeysUsed;
    StepKeeps(max, c.sys, step, now);
    GrowthKeepsSent(c.sent, c.sys.db, Next(max, c.sys, step, now).db, c.delivered);
  }

  lemma DispatchKeeps(max: nat, c: Client, profile: Option<Profile>, remote: RemoteTask, now: Timestamp)
    requires ClientOk(max, c)
    ensures ClientOk(max, Advance(max, c, DispatchStep(profile, remote), now))
  {
    hide SysOk, AllSentOk, InStages, KeysUsed, Enqueue;
    if !c.stopped && FindRemote(c.sys.db.entries, remote.remoteTaskId).None? && InputFor(remote).Some? {
      EngineStepKeeps(max, c, EnqueueStep(profile, InputFor(remote).value), now);
    }
  }

  lemma CancelRemoteKeeps(max: nat, c: Client, remoteTaskId: string, now: Timestamp)
    requires ClientOk(max, c)
    ensures ClientOk(max, Advance(max, c, CancelRemoteStep(remoteTaskId), now))
  {
    hide SysOk, AllSentOk, InStages, KeysUsed, CancelTask;
    if !c.stopped && FindRemote(c.sys.db.entries, remoteTaskId).Some? {
      EngineStepKeeps(max, c, CancelStep(FindRemote(c.sys.db.entries, remoteTaskId).value), now);
    }
  }

  // ---- Events -----------------------------------------------------------

  /** Sending a callback that is true, with an unused key, and later in its task's life
      than everything sent before. */
  lemma SendKeeps(sent: seq<Callback>, entries: seq<Entry>, delivered: Delivered, callback: Callback)
    requires AllSentOk(sent, entries, delivered) && InStages(sent) && KeysUsed(sent, delivered)
    requires SentOk(callback, entries, delivered + {(callback.taskId, callback.key)})
    requires forall i :: 0 <= i < |sent| && sent[i].taskId == callback.taskId ==> Stage(sent[i].notice) < Stage(callback.notice)
    ensures
      var delivered' := delivered + {(callback.taskId, callback.key)};
      AllSentOk(sent + [callback], entries, delivered') && InStages(sent + [callback]) && KeysUsed(sent + [callback], delivered')
  {
    var sent', delivered' := sent + [callback], delivered + {(callback.taskId, callback.key)};
    forall i | 0 <= i < |sent'|
      ensures SentOk(sent'[i], entries, delivered')
    {
      assert i < |sent| ==> SentOk(sent[i], entries, delivered);
    }
    forall t, k | (t, k) in delivered'
      ensures exists i :: 0 <= i < |sent'| && sent'[i].taskId == t && sent'[i].key == k
    {
      if (t, k) in delivered {
        var i :| 0 <= i < |sent| && sent[i].taskId == t && sent[i].key == k;
        assert sent'[i] == sent[i];
      } else {
        assert sent'[|sent|] == callback;
      }
    }
  }

  /** A log has at most one terminal event. */
  lemma OneEnd(db: Db, id: nat, i: nat, j: nat)
    requires StoreOk(db) && id < |db.entries|
    requires i < |db.entries[id].log| && db.entries[id].log[i].eventType.IsTerminal()
    requires j < |db.entries[id].log| && db.entries[id].log[j].eventType.IsTerminal()
    ensures i == j
  {
    hide StoreOk, History;
    EventStreams.StoreLogsCanBeStreamed(db, id);
  }

  /** A callback that is true now, and whose key is unused, comes later than everything sent for its task. */
  lemma LaterThanAllSent(db: Db, delivered: Delivered, earlier: Callback, callback: Callback)
    requires StoreOk(db)
    requires SentOk(earlier, db.entries, delivered) && callback.taskId == earlier.taskId
    requires (callback.taskId, callback.key) !in delivered && KeyOk(callback, db.entries[callback.taskId].log)
    requires callback.notice.Ended? || Rank(db.entries[callback.taskId].task.status) == NoticeRank(callback.notice)
    ensures Stage(earlier.notice) < Stage(callback.notice)
  {
    hide StoreOk;
    if earlier.notice.Ended? && callback.notice.Ended? {
      OneEnd(db, callback.taskId, earlier.key - 1, callback.key - 1);
    }
  }

  /** The task has a control-plane object that lacks its remote id or its token. */
  predicate IsIncomplete(task: Task) {
    AddressOf(task).Broken?
  }

  /** The event is one that is reported, given the task's status by then. */
  predicate IsReported(task: Task, event: Event) {
    if event.eventType.TaskWaitingDirectoryLock? || event.eventType.TaskRunning?
    then task.status.WaitingDirectoryLock? || task.status.Running?
    else event.eventType.IsTerminal()
  }

  /** What an event makes the client send is true of the task it names, and it fails
      exactly when it is to be reported to an incomplete address. */
  lemma AnswerIsTrue(db: Db, delivered: Delivered, event: Event)
    requires StoreOk(db)
    requires event.taskId < |db.entries| && event in db.entries[event.taskId].log
    ensures
      var answer, task := OnTaskEvent(delivered, db, event), db.entries[event.taskId].task;
      && (answer.result.Err? <==> IsReported(task, event) && IsIncomplete(task))
      && (answer.result.Err? || answer.result.value.None? ==> answer.delivered == delivered)
      && (answer.result.Ok? && answer.result.value.Some? ==>
            var callback := answer.result.value.value;
            && callback.taskId == event.taskId
            && (callback.taskId, callback.key) !in delivered
            && answer.delivered == delivered + {(callback.taskId, callback.key)}
            && SentOk(callback, db.entries, answer.delivered)
            && (callback.notice.Ended? || Rank(db.entries[callback.taskId].task.status) == NoticeRank(callback.notice)))
  {
    hide StoreOk;
    var id := event.taskId;
    if event.eventType.IsTerminal() {
      OkIsNumbered(db, id);
      EndedTaskIsTerminal(db, id, event);
    }
  }

  lemma EndedTaskIsTerminal(db: Db, id: nat, event: Event)
    requires StoreOk(db) && id < |db.entries|
    requires event in db.entries[id].log && event.eventType.IsTerminal()
    ensures Rank(db.entries[id].task.status) == 4
    ensures 1 <= event.sequence <= |db.entries[id].log| && db.entries[id].log[event.sequence - 1] == event
  {
    hide StoreOk, History;
    var log := db.entries[id].log;
    EventStreams.StoreLogsCanBeStreamed(db, id);
    EventStreams.EndedMeans(log, id);
    var k :| 0 <= k < |log| && log[k] == event;
    assert EventStreams.EndedBy(log, |log|);
  }

  lemma EventKeeps(max: nat, c: Client, event: Event)
    requires ClientOk(max, c) && Proper(c, EventStep(event))
    ensures ClientOk(max, Note(c, OnTaskEvent(c.delivered, c.sys.db, event)))
  {
    hide StoreOk, OnTaskEvent, InStages, KeysUsed, SentOk;
    AnswerIsTrue(c.sys.db, c.delivered, event);
    var answer := OnTaskEvent(c.delivered, c.sys.db, event);
    if answer.result.Ok? && answer.result.value.Some? {
      var callback := answer.result.value.value;
      CallbackFacts(callback, c.sys.db.entries, answer.delivered);
      forall i | 0 <= i < |c.sent| && c.sent[i].taskId == callback.taskId
        ensures Stage(c.sent[i].notice) < Stage(callback.notice)
      {
        LaterThanAllSent(c.sys.db, c.delivered, c.sent[i], callback);
      }
      SendKeeps(c.sent, c.sys.db.entries, c.delivered, callback);
    }
  }

  lemma CallbackFacts(callback: Callback, entries: seq<Entry>, delivered: Delivered)
    requires SentOk(callback, entries, delivered)
    ensures callback.taskId < |entries| && KeyOk(callback, entries[callback.taskId].log)
  {
  }

  lemma AdvanceKeeps(max: nat, c: Client, step: ClientStep, now: Timestamp)
    requires ClientOk(max, c) && Proper(c, step)
    ensures ClientOk(max, Advance(max, c, step, now))
  {
    hide ClientOk, Ingest, CancelRemote, OnTaskEvent;
    match step
    case EngineStep(step) => EngineStepKeeps(max, c, step, now);
    case DispatchStep(profile, remote) => DispatchKeeps(max, c, profile, remote, now);
    case CancelRemoteStep(remoteTaskId) => CancelRemoteKeeps(max, c, remoteTaskId, now);
    case EventStep(event) => EventKeeps(max, c, event);
  }

  lemma {:induction false} RunKeepsClient(max: nat, steps: ClientRun)
    requires IsClientRun(max, steps)
    ensures ClientOk(max, ClientAfter(max, steps))
  {
    hide ClientOk, Advance;
    if steps == [] {
      InitialClientIsOk(max);
    } else {
      RunKeepsClient(max, steps[..|steps| - 1]);
      AdvanceKeeps(max, ClientAfter(max, steps[..|steps| - 1]), steps[|steps| - 1].0, steps[|steps| - 1].1);
    }
  }

  lemma InitialClientIsOk(max: nat)
    ensures ClientOk(max, INITIAL_CLIENT)
  {
    EmptyIsOk();
  }

  // ---- Main results -----------------------------------------------------

  /** The notices sent for one local task, oldest first. */
  function NoticesOf(sent: seq<Callback>, id: nat): seq<Notice> {
    if sent == [] then []
    else
      var last := sent[|sent| - 1];
      NoticesOf(sent[..|sent| - 1], id) + (if last.taskId == id then [last.notice] else [])
  }

  /** The notices sent for one remote task, oldest first. */
  function NoticesFor(sent: seq<Callback>, remoteTaskId: string): seq<Notice> {
    if sent == [] then []
    else
      var last := sent[|sent| - 1];
      NoticesFor(sent[..|sent| - 1], remoteTaskId) + (if last.remoteTaskId == remoteTaskId then [last.notice] else [])
  }

  /** xs is ys with some elements left out. */
  predicate IsSubsequence(xs: seq<Notice>, ys: seq<Notice>) {
    || xs == []
    || (ys != [] && if xs[0] == ys[0] then IsSubsequence(xs[1..], ys[1..]) else IsSubsequence(xs, ys[1..]))
  }

  ghost predicate Staged(notices: seq<Notice>) {
    forall i, j :: 0 <= i < j < |notices| ==> Stage(notices[i]) < Stage(notices[j])
  }

  lemma {:induction false} StagesClimb(notices: seq<Notice>, i: nat)
    requires Staged(notices) && i < |notices|
    ensures Stage(notices[i]) >= Stage(notices[0]) + i
  {
    if i > 0 {
      StagesClimb(notices, i - 1);
    }
  }

  /** What is left once every element of `full` before stage k has been passed. */
  lemma {:induction false} StagedIsSubsequence(notices: seq<Notice>, status: TaskStatus, k: nat)
    requires Staged(notices) && k <= 3
    requires forall n :: n in notices ==> Stage(n) > k && (n.Ended? ==> n.status == status)
    ensures IsSubsequence(notices, [Claimed, Started, Ended(status)][k..])
    decreases 3 - k
  {
    var full := [Claimed, Started, Ended(status)];
    if notices != [] {
      StagesClimb(notices, |notices| - 1);
      assert notices[0] in notices;
      assert full[k..][0] == full[k] && full[k..][1..] == full[k + 1..];
      var rest := if notices[0] == full[k] then notices[1..] else notices;
      assert forall i :: 0 < i < |notices| ==> Stage(notices[0]) < Stage(notices[i]);
      StagedIsSubsequence(rest, status, k + 1);
    }
  }

  lemma {:induction false} NoticesAreStaged(max: nat, c: Client, id: nat, n: nat)
    requires ClientOk(max, c) && n <= |c.sent|
    ensures
      var notices := NoticesOf(c.sent[..n], id);
      && Staged(notices)
      && forall m :: m in notices ==> exists i :: 0 <= i < n && c.sent[i].taskId == id && c.sent[i].notice == m
  {
    hide ClientOk;
    if n > 0 {
      NoticesAreStaged(max, c, id, n - 1);
      assert c.sent[..n][..n - 1] == c.sent[..n - 1];
      var before, last := NoticesOf(c.sent[..n - 1], id), c.sent[n - 1];
      if last.taskId == id {
        forall k | 0 <= k < |before|
          ensures Stage(before[k]) < Stage(last.notice)
        {
          assert before[k] in before;
          var i :| 0 <= i < n - 1 && c.sent[i].taskId == id && c.sent[i].notice == before[k];
          StageOrder(max, c, i, n - 1);
        }
      }
    }
  }

  lemma StageOrder(max: nat, c: Client, i: nat, j: nat)
    requires ClientOk(max, c) && i < j < |c.sent| && c.sent[i].taskId == c.sent[j].taskId
    ensures Stage(c.sent[i].notice) < Stage(c.sent[j].notice)
  {
    hide SysOk;
  }

  /** The end that was reported is the end the task came to. */
  lemma ReportedEndIsTrue(max: nat, c: Client, i: nat)
    requires ClientOk(max, c) && i < |c.sent| && c.sent[i].notice.Ended?
    ensures c.sent[i].taskId < |c.sys.db.entries|
    ensures c.sent[i].notice.status == c.sys.db.entries[c.sent[i].taskId].task.status
  {
    hide StoreOk, LocksOwned, ResultsMatch, ActiveCount, WorkersOk, InStages, KeysUsed;
    assert SentOk(c.sent[i], c.sys.db.entries, c.delivered);
    EndEventNamesTheStatus(c.sys.db, c.sent[i].taskId, c.sent[i].key - 1, c.sent[i].notice.status);
  }

  lemma EndEventNamesTheStatus(db: Db, id: nat, k: nat, status: TaskStatus)
    requires StoreOk(db) && id < |db.entries| && db.entries[id].task.status.IsTerminal() && status.IsTerminal()
    requires k < |db.entries[id].log| && db.entries[id].log[k].eventType == EventTypeForStatus(status)
    ensures status == db.entries[id].task.status
  {
    hide StoreOk, History, Stamped;
    OkIsNumbered(db, id);
    var entry := db.entries[id];
    HistoryMembers(entry.log, entry.task.status);
    var j :| 0 <= j < |entry.log| && entry.log[j].eventType == EventTypeForStatus(entry.task.status);
    OneEnd(db, id, j, k);
  }

  /** Over a whole client lifetime, whatever is repeated, lost or reordered on the channel
      and whatever metadata tasks are enqueued with, the callbacks for a task are [claimed,
      started, its end] with some left out: each at most once, in that order, and the end
      the true one. */
  lemma {:induction false} CallbacksFollowTheLifecycle(max: nat, steps: ClientRun, id: nat)
    requires IsClientRun(max, steps) && id < |ClientAfter(max, steps).sys.db.entries|
    ensures
      var c := ClientAfter(max, steps);
      IsSubsequence(NoticesOf(c.sent, id), [Claimed, Started, Ended(c.sys.db.entries[id].task.status)])
  {
    hide ClientOk, ClientAfter, IsSubsequence;
    RunKeepsClient(max, steps);
    FollowsTheLifecycle(max, ClientAfter(max, steps), id);
  }

  lemma FollowsTheLifecycle(max: nat, c: Client, id: nat)
    requires ClientOk(max, c) && id < |c.sys.db.entries|
    ensures IsSubsequence(NoticesOf(c.sent, id), [Claimed, Started, Ended(c.sys.db.entries[id].task.status)])
  {
    hide ClientOk, IsSubsequence;
    NoticesAreStaged(max, c, id, |c.sent|);
    assert c.sent[..|c.sent|] == c.sent;
    var notices, status := NoticesOf(c.sent, id), c.sys.db.entries[id].task.status;
    forall n | n in notices && n.Ended?
      ensures n.status == status
    {
      var i :| 0 <= i < |c.sent| && c.sent[i].taskId == id && c.sent[i].notice == n;
      ReportedEndIsTrue(max, c, i);
    }
    StagedIsSubsequence(notices, status, 0);
    assert [Claimed, Started, Ended(status)][0..] == [Claimed, Started, Ended(status)];
  }

  /** The task is the only one that carries the remote id. */
  ghost predicate OnlyCarrier(entries: seq<Entry>, remoteTaskId: string, id: nat) {
    id < |entries| && forall i :: 0 <= i < |entries| ==> (IsRemote(entries[i], remoteTaskId) <==> i == id)
  }

  lemma {:induction false} NoticesOfOnlyCarrier(max: nat, c: Client, remoteTaskId: string, id: nat, n: nat)
    requires ClientOk(max, c) && OnlyCarrier(c.sys.db.entries, remoteTaskId, id) && n <= |c.sent|
    ensures NoticesFor(c.sent[..n], remoteTaskId) == NoticesOf(c.sent[..n], id)
  {
    hide ClientOk, OnlyCarrier;
    if n > 0 {
      NoticesOfOnlyCarrier(max, c, remoteTaskId, id, n - 1);
      assert c.sent[..n][..n - 1] == c.sent[..n - 1];
      SentByTheTask(max, c, n - 1, remoteTaskId, id);
    }
  }

  lemma SentByTheTask(max: nat, c: Client, i: nat, remoteTaskId: string, id: nat)
    requires ClientOk(max, c) && i < |c.sent| && OnlyCarrier(c.sys.db.entries, remoteTaskId, id)
    ensures c.sent[i].taskId == id <==> c.sent[i].remoteTaskId == remoteTaskId
  {
    hide SysOk, InStages, KeysUsed;
    assert SentOk(c.sent[i], c.sys.db.entries, c.delivered);
  }

  /** So are the callbacks for a remote task, as long as one local task carries its id. */
  lemma {:induction false} RemoteCallbacksFollowTheLifecycle(max: nat, steps: ClientRun, remoteTaskId: string, id: nat)
    requires IsClientRun(max, steps) && OnlyCarrier(ClientAfter(max, steps).sys.db.entries, remoteTaskId, id)
    ensures
      var c := ClientAfter(max, steps);
      IsSubsequence(NoticesFor(c.sent, remoteTaskId), [Claimed, Started, Ended(c.sys.db.entries[id].task.status)])
  {
    hide ClientOk, ClientAfter, IsSubsequence;
    RunKeepsClient(max, steps);
    var c := ClientAfter(max, steps);
    FollowsTheLifecycle(max, c, id);
    NoticesOfOnlyCarrier(max, c, remoteTaskId, id, |c.sent|);
    assert c.sent[..|c.sent|] == c.sent;
  }

  /** Nothing is sent but to the remote id and with the token of the task it is about. */
  lemma {:induction false} StrangersAreNotCalled(max: nat, steps: ClientRun, i: nat)
    requires IsClientRun(max, steps) && i < |ClientAfter(max, steps).sent|
    ensures
      var c := ClientAfter(max, steps);
      var callback := c.sent[i];
      && callback.taskId < |c.sys.db.entries|
      && AddressOf(c.sys.db.entries[callback.taskId].task) == At(callback.remoteTaskId, callback.taskToken)
      && IsRemote(c.sys.db.entries[callback.taskId], callback.remoteTaskId)
  {
    hide SysOk, KeysUsed, InStages, ClientAfter, KeyOk;
    RunKeepsClient(max, steps);
    var c := ClientAfter(max, steps);
    assert SentOk(c.sent[i], c.sys.db.entries, c.delivered);
  }

  /** The sentinels never collide with event numbers: two callbacks with one key are
      the same notice of the same task, and there are no two. */
  lemma {:induction false} KeysNeverCollide(max: nat, steps: ClientRun, i: nat, j: nat)
    requires IsClientRun(max, steps) && i < |ClientAfter(max, steps).sent| && j < |ClientAfter(max, steps).sent|
    requires ClientAfter(max, steps).sent[i].taskId == ClientAfter(max, steps).sent[j].taskId
    ensures
      var sent := ClientAfter(max, steps).sent;
      (sent[i].key == sent[j].key <==> Stage(sent[i].notice) == Stage(sent[j].notice)) && (sent[i].key == sent[j].key <==> i == j)
  {
    hide SysOk, KeysUsed, ClientAfter;
    RunKeepsClient(max, steps);
    var c := ClientAfter(max, steps);
    assert SentOk(c.sent[i], c.sys.db.entries, c.delivered) && SentOk(c.sent[j], c.sys.db.entries, c.delivered);
  }

  /** A terminal event of a remote task fails exactly when the address is incomplete, and
      otherwise is passed over exactly when its end was sent before. */
  lemma {:induction false} SuppressedMeansSent(max: nat, steps: ClientRun, event: Event)
    requires IsClientRun(max, steps) && Proper(ClientAfter(max, steps), EventStep(event))
    requires
      var task := ClientAfter(max, steps).sys.db.entries[event.taskId].task;
      ControlPlaneOf(task).Some? && event.eventType.IsTerminal()
    ensures
      var c := ClientAfter(max, steps);
      var answer := OnTaskEvent(c.delivered, c.sys.db, event);
      && (answer.result.Err? <==> IsIncomplete(c.sys.db.entries[event.taskId].task))
      && (answer.result.Ok? ==>
            (answer.result.value.None? <==>
               exists i :: 0 <= i < |c.sent| && c.sent[i].taskId == event.taskId && c.sent[i].notice == Ended(StatusOf(event.eventType).value)))
  {
    hide SysOk, ClientAfter, InStages;
    RunKeepsClient(max, steps);
    SuppressedExactly(max, ClientAfter(max, steps), event);
  }

  lemma SuppressedExactly(max: nat, c: Client, event: Event)
    requires ClientOk(max, c) && Proper(c, EventStep(event))
    requires ControlPlaneOf(c.sys.db.entries[event.taskId].task).Some? && event.eventType.IsTerminal()
    ensures
      var answer := OnTaskEvent(c.delivered, c.sys.db, event);
      && (answer.result.Err? <==> IsIncomplete(c.sys.db.entries[event.taskId].task))
      && (answer.result.Ok? ==>
            (answer.result.value.None? <==>
               exists i :: 0 <= i < |c.sent| && c.sent[i].taskId == event.taskId && c.sent[i].notice == Ended(StatusOf(event.eventType).value)))
  {
    hide StoreOk, LocksOwned, ResultsMatch, ActiveCount, WorkersOk, InStages, KeysUsed, AllSentOk;
    EndedTaskIsTerminal(c.sys.db, event.taskId, event);
    EndKeyIsUsedExactly(c.sys.db, c.sent, c.delivered, event);
  }

  lemma EndKeyIsUsedExactly(db: Db, sent: seq<Callback>, delivered: Delivered, event: Event)
    requires StoreOk(db) && AllSentOk(sent, db.entries, delivered) && KeysUsed(sent, delivered)
    requires event.taskId < |db.entries| && event.eventType.IsTerminal()
    requires
      var log := db.entries[event.taskId].log;
      1 <= event.sequence <= |log| && log[event.sequence - 1] == event
    ensures (event.taskId, event.sequence) in delivered <==>
            exists i :: 0 <= i < |sent| && sent[i].taskId == event.taskId && sent[i].notice == Ended(StatusOf(event.eventType).value)
  {
    hide StoreOk, AddressOf, Rank, NoticeRank;
    if (event.taskId, event.sequence) in delivered {
      var i :| 0 <= i < |sent| && sent[i].taskId == event.taskId && sent[i].key == event.sequence;
      assert SentOk(sent[i], db.entries, delivered);
    }
    forall i | 0 <= i < |sent| && sent[i].taskId == event.taskId && sent[i].notice.Ended?
      ensures sent[i].key == event.sequence && (event.taskId, event.sequence) in delivered
    {
      assert SentOk(sent[i], db.entries, delivered);
      OneEnd(db, event.taskId, event.sequence - 1, sent[i].key - 1);
    }
  }

  // ---- What an event is answered with -----------------------------------

  /** The notice an event calls for, and the key it goes out under: a claim while the task
      waits, a start while it runs, whichever of the two events came; its own end on each of
      the four that end it. */
  ghost predicate CallsFor(task: Task, event: Event, notice: Notice, key: int) {
    if event.eventType == TaskWaitingDirectoryLock || event.eventType == TaskRunning then
      || (task.status == WaitingDirectoryLock && notice == Claimed && key == -1)
      || (task.status == Running && notice == Started && key == -2)
    else
      && key == event.sequence
      && (|| (event.eventType == TaskCompleted && notice == Ended(Completed))
          || (event.eventType == TaskFailed && notice == Ended(Failed))
          || (event.eventType == TaskCancelled && notice == Ended(Cancelled))
          || (event.eventType == TaskTimedOut && notice == Ended(TimedOut)))
  }

  ghost predicate WasSent(sent: seq<Callback>, id: nat, notice: Notice) {
    exists i :: 0 <= i < |sent| && sent[i].taskId == id && sent[i].notice == notice
  }

  /** A notice that is called for goes out to the task's address, unless it was sent before;
      it stops the client if the address is broken. */
  ghost predicate IsDone(c: Client, id: nat, notice: Notice, key: int, before: bool, c': Client)
    requires id < |c.sys.db.entries|
  {
    && c'.sys == c.sys
    && match AddressOf(c.sys.db.entries[id].task)
       case Nowhere => c'.sent == c.sent && !c'.stopped
       case Broken => c'.sent == c.sent && c'.stopped
       case At(remoteTaskId, taskToken) =>
         !c'.stopped && c'.sent == if before then c.sent else c.sent + [Callback(notice, remoteTaskId, taskToken, id, key)]
  }

  lemma CalledForIsDone(max: nat, c: Client, event: Event, notice: Notice, key: int, now: Timestamp)
    requires event.taskId < |c.sys.db.entries| && !c.stopped
    requires CallsFor(c.sys.db.entries[event.taskId].task, event, notice, key)
    ensures IsDone(c, event.taskId, notice, key, (event.taskId, key) in c.delivered, Advance(max, c, EventStep(event), now))
  {
  }

  lemma NothingElseIsDone(max: nat, c: Client, event: Event, now: Timestamp)
    requires event.taskId < |c.sys.db.entries|
    requires forall notice, key :: !CallsFor(c.sys.db.entries[event.taskId].task, event, notice, key)
    ensures Advance(max, c, EventStep(event), now) == c
  {
    var task := c.sys.db.entries[event.taskId].task;
    assert !CallsFor(task, event, Claimed, -1) && !CallsFor(task, event, Started, -2);
    assert StatusOf(event.eventType).Some? ==> !CallsFor(task, event, Ended(StatusOf(event.eventType).value), event.sequence);
  }

  /** An event of a task that is not in the store stops the client, if it is one to report. */
  lemma UnknownTaskStops(max: nat, c: Client, event: Event, now: Timestamp)
    requires event.taskId >= |c.sys.db.entries| && !c.stopped
    ensures
      var reported :=
        event.eventType == TaskWaitingDirectoryLock || event.eventType == TaskRunning || event.eventType == TaskCompleted ||
        event.eventType == TaskFailed || event.eventType == TaskCancelled || event.eventType == TaskTimedOut;
      && OnTaskEvent(c.delivered, c.sys.db, event).result == (if reported then Err(MissingTask) else Ok(None))
      && Advance(max, c, EventStep(event), now) == c.(stopped := reported)
  {
  }

  lemma KeyIsUsedExactly(c: Client, event: Event, notice: Notice, key: int)
    requires StoreOk(c.sys.db) && AllSentOk(c.sent, c.sys.db.entries, c.delivered) && KeysUsed(c.sent, c.delivered)
    requires event.taskId < |c.sys.db.entries| && event in c.sys.db.entries[event.taskId].log
    requires CallsFor(c.sys.db.entries[event.taskId].task, event, notice, key)
    ensures (event.taskId, key) in c.delivered <==> WasSent(c.sent, event.taskId, notice)
  {
    hide StoreOk, AllSentOk, KeysUsed;
    var id := event.taskId;
    if notice.Ended? {
      EndedTaskIsTerminal(c.sys.db, id, event);
      EndKeyIsUsedExactly(c.sys.db, c.sent, c.delivered, event);
    } else {
      StateKeyIsUsedExactly(c.sent, c.sys.db.entries, c.delivered, id, notice, key);
    }
  }

  lemma StateKeyIsUsedExactly(sent: seq<Callback>, entries: seq<Entry>, delivered: Delivered, id: nat, notice: Notice, key: int)
    requires AllSentOk(sent, entries, delivered) && KeysUsed(sent, delivered)
    requires (notice == Claimed && key == -1) || (notice == Started && key == -2)
    ensures (id, key) in delivered <==> WasSent(sent, id, notice)
  {
    assert forall i :: 0 <= i < |sent| ==> SentOk(sent[i], entries, delivered);
  }

  /** Over a whole client lifetime: whatever event arrives, the client does for it exactly
      what is called for and was not done before. */
  lemma {:induction false} EventsAreAnsweredExactly(max: nat, steps: ClientRun, event: Event, now: Timestamp)
    requires IsClientRun(max, steps) && Proper(ClientAfter(max, steps), EventStep(event)) && !ClientAfter(max, steps).stopped
    ensures
      var c := ClientAfter(max, steps);
      var c' := Advance(max, c, EventStep(event), now);
      && (forall notice, key :: CallsFor(c.sys.db.entries[event.taskId].task, event, notice, key) ==>
            IsDone(c, event.taskId, notice, key, WasSent(c.sent, event.taskId, notice), c'))
      && ((forall notice, key :: !CallsFor(c.sys.db.entries[event.taskId].task, event, notice, key)) ==> c' == c)
  {
    hide ClientAfter, IsDone, CallsFor, Advance, WasSent, SysOk, AllSentOk, KeysUsed, InStages;
    RunKeepsClient(max, steps);
    var c := ClientAfter(max, steps);
    StoreOfSys(max, c.sys);
    forall notice, key | CallsFor(c.sys.db.entries[event.taskId].task, event, notice, key)
      ensures IsDone(c, event.taskId, notice, key, WasSent(c.sent, event.taskId, notice), Advance(max, c, EventStep(event), now))
    {
      KeyIsUsedExactly(c, event, notice, key);
      CalledForIsDone(max, c, event, notice, key, now);
    }
    if forall notice, key :: !CallsFor(c.sys.db.entries[event.taskId].task, event, notice, key) {
      NothingElseIsDone(max, c, event, now);
    }
  }

  lemma StoreOfSys(max: nat, s: Sys)
    requires SysOk(max, s)
    ensures StoreOk(s.db)
  {
  }

  /** The first task that carries the remote id. */
  ghost predicate FirstCarrier(entries: seq<Entry>, remoteTaskId: string, id: nat) {
    id < |entries| && IsRemote(entries[id], remoteTaskId) && forall i :: 0 <= i < id ==> !IsRemote(entries[i], remoteTaskId)
  }

  lemma FirstCarrierIsFound(entries: seq<Entry>, remoteTaskId: string, id: nat)
    requires FirstCarrier(entries, remoteTaskId, id)
    ensures FindRemote(entries, remoteTaskId) == Some(id)
  {
    assert FindRemote(entries[..id], remoteTaskId).None?;
    FirstIsFound(entries, remoteTaskId, id);
  }

  /** Once a remote task has a local task, dispatching it again, with any content, answers
      with the first such task and changes nothing. */
  lemma RedeliveryIsIdempotent(max: nat, c: Client, id: nat, profile: Option<Profile>, remote: RemoteTask, now: Timestamp)
    requires FirstCarrier(c.sys.db.entries, remote.remoteTaskId, id)
    ensures Ingest(c.sys.db, c.sys.grants, profile, remote, now) == Handled(c.sys.db, Ok(id))
    ensures Advance(max, c, DispatchStep(profile, remote), now) == c
  {
    FirstCarrierIsFound(c.sys.db.entries, remote.remoteTaskId, id);
  }

  /** A remote cancel reaches the first such task: it ends Cancelled with its locks
      released, unless it has already completed, failed or timed out. */
  lemma {:induction false} CancelReachesTheTask(max: nat, steps: ClientRun, id: nat, remoteTaskId: string, now: Timestamp)
    requires IsClientRun(max, steps) && FirstCarrier(ClientAfter(max, steps).sys.db.entries, remoteTaskId, id)
    ensures
      var db := ClientAfter(max, steps).sys.db;
      var r := CancelRemote(db, remoteTaskId, now);
      var status := db.entries[id].task.status;
      && (r.result.Ok? <==> !status.IsTerminal() || status == Cancelled)
      && (r.result.Ok? ==> r.result.value == id && id < |r.db.entries| && r.db.entries[id].task.status == Cancelled)
      && (r.result.Err? ==> r.db == db && r.result.error == FromScheduler(TaskAlreadyTerminal))
      && (!status.IsTerminal() ==> forall k :: k in r.db.locks && k.taskId == id ==> !r.db.locks[k].held)
  {
    hide LocksOwned, ResultsMatch, ActiveCount, WorkersOk, CancelTask, ClientAfter, StoreOk;
    RunKeepsClient(max, steps);
    var c := ClientAfter(max, steps);
    OkIsNumbered(c.sys.db, id);
    Admission.CancelEndsTask(c.sys.db, id, now);
    FirstCarrierIsFound(c.sys.db.entries, remoteTaskId, id);
  }

  // ---- The service as the program runs it -------------------------------

  /** The events of one session, handled in turn until an error stops the client. */
  function ObserveAll(c: Client, events: seq<Event>): Client
    decreases |events|
  {
    if events == [] || c.stopped then c else ObserveAll(Note(c, OnTaskEvent(c.delivered, c.sys.db, events[0])), events[1..])
  }

  /** A session is its events taken one by one, each an event step of the client. */
  lemma {:induction false} SessionIsEventSteps(max: nat, c: Client, events: seq<Event>, event: Event, now: Timestamp)
    ensures ObserveAll(c, []) == c
    ensures ObserveAll(c, events + [event]) == Advance(max, ObserveAll(c, events), EventStep(event), now)
    decreases |events|
  {
    hide OnTaskEvent;
    if events == [] || c.stopped {
      assert [event][1..] == [];
    } else {
      SessionIsEventSteps(max, Note(c, OnTaskEvent(c.delivered, c.sys.db, events[0])), events[1..], event, now);
      assert (events + [event])[1..] == events[1..] + [event];
    }
  }

  class CallbackService {
    var delivered: Delivered

    constructor ()
      ensures delivered == {}
    {
      delivered := {};
    }

    method CallbackForTaskState(task: Task, id: nat) returns (r: Result<Option<Callback>, CallbackError>)
      modifies this
      ensures Answer(delivered, r) == ForTaskState(old(delivered), task, id)
    {
      if !task.status.WaitingDirectoryLock? && !task.status.Running? {
        return Ok(None);
      }
      var notice := if task.status.Running? then Started else Claimed;
      r := Deliver(task, id, notice, StateSequence(task.status));
    }

    method CallbackForEvent(store: TaskStore, event: Event) returns (r: Result<Option<Callback>, CallbackError>)
      modifies this
      ensures Answer(delivered, r) == ForEvent(old(delivered), store.Contents(), event)
    {
      if !event.eventType.IsTerminal() {
        return Ok(None);
      }
      if event.taskId >= |store.entries| {
        return Err(MissingTask);
      }
      r := Deliver(store.entries[event.taskId].task, event.taskId, Ended(StatusOf(event.eventType).value), event.sequence);
    }

    /** The task-event arm of the session loop, on the events one session receives. */
    method FollowEvents(store: TaskStore, events: seq<Event>) returns (sent: seq<Callback>, stopped: bool)
      modifies this
      ensures
        var sys := Sys(store.Contents(), map[], map[]);
        Client(sys, delivered, sent, stopped) == ObserveAll(Client(sys, old(delivered), [], false), events)
    {
      ghost var sys := Sys(store.Contents(), map[], map[]);
      sent, stopped := [], false;
      var i := 0;
      while i < |events| && !stopped
        invariant 0 <= i <= |events|
        invariant
          ObserveAll(Client(sys, old(delivered), [], false), events) ==
          ObserveAll(Client(sys, delivered, sent, stopped), events[i..])
        decreases |events| - i
      {
        assert events[i..][0] == events[i] && events[i..][1..] == events[i + 1..];
        var event := events[i];
        var r: Result<Option<Callback>, CallbackError>;
        if event.eventType.TaskWaitingDirectoryLock? || event.eventType.TaskRunning? {
          if event.taskId < |store.entries| {
            r := CallbackForTaskState(store.entries[event.taskId].task, event.taskId);
          } else {
            r := Err(MissingTask);
          }
        } else {
          r := CallbackForEvent(store, event);
        }
        if r.Err? {
          stopped := true;
        } else if r.value.Some? {
          sent := sent + [r.value.value];
        }
        i := i + 1;
      }
    }

    method Deliver(task: Task, id: nat, notice: Notice, key: int) returns (r: Result<Option<Callback>, CallbackError>)
      modifies this
      ensures Answer(delivered, r) == Once(old(delivered), task, id, notice, key)
    {
      var controlPlane := ControlPlaneOf(task);
      if controlPlane.None? {
        return Ok(None);
      }
      if controlPlane.value.remoteTaskId.None? || controlPlane.value.taskToken.None? {
        return Err(InvalidMessage);
      }
      if (id, key) in delivered {
        return Ok(None);
      }
      delivered := delivered + {(id, key)};
      r := Ok(Some(Callback(notice, controlPlane.value.remoteTaskId.value, controlPlane.value.taskToken.value, id, key)));
    }
  }
}
