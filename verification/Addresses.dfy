/**
 The control-plane metadata tasks are enqueued with. Products may write it as freely as
 dispatch does: exactly when a remote id then has one local task, and exactly when an
 event can stop the control-plane client.
 */
module Addresses {
  import opened Results
  import opened Lifecycle
  import opened TaskModel
  import opened Grants
  import opened Store
  import opened StoreInvariants
  import opened Scheduler
  import opened TaskSystem
  import opened Dispatch
  import opened Callbacks
  import opened Examples

  // ---- The task a step adds ---------------------------------------------

  /** The metadata of the task a step adds, if it adds one. */
  function AddedMetadata(c: Client, step: ClientStep, now: Timestamp): Option<Option<Metadata>> {
    match step
    case EngineStep(EnqueueStep(profile, input)) =>
      if Enqueue(c.sys.db, c.sys.grants, profile, input, now).result.Ok? then Some(input.metadata) else None
    case DispatchStep(profile, remote) =>
      if c.stopped || FindRemote(c.sys.db.entries, remote.remoteTaskId).Some? || InputFor(remote).None? then None
      else if Enqueue(c.sys.db, c.sys.grants, profile, InputFor(remote).value, now).result.Ok?
      then Some(InputFor(remote).value.metadata)
      else None
    case _ => None
  }

  /** The rows stay what they are, and one with the given metadata may be added. */
  ghost predicate RowsGrowBy(entries: seq<Entry>, entries': seq<Entry>, added: Option<Option<Metadata>>) {
    && |entries'| == |entries| + (if added.Some? then 1 else 0)
    && (forall i :: 0 <= i < |entries| ==> entries'[i].task.spec == entries[i].task.spec)
    && (added.Some? ==> entries'[|entries|].task.spec.metadata == added.value)
  }

  lemma EnqueueGrowsRows(db: Db, grants: GrantTable, profile: Option<Profile>, input: CreateTask, now: Timestamp)
    requires SoundTable(grants)
    ensures
      var r := Enqueue(db, grants, profile, input, now);
      RowsGrowBy(db.entries, r.db.entries, if r.result.Ok? then Some(input.metadata) else None)
  {
    hide Enqueue, PreChecks, SoundTable;
    EnqueueCreatesExactlyCoveredTasks(db, grants, profile, input, now);
    var r := Enqueue(db, grants, profile, input, now);
    if r.result.Ok? {
      assert forall i :: 0 <= i < |db.entries| ==> r.db.entries[i] == r.db.entries[..|db.entries|][i];
    }
  }

  lemma EngineStepKeepsRows(max: nat, s: Sys, step: Step, now: Timestamp)
    requires SysOk(max, s) && Permitted(s, step) && !step.EnqueueStep?
    ensures RowsGrowBy(s.db.entries, Next(max, s, step, now).db.entries, None)
  {
    hide StoreOk, Admit, Grows, LocksOwned, ResultsMatch, ActiveCount, SoundTable, WorkersOk;
    StepKeeps(max, s, step, now);
    RowsStay(max, s, step, now);
    SpecsStay(s.db, Next(max, s, step, now).db);
  }

  lemma RowsStay(max: nat, s: Sys, step: Step, now: Timestamp)
    requires SysOk(max, s) && !step.EnqueueStep?
    ensures |Next(max, s, step, now).db.entries| == |s.db.entries|
  {
    hide StoreOk, Admit;
    if step.AdmitStep? {
      AdmitKeepsEngine(max, s.db, s.grants, step.admitted, step.runtime, step.prepared, now);
    }
  }

  lemma SpecsStay(db: Db, db': Db)
    requires Grows(db, db') && |db'.entries| == |db.entries|
    ensures RowsGrowBy(db.entries, db'.entries, None)
  {
    assert forall i :: 0 <= i < |db.entries| ==> EntryGrows(db.entries[i], db'.entries[i]);
  }

  lemma StepGrowsRows(max: nat, c: Client, step: ClientStep, now: Timestamp)
    requires ClientOk(max, c) && Proper(c, step)
    ensures RowsGrowBy(c.sys.db.entries, Advance(max, c, step, now).sys.db.entries, AddedMetadata(c, step, now))
  {
    hide StoreOk, Enqueue, Next, LocksOwned, ResultsMatch, ActiveCount, WorkersOk, SoundTable, AllSentOk, InStages, KeysUsed, OnTaskEvent, CancelTask;
    match step
    case EngineStep(step) =>
      if step.EnqueueStep? {
        EnqueueGrowsRows(c.sys.db, c.sys.grants, step.profile, step.input, now);
        EnqueueIsStep(max, c.sys, step, now);
      } else {
        EngineStepKeepsRows(max, c.sys, step, now);
      }
    case DispatchStep(profile, remote) =>
      if InputFor(remote).Some? {
        EnqueueGrowsRows(c.sys.db, c.sys.grants, profile, InputFor(remote).value, now);
      }
    case CancelRemoteStep(remoteTaskId) =>
      if FindRemote(c.sys.db.entries, remoteTaskId).Some? {
        var id := FindRemote(c.sys.db.entries, remoteTaskId).value;
        EngineStepKeepsRows(max, c.sys, CancelStep(id), now);
        CancelIsStep(max, c.sys, id, now);
      }
    case EventStep(_) =>
  }

  lemma EnqueueIsStep(max: nat, s: Sys, step: Step, now: Timestamp)
    requires step.EnqueueStep?
    ensures Next(max, s, step, now).db == Enqueue(s.db, s.grants, step.profile, step.input, now).db
  {
  }

  lemma CancelIsStep(max: nat, s: Sys, id: nat, now: Timestamp)
    ensures Next(max, s, CancelStep(id), now).db == CancelTask(s.db, id, now).db
  {
  }

  // ---- One task per remote id -------------------------------------------

  /** No two tasks carry one remote id. */
  ghost predicate OneEach(entries: seq<Entry>) {
    forall i, j :: 0 <= i < j < |entries| && RemoteTaskId(entries[i].task.spec.metadata).Some? ==>
      RemoteTaskId(entries[i].task.spec.metadata) != RemoteTaskId(entries[j].task.spec.metadata)
  }

  /** The remote id, if there is one, is not carried yet. */
  ghost predicate IsUnused(entries: seq<Entry>, metadata: Option<Metadata>) {
    RemoteTaskId(metadata).Some? ==> forall i :: 0 <= i < |entries| ==> !IsRemote(entries[i], RemoteTaskId(metadata).value)
  }

  /** A task that a product enqueues brings a remote id that no task carries, or none. */
  ghost predicate EnqueuesUnused(c: Client, step: ClientStep, now: Timestamp) {
    match step
    case EngineStep(EnqueueStep(profile, input)) =>
      Enqueue(c.sys.db, c.sys.grants, profile, input, now).result.Ok? ==> IsUnused(c.sys.db.entries, input.metadata)
    case _ => true
  }

  lemma RowsKeepOneEachExactly(entries: seq<Entry>, entries': seq<Entry>, added: Option<Option<Metadata>>)
    requires RowsGrowBy(entries, entries', added) && OneEach(entries)
    ensures OneEach(entries') <==> (added.Some? ==> IsUnused(entries, added.value))
  {
    if added.Some? && !IsUnused(entries, added.value) {
      var i :| 0 <= i < |entries| && IsRemote(entries[i], RemoteTaskId(added.value).value);
      assert RemoteTaskId(entries'[i].task.spec.metadata) == RemoteTaskId(entries'[|entries|].task.spec.metadata);
    }
  }

  lemma StepKeepsOneEachExactly(max: nat, c: Client, step: ClientStep, now: Timestamp)
    requires ClientOk(max, c) && Proper(c, step) && OneEach(c.sys.db.entries)
    ensures OneEach(Advance(max, c, step, now).sys.db.entries) <==> EnqueuesUnused(c, step, now)
  {
    hide ClientOk, Advance, Enqueue, OneEach;
    StepGrowsRows(max, c, step, now);
    RowsKeepOneEachExactly(c.sys.db.entries, Advance(max, c, step, now).sys.db.entries, AddedMetadata(c, step, now));
    if step.DispatchStep? && InputFor(step.remote).Some? {
      assert RemoteTaskId(InputFor(step.remote).value.metadata) == Some(step.remote.remoteTaskId);
    }
  }

  ghost predicate OneEachThroughout(max: nat, steps: ClientRun) {
    forall i :: 0 <= i <= |steps| ==> OneEach(ClientAfter(max, steps[..i]).sys.db.entries)
  }

  ghost predicate UnusedThroughout(max: nat, steps: ClientRun) {
    forall i :: 0 <= i < |steps| ==> EnqueuesUnused(ClientAfter(max, steps[..i]), steps[i].0, steps[i].1)
  }

  lemma {:induction false} ThroughoutOneMore(max: nat, steps: ClientRun)
    requires steps != []
    ensures
      var n := |steps| - 1;
      && (OneEachThroughout(max, steps) <==> OneEachThroughout(max, steps[..n]) && OneEach(ClientAfter(max, steps).sys.db.entries))
      && (UnusedThroughout(max, steps) <==> UnusedThroughout(max, steps[..n]) && EnqueuesUnused(ClientAfter(max, steps[..n]), steps[n].0, steps[n].1))
      && (OneEachThroughout(max, steps[..n]) ==> OneEach(ClientAfter(max, steps[..n]).sys.db.entries))
  {
    hide ClientAfter, OneEach, EnqueuesUnused;
    var n := |steps| - 1;
    assert forall i :: 0 <= i <= n ==> steps[..n][..i] == steps[..i];
    assert steps[..|steps|] == steps && steps[..n][..n] == steps[..n];
  }

  /** In any mix of dispatches, redeliveries, cancels and product enqueues, every remote id
      has at most one local task throughout if and only if every product task brings a
      remote id that is not in use, or none. Dispatch by itself never breaks it. */
  lemma {:induction false} OneTaskPerRemoteIdExactly(max: nat, steps: ClientRun)
    requires IsClientRun(max, steps)
    ensures OneEachThroughout(max, steps) <==> UnusedThroughout(max, steps)
  {
    hide OneEachThroughout, UnusedThroughout, ClientOk, Advance, OneEach, EnqueuesUnused, Proper;
    if steps == [] {
      NoTasksYet(max);
    } else {
      var n := |steps| - 1;
      OneTaskPerRemoteIdExactly(max, steps[..n]);
      ThroughoutOneMore(max, steps);
      RunKeepsClient(max, steps[..n]);
      if OneEach(ClientAfter(max, steps[..n]).sys.db.entries) {
        StepKeepsOneEachExactly(max, ClientAfter(max, steps[..n]), steps[n].0, steps[n].1);
      }
    }
  }

  lemma NoTasksYet(max: nat)
    ensures OneEachThroughout(max, []) && UnusedThroughout(max, [])
  {
  }

  // ---- Events that stop the client --------------------------------------

  /** Every control-plane object has its remote id and its token. */
  ghost predicate AddressesComplete(entries: seq<Entry>) {
    forall i :: 0 <= i < |entries| ==> !IsIncomplete(entries[i].task)
  }

  /** Engine steps that enqueue nothing, and events. */
  ghost predicate IsQuiet(c: Client, step: ClientStep) {
    && Proper(c, step)
    && (step.EngineStep? || step.EventStep?)
    && (step.EngineStep? ==> !step.step.EnqueueStep?)
  }

  function Continue(max: nat, c: Client, steps: ClientRun): Client {
    if steps == [] then c
    else Advance(max, Continue(max, c, steps[..|steps| - 1]), steps[|steps| - 1].0, steps[|steps| - 1].1)
  }

  ghost predicate QuietRun(max: nat, c: Client, steps: ClientRun) {
    steps != [] ==>
      QuietRun(max, c, steps[..|steps| - 1]) && IsQuiet(Continue(max, c, steps[..|steps| - 1]), steps[|steps| - 1].0)
  }

  /** Some quiet continuation ends with an event that stops the client. */
  ghost predicate CanBeStopped(max: nat, c: Client) {
    exists steps :: QuietRun(max, c, steps) && Continue(max, c, steps).stopped
  }

  lemma {:induction false} QuietKeepsComplete(max: nat, c: Client, steps: ClientRun)
    requires ClientOk(max, c) && AddressesComplete(c.sys.db.entries) && !c.stopped && QuietRun(max, c, steps)
    ensures
      var c' := Continue(max, c, steps);
      ClientOk(max, c') && AddressesComplete(c'.sys.db.entries) && !c'.stopped
  {
    hide ClientOk, Advance, AddressesComplete, Proper;
    if steps != [] {
      var n := |steps| - 1;
      QuietKeepsComplete(max, c, steps[..n]);
      QuietStepKeepsComplete(max, Continue(max, c, steps[..n]), steps[n].0, steps[n].1);
    }
  }

  lemma QuietStepKeepsComplete(max: nat, c: Client, step: ClientStep, now: Timestamp)
    requires ClientOk(max, c) && AddressesComplete(c.sys.db.entries) && !c.stopped && IsQuiet(c, step)
    ensures
      var c' := Advance(max, c, step, now);
      ClientOk(max, c') && AddressesComplete(c'.sys.db.entries) && !c'.stopped
  {
    hide ClientOk, OnTaskEvent, Next, RowsGrowBy;
    AdvanceKeeps(max, c, step, now);
    StepGrowsRows(max, c, step, now);
    SameRowsStayComplete(c.sys.db.entries, Advance(max, c, step, now).sys.db.entries);
    if step.EventStep? {
      EventCannotStop(max, c, step.event);
    }
  }

  lemma SameRowsStayComplete(entries: seq<Entry>, entries': seq<Entry>)
    requires AddressesComplete(entries) && RowsGrowBy(entries, entries', None)
    ensures AddressesComplete(entries')
  {
  }

  lemma EventCannotStop(max: nat, c: Client, event: Event)
    requires ClientOk(max, c) && Proper(c, EventStep(event)) && AddressesComplete(c.sys.db.entries)
    ensures OnTaskEvent(c.delivered, c.sys.db, event).result.Ok?
  {
    hide StoreOk, OnTaskEvent, LocksOwned, ResultsMatch, ActiveCount, WorkersOk, AllSentOk, InStages, KeysUsed;
    AnswerIsTrue(c.sys.db, c.delivered, event);
  }

  lemma TerminalEventStops(max: nat, c: Client, event: Event)
    requires ClientOk(max, c) && Proper(c, EventStep(event)) && !c.stopped
    requires event.eventType.IsTerminal() && IsIncomplete(c.sys.db.entries[event.taskId].task)
    ensures Advance(max, c, EventStep(event), 0).stopped
  {
    hide StoreOk, OnTaskEvent, LocksOwned, ResultsMatch, ActiveCount, WorkersOk, AllSentOk, InStages, KeysUsed;
    AnswerIsTrue(c.sys.db, c.delivered, event);
  }

  /** A task that has ended has the event that ended it in its log. */
  lemma EndIsLogged(db: Db, id: nat) returns (event: Event)
    requires StoreOk(db) && id < |db.entries| && db.entries[id].task.status.IsTerminal()
    ensures event in db.entries[id].log && event.eventType.IsTerminal() && event.taskId == id
  {
    hide StoreOk, History, Stamped;
    OkIsNumbered(db, id);
    var log := db.entries[id].log;
    HistoryMembers(log, db.entries[id].task.status);
    var k :| 0 <= k < |log| && log[k].eventType == EventTypeForStatus(db.entries[id].task.status);
    event := log[k];
  }

  lemma StoreOfClient(max: nat, c: Client)
    requires ClientOk(max, c)
    ensures StoreOk(c.sys.db)
  {
  }

  /** An ended task with an incomplete address. */
  lemma {:induction false} EndedTaskStops(max: nat, c: Client, before: ClientRun, id: nat)
    requires ClientOk(max, c) && QuietRun(max, c, before) && ClientOk(max, Continue(max, c, before))
    requires
      var c1 := Continue(max, c, before);
      && !c1.stopped && id < |c1.sys.db.entries|
      && c1.sys.db.entries[id].task.status.IsTerminal() && IsIncomplete(c1.sys.db.entries[id].task)
    ensures CanBeStopped(max, c)
  {
    hide ClientOk, Advance, Continue;
    var c1 := Continue(max, c, before);
    StoreOfClient(max, c1);
    var event := EndIsLogged(c1.sys.db, id);
    TerminalEventStops(max, c1, event);
    ContinueOneMore(max, c, before, EventStep(event));
    var steps := before + [(EventStep(event), 0)];
    assert QuietRun(max, c, steps) && Continue(max, c, steps).stopped;
  }

  lemma {:induction false} ContinueOneMore(max: nat, c: Client, steps: ClientRun, step: ClientStep)
    ensures Continue(max, c, steps + [(step, 0)]) == Advance(max, Continue(max, c, steps), step, 0)
    ensures QuietRun(max, c, steps + [(step, 0)]) <==> QuietRun(max, c, steps) && IsQuiet(Continue(max, c, steps), step)
  {
    hide Advance, IsQuiet;
    var longer := steps + [(step, 0)];
    assert longer[..|longer| - 1] == steps;
  }

  lemma SameSpecSameAddress(task: Task, task': Task)
    requires task'.spec == task.spec
    ensures IsIncomplete(task') <==> IsIncomplete(task)
  {
  }

  /** Cancelling a live task ends it and leaves its address. */
  lemma CancelEndsIt(max: nat, c: Client, id: nat)
    requires ClientOk(max, c) && id < |c.sys.db.entries| && !c.sys.db.entries[id].task.status.IsTerminal()
    ensures
      var c' := Advance(max, c, EngineStep(CancelStep(id)), 0);
      && ClientOk(max, c') && c'.stopped == c.stopped
      && id < |c'.sys.db.entries| && c'.sys.db.entries[id].task.status.IsTerminal()
      && (IsIncomplete(c.sys.db.entries[id].task) ==> IsIncomplete(c'.sys.db.entries[id].task))
  {
    AdvanceKeeps(max, c, EngineStep(CancelStep(id)), 0);
    StepGrowsRows(max, c, EngineStep(CancelStep(id)), 0);
    StoreOfClient(max, c);
    OkIsNumbered(c.sys.db, id);
    hide ClientOk, CancelTask, IsIncomplete;
    CancelIsStep(max, c.sys, id, 0);
    SameSpecSameAddress(c.sys.db.entries[id].task, Advance(max, c, EngineStep(CancelStep(id)), 0).sys.db.entries[id].task);
    Admission.CancelEndsTask(c.sys.db, id, 0);
  }

  /** While nothing new is enqueued, an event can stop a client that is running if and only
      if some task's address is incomplete. */
  lemma StoppedExactlyByIncompleteAddresses(max: nat, c: Client)
    requires ClientOk(max, c) && !c.stopped
    ensures CanBeStopped(max, c) <==> !AddressesComplete(c.sys.db.entries)
  {
    hide ClientOk, Advance, Continue, IsIncomplete;
    if AddressesComplete(c.sys.db.entries) {
      forall steps | QuietRun(max, c, steps)
        ensures !Continue(max, c, steps).stopped
      {
        QuietKeepsComplete(max, c, steps);
      }
    } else {
      var id :| 0 <= id < |c.sys.db.entries| && IsIncomplete(c.sys.db.entries[id].task);
      ContinueFromHere(max, c);
      if c.sys.db.entries[id].task.status.IsTerminal() {
        EndedTaskStops(max, c, [], id);
      } else {
        CancelEndsIt(max, c, id);
        ContinueOneMore(max, c, [], EngineStep(CancelStep(id)));
        EndedTaskStops(max, c, [] + [(EngineStep(CancelStep(id)), 0)], id);
      }
    }
  }

  lemma ContinueFromHere(max: nat, c: Client)
    ensures Continue(max, c, []) == c && QuietRun(max, c, [])
  {
  }

  /** What a run of enqueues must bring for that: every added task a complete address. */
  lemma {:induction false} AddressesCompleteExactly(max: nat, steps: ClientRun)
    requires IsClientRun(max, steps)
    ensures AddressesComplete(ClientAfter(max, steps).sys.db.entries) <==>
            forall i :: 0 <= i < |steps| ==> AddsComplete(ClientAfter(max, steps[..i]), steps[i].0, steps[i].1)
  {
    hide ClientOk, Advance, AddressesComplete, Proper, AddsComplete;
    if steps == [] {
      NothingIncompleteYet(max);
    } else {
      var n := |steps| - 1;
      AddressesCompleteExactly(max, steps[..n]);
      assert forall i :: 0 <= i < n ==> steps[..n][..i] == steps[..i] && steps[..n][i] == steps[i];
      RunKeepsClient(max, steps[..n]);
      StepKeepsCompleteExactly(max, ClientAfter(max, steps[..n]), steps[n].0, steps[n].1);
    }
  }

  lemma NothingIncompleteYet(max: nat)
    ensures AddressesComplete(ClientAfter(max, []).sys.db.entries)
  {
  }

  ghost predicate AddsComplete(c: Client, step: ClientStep, now: Timestamp) {
    match AddedMetadata(c, step, now)
    case Some(Some(Object(Some(controlPlane), _))) => controlPlane.remoteTaskId.Some? && controlPlane.taskToken.Some?
    case _ => true
  }

  lemma StepKeepsCompleteExactly(max: nat, c: Client, step: ClientStep, now: Timestamp)
    requires ClientOk(max, c) && Proper(c, step)
    ensures AddressesComplete(Advance(max, c, step, now).sys.db.entries) <==>
            AddressesComplete(c.sys.db.entries) && AddsComplete(c, step, now)
  {
    hide ClientOk, Advance, AddedMetadata;
    StepGrowsRows(max, c, step, now);
    var entries, entries' := c.sys.db.entries, Advance(max, c, step, now).sys.db.entries;
    assert forall i :: 0 <= i < |entries| ==> (IsIncomplete(entries'[i].task) <==> IsIncomplete(entries[i].task));
  }

  // ---- Two product tasks that do harm -----------------------------------

  const REMOTE := RemoteTask("r", "p", "a", "d", "go", ["read"], "worktree", None, "t")

  /** What dispatch writes for it, and a product may write too. */
  const ADDRESS := Some(Object(Some(ControlPlane(Some("r"), Some("t"))), None))

  const NO_ADDRESS := Some(Object(Some(ControlPlane(None, None)), None))

  lemma {:induction false} OneMoreStep(steps: ClientRun, step: ClientStep)
    requires IsClientRun(1, steps) && Proper(ClientAfter(1, steps), step)
    ensures IsClientRun(1, steps + [(step, 0)])
    ensures ClientAfter(1, steps + [(step, 0)]) == Advance(1, ClientAfter(1, steps), step, 0)
  {
    hide Advance, Proper;
    var longer := steps + [(step, 0)];
    assert longer[..|longer| - 1] == steps;
  }

  lemma {:induction false} GrantMade() returns (steps: ClientRun)
    ensures IsClientRun(1, steps)
    ensures ClientAfter(1, steps) == INITIAL_CLIENT.(sys := Sys(EMPTY_DB, GrantsWith(false), map[]))
  {
    hide ClientAfter, IsClientRun, PolicyFromCreate;
    NothingHappened();
    OneMoreStep([], EngineStep(GrantStep(GrantCreation(false))));
    steps := [] + [(EngineStep(GrantStep(GrantCreation(false))), 0)];
  }

  lemma NothingHappened()
    ensures IsClientRun(1, []) && ClientAfter(1, []) == INITIAL_CLIENT
  {
  }

  lemma RemoteIsAddressed()
    ensures InputFor(REMOTE) == Some(Addressed(ADDRESS, true))
  {
    var names := ["read"];
    assert names[..|names| - 1] == [] && names[|names| - 1] == "read";
    assert ParseCapabilities([]) == Some([]);
    assert [] + [Directory.Read] == [Directory.Read];
    assert ParseCapabilities(names) == Some([Directory.Read]);
  }

  /** A product task that names a remote id already dispatched gives it two local tasks. */
  lemma {:induction false} ProductTaskDoublesRemoteId() returns (steps: ClientRun)
    ensures IsClientRun(1, steps)
    ensures
      var entries := ClientAfter(1, steps).sys.db.entries;
      && |entries| == 2 && IsRemote(entries[0], "r") && IsRemote(entries[1], "r")
      && !OneEach(entries)
  {
    hide ClientAfter, IsClientRun, Enqueue, GrantsWith, ClientOk, InputFor, Addressed;
    steps := GrantMade();
    RemoteIsAddressed();
    var c := ClientAfter(1, steps);
    AddressedIsEnqueued(c.sys.db, ADDRESS, true);
    RunKeepsClient(1, steps);
    StepGrowsRows(1, c, DispatchStep(Some(PROFILE), REMOTE), 0);
    OneMoreStep(steps, DispatchStep(Some(PROFILE), REMOTE));
    steps := steps + [(DispatchStep(Some(PROFILE), REMOTE), 0)];
    var c1 := ClientAfter(1, steps);
    AddressedHasMetadata(ADDRESS, true);
    AddressedHasMetadata(ADDRESS, false);
    AddressedIsEnqueued(c1.sys.db, ADDRESS, false);
    RunKeepsClient(1, steps);
    var again := EngineStep(EnqueueStep(Some(PROFILE), Addressed(ADDRESS, false)));
    StepGrowsRows(1, c1, again, 0);
    OneMoreStep(steps, again);
    steps := steps + [(again, 0)];
    var entries := ClientAfter(1, steps).sys.db.entries;
    assert RemoteTaskId(entries[0].task.spec.metadata) == RemoteTaskId(entries[1].task.spec.metadata) == Some("r");
  }

  lemma AddressedHasMetadata(metadata: Option<Metadata>, bare: bool)
    ensures Addressed(metadata, bare).metadata == metadata
  {
  }

  /** A product task with an empty control-plane object lets an event stop the client. */
  lemma {:induction false} EmptyAddressLetsEventsStop() returns (steps: ClientRun)
    ensures IsClientRun(1, steps)
    ensures !ClientAfter(1, steps).stopped && CanBeStopped(1, ClientAfter(1, steps))
  {
    hide ClientAfter, IsClientRun, Enqueue, GrantsWith, ClientOk, Addressed, CanBeStopped;
    steps := GrantMade();
    var c := ClientAfter(1, steps);
    AddressedHasMetadata(NO_ADDRESS, false);
    AddressedIsEnqueued(c.sys.db, NO_ADDRESS, false);
    RunKeepsClient(1, steps);
    var enqueue := EngineStep(EnqueueStep(Some(PROFILE), Addressed(NO_ADDRESS, false)));
    StepGrowsRows(1, c, enqueue, 0);
    OneMoreStep(steps, enqueue);
    steps := steps + [(enqueue, 0)];
    RunKeepsClient(1, steps);
    assert IsIncomplete(ClientAfter(1, steps).sys.db.entries[0].task);
    StoppedExactlyByIncompleteAddresses(1, ClientAfter(1, steps));
  }
}
