/**
 Store calls taken apart: any number of writers whose status read, event-number
 read and commit interleave, each commit being one transaction, and whose lock
 check and lock insert are two statements.
 */
module Writers {
  import opened Results
  import opened Lifecycle
  import opened TaskModel
  import opened Locks
  import opened Store
  import opened StoreInvariants

  /** Where a writer stands. `seenAt` and `numberedAt` are the lengths the log had
      at its two reads; the program does not keep them. */
  datatype Writer =
    | Checked(id: nat, next: TaskStatus, status: TaskStatus, seenAt: nat)
    | Ready(id: nat, next: TaskStatus, status: TaskStatus, seenAt: nat, sequence: int, numberedAt: nat)
    | ReadyToAppend(id: nat, eventType: EventType, sequence: int, numberedAt: nat)
    | Acquiring(id: nat, directoryId: string, mode: LockMode)

  datatype World = World(db: Db, writers: map<nat, Writer>)

  datatype Step =
    | ReadStatus(w: nat, id: nat, next: TaskStatus)
    | ReadSequence(w: nat)
    | Commit(w: nat, payload: Payload)
    | ReadAppendSequence(w: nat, id: nat, eventType: EventType)
    | CommitAppend(w: nat, payload: Payload)
    | ReadLocks(w: nat, id: nat, directoryId: string, mode: LockMode)
    | InsertLock(w: nat)
    | Transact(call: Call)

  function Do(s: World, step: Step, now: Timestamp): World {
    match step
    case ReadStatus(w, id, next) =>
      if id < |s.db.entries| && ValidateTransition(s.db.entries[id].task.status, next) == Ok(Changed)
      then s.(writers := s.writers[w := Checked(id, next, s.db.entries[id].task.status, |s.db.entries[id].log|)])
      else s.(writers := s.writers - {w})
    case ReadSequence(w) =>
      if w in s.writers && s.writers[w].Checked? && s.writers[w].id < |s.db.entries| then
        var p := s.writers[w];
        var log := s.db.entries[p.id].log;
        s.(writers := s.writers[w := Ready(p.id, p.next, p.status, p.seenAt, NextSequence(log), |log|)])
      else s
    case Commit(w, payload) =>
      if w in s.writers && s.writers[w].Ready? && s.writers[w].id < |s.db.entries| then
        var p := s.writers[w];
        var r := CommitTransition(s.db, p.id, p.next, p.sequence, payload, now);
        World(if r.Some? then r.value else s.db, s.writers - {w})
      else s
    case ReadAppendSequence(w, id, eventType) =>
      if id < |s.db.entries| then
        var log := s.db.entries[id].log;
        s.(writers := s.writers[w := ReadyToAppend(id, eventType, NextSequence(log), |log|)])
      else s.(writers := s.writers - {w})
    case CommitAppend(w, payload) =>
      if w in s.writers && s.writers[w].ReadyToAppend? && s.writers[w].id < |s.db.entries| then
        var p := s.writers[w];
        var r := CommitEvent(s.db, p.id, p.eventType, p.sequence, payload, now);
        World(if r.Some? then r.value else s.db, s.writers - {w})
      else s
    case ReadLocks(w, id, directoryId, mode) =>
      if Conflicts(s.db.locks, directoryId, mode) then s.(writers := s.writers - {w})
      else s.(writers := s.writers[w := Acquiring(id, directoryId, mode)])
    case InsertLock(w) =>
      if w in s.writers && s.writers[w].Acquiring? then
        var p := s.writers[w];
        World(s.db.(locks := WithLock(s.db.locks, p.directoryId, p.id, p.mode, now)), s.writers - {w})
      else s
    case Transact(call) => s.(db := Perform(s.db, call, now))
  }

  /** Appended events are what executions append, and the calls done in one transaction are
      those the store does in one: transitions, appends and lock acquisitions are not. */
  predicate Admissible(step: Step) {
    && (step.ReadAppendSequence? ==> step.eventType.IsRuntimeOutput())
    && (step.CommitAppend? ==> !step.payload.DecisionPayload?)
    && (step.Transact? ==> !step.call.CallTransition? && !step.call.CallAppend? && !step.call.CallAcquire?)
  }

  type Run = seq<(Step, Timestamp)>

  ghost predicate IsRun(steps: Run) {
    forall i :: 0 <= i < |steps| ==> Admissible(steps[i].0)
  }

  function After(steps: Run): World {
    if steps == [] then World(EMPTY_DB, map[])
    else Do(After(steps[..|steps| - 1]), steps[|steps| - 1].0, steps[|steps| - 1].1)
  }

  // ---- What every interleaving keeps ------------------------------------

  function Last(history: seq<TaskStatus>): Option<TaskStatus> {
    if history == [] then None else Some(history[|history| - 1])
  }

  /** The status as of the first n events. */
  function StatusAt(log: Log, n: nat): Option<TaskStatus>
    requires n <= |log|
  {
    Last(History(log[..n]))
  }

  /** Numbered 1..n from Queued, with the status the last lifecycle event announced. */
  ghost predicate Chained(entry: Entry, id: nat) {
    && Numbered(entry.log, id)
    && entry.log != []
    && entry.log[0].eventType == TaskQueued
    && Last(History(entry.log)) == Some(entry.task.status)
  }

  ghost predicate AllChained(entries: seq<Entry>) {
    forall i :: 0 <= i < |entries| ==> Chained(entries[i], i)
  }

  ghost predicate WriterOk(entries: seq<Entry>, p: Writer) {
    p.Acquiring? || WriterInLog(entries, p)
  }

  ghost predicate WriterInLog(entries: seq<Entry>, p: Writer)
    requires !p.Acquiring?
  {
    && p.id < |entries|
    && var log := entries[p.id].log;
       && (p.Checked? || p.Ready? ==>
             && Allowed(p.status, p.next)
             && p.seenAt <= |log|
             && StatusAt(log, p.seenAt) == Some(p.status))
       && (p.Ready? ==> p.seenAt <= p.numberedAt)
       && (p.Ready? || p.ReadyToAppend? ==> p.numberedAt <= |log| && p.sequence == p.numberedAt + 1)
       && (p.ReadyToAppend? ==> p.eventType.IsRuntimeOutput())
  }

  ghost predicate WritersOk(entries: seq<Entry>, writers: map<nat, Writer>) {
    forall w :: w in writers ==> WriterOk(entries, writers[w])
  }

  ghost predicate LogsGrow(entries: seq<Entry>, entries': seq<Entry>) {
    && |entries| <= |entries'|
    && forall i :: 0 <= i < |entries| ==> entries[i].log <= entries'[i].log
  }

  lemma GrowthKeepsWriters(entries: seq<Entry>, entries': seq<Entry>, writers: map<nat, Writer>)
    requires WritersOk(entries, writers) && LogsGrow(entries, entries')
    ensures WritersOk(entries', writers)
  {
    forall w | w in writers
      ensures WriterOk(entries', writers[w])
    {
      var p := writers[w];
      assert WriterOk(entries, p);
      if !p.Acquiring? {
        var log, log' := entries[p.id].log, entries'[p.id].log;
        assert forall n :: 0 <= n <= |log| ==> log'[..n] == log[..n];
      }
    }
  }

  lemma AppendKeepsChained(entry: Entry, id: nat, task': Task, e: Event)
    requires Chained(entry, id)
    requires e.sequence == |entry.log| + 1 && e.taskId == id
    requires if StatusOf(e.eventType).Some? then task'.status == StatusOf(e.eventType).value else task'.status == entry.task.status
    ensures Chained(Entry(task', entry.log + [e]), id)
  {
    HistoryOfAppend(entry.log, e);
  }

  lemma ReplaceKeepsChained(entries: seq<Entry>, id: nat, entry': Entry)
    requires AllChained(entries) && id < |entries|
    requires Chained(entry', id) && entries[id].log <= entry'.log
    ensures AllChained(entries[id := entry'])
    ensures LogsGrow(entries, entries[id := entry'])
  {
  }

  lemma CommitKeepsChained(db: Db, id: nat, next: TaskStatus, sequence: int, payload: Payload, now: Timestamp)
    requires AllChained(db.entries) && id < |db.entries|
    requires 1 <= sequence <= |db.entries[id].log| + 1
    ensures
      var r := CommitTransition(db, id, next, sequence, payload, now);
      && (r.Some? <==> sequence == |db.entries[id].log| + 1)
      && (r.Some? ==> AllChained(r.value.entries) && LogsGrow(db.entries, r.value.entries))
  {
    var entry := db.entries[id];
    NumberedSequences(entry.log, id);
    if sequence == |entry.log| + 1 {
      var e := Event(id, sequence, EventTypeForStatus(next), payload, now);
      var task' := WithStatus(entry.task, next, now);
      AppendKeepsChained(entry, id, task', e);
      ReplaceKeepsChained(db.entries, id, Entry(task', entry.log + [e]));
    }
  }

  lemma CommitEventKeepsChained(db: Db, id: nat, eventType: EventType, sequence: int, payload: Payload, now: Timestamp)
    requires AllChained(db.entries) && id < |db.entries|
    requires 1 <= sequence <= |db.entries[id].log| + 1
    requires StatusOf(eventType).None?
    ensures
      var r := CommitEvent(db, id, eventType, sequence, payload, now);
      && (r.Some? <==> sequence == |db.entries[id].log| + 1)
      && (r.Some? ==> AllChained(r.value.entries) && LogsGrow(db.entries, r.value.entries))
  {
    var entry := db.entries[id];
    NumberedSequences(entry.log, id);
    if sequence == |entry.log| + 1 {
      var e := Event(id, sequence, eventType, payload, now);
      AppendKeepsChained(entry, id, entry.task, e);
      ReplaceKeepsChained(db.entries, id, Entry(entry.task, entry.log + [e]));
    }
  }

  lemma CreateKeepsChained(entries: seq<Entry>, input: CreateTask, now: Timestamp)
    requires AllChained(entries)
    ensures
      var entry := Entry(NewTask(input, now), [Event(|entries|, 1, TaskQueued, EmptyObject, now)]);
      AllChained(entries + [entry]) && LogsGrow(entries, entries + [entry])
  {
    NewEntrySourced(input, |entries|, now);
    var entry := Entry(NewTask(input, now), [Event(|entries|, 1, TaskQueued, EmptyObject, now)]);
    assert Sourced(entry, |entries|) && Chained(entry, |entries|);
    assert forall i :: 0 <= i < |entries| ==> (entries + [entry])[i] == entries[i];
  }

  lemma SaveKeepsChained(db: Db, result: TaskResult, now: Timestamp)
    requires AllChained(db.entries)
    ensures AllChained(SaveResult(db, result, now).entries)
    ensures LogsGrow(db.entries, SaveResult(db, result, now).entries)
  {
  }

  lemma RecordKeepsChained(db: Db, id: nat, request: PermissionRequest, now: Timestamp)
    requires AllChained(db.entries)
    ensures AllChained(RecordPermission(db, id, request, now).db.entries)
    ensures LogsGrow(db.entries, RecordPermission(db, id, request, now).db.entries)
  {
    if id < |db.entries| {
      assert Chained(db.entries[id], id);
      RecordPermissionEffect(db, id, request, now);
      CommitEventKeepsChained(db, id, ProviderPermissionRequested, |db.entries[id].log| + 1, RequestPayload(request), now);
    }
  }

  lemma ResolveEntries(
      db: Db, id: nat, requestId: string, decision: Decision, reason: Option<string>, now: Timestamp)
    requires id < |db.entries| ==> Numbered(db.entries[id].log, id)
    ensures
      var entries' := ResolvePermission(db, id, requestId, decision, reason, now).db.entries;
      || entries' == db.entries
      || (id < |db.entries| &&
          var r := CommitEvent(db, id, ProviderPermissionDecided, |db.entries[id].log| + 1,
                               DecisionPayload(PermissionResponse(requestId, decision, reason)), now);
          r.Some? && entries' == r.value.entries)
  {
    if id < |db.entries| {
      NumberedSequences(db.entries[id].log, id);
    }
  }

  lemma ResolveKeepsChained(
      db: Db, id: nat, requestId: string, decision: Decision, reason: Option<string>, now: Timestamp)
    requires AllChained(db.entries)
    ensures AllChained(ResolvePermission(db, id, requestId, decision, reason, now).db.entries)
    ensures LogsGrow(db.entries, ResolvePermission(db, id, requestId, decision, reason, now).db.entries)
  {
    assert id < |db.entries| ==> Chained(db.entries[id], id);
    ResolveEntries(db, id, requestId, decision, reason, now);
    if id < |db.entries| {
      CommitEventKeepsChained(db, id, ProviderPermissionDecided, |db.entries[id].log| + 1,
                              DecisionPayload(PermissionResponse(requestId, decision, reason)), now);
    }
  }

  lemma TransactKeepsChained(db: Db, call: Call, now: Timestamp)
    requires AllChained(db.entries)
    requires !call.CallTransition? && !call.CallAppend? && !call.CallAcquire?
    ensures AllChained(Perform(db, call, now).entries)
    ensures LogsGrow(db.entries, Perform(db, call, now).entries)
  {
    match call
    case CallCreate(input) => CreateKeepsChained(db.entries, input, now);
    case CallSaveResult(result) => SaveKeepsChained(db, result, now);
    case CallRecord(id, request) => RecordKeepsChained(db, id, request, now);
    case CallResolve(id, requestId, decision, reason) => ResolveKeepsChained(db, id, requestId, decision, reason, now);
    case CallRelease(_) =>
  }

  ghost predicate Consistent(s: World) {
    AllChained(s.db.entries) && WritersOk(s.db.entries, s.writers)
  }

  lemma ReadStatusKeeps(s: World, w: nat, id: nat, next: TaskStatus, now: Timestamp)
    requires Consistent(s)
    ensures Consistent(Do(s, ReadStatus(w, id, next), now))
  {
    if id < |s.db.entries| {
      var log := s.db.entries[id].log;
      assert log[..|log|] == log;
      assert Chained(s.db.entries[id], id);
    }
  }

  lemma ReadSequenceKeeps(s: World, w: nat, now: Timestamp)
    requires Consistent(s)
    ensures Consistent(Do(s, ReadSequence(w), now))
  {
    if w in s.writers && s.writers[w].Checked? {
      var id := s.writers[w].id;
      assert WriterOk(s.db.entries, s.writers[w]) && Chained(s.db.entries[id], id);
      NumberedSequences(s.db.entries[id].log, id);
    }
  }

  lemma CommitKeeps(s: World, w: nat, payload: Payload, now: Timestamp)
    requires Consistent(s)
    ensures
      var s' := Do(s, Commit(w, payload), now);
      Consistent(s') && LogsGrow(s.db.entries, s'.db.entries)
  {
    if w in s.writers && s.writers[w].Ready? {
      var p := s.writers[w];
      assert WriterOk(s.db.entries, p);
      CommitKeepsChained(s.db, p.id, p.next, p.sequence, payload, now);
      GrowthKeepsWriters(s.db.entries, Do(s, Commit(w, payload), now).db.entries, s.writers);
    }
  }

  lemma ReadAppendSequenceKeeps(s: World, w: nat, id: nat, eventType: EventType, now: Timestamp)
    requires Consistent(s) && eventType.IsRuntimeOutput()
    ensures Consistent(Do(s, ReadAppendSequence(w, id, eventType), now))
  {
    if id < |s.db.entries| {
      assert Chained(s.db.entries[id], id);
      NumberedSequences(s.db.entries[id].log, id);
    }
  }

  lemma CommitAppendKeeps(s: World, w: nat, payload: Payload, now: Timestamp)
    requires Consistent(s)
    ensures
      var s' := Do(s, CommitAppend(w, payload), now);
      Consistent(s') && LogsGrow(s.db.entries, s'.db.entries)
  {
    if w in s.writers && s.writers[w].ReadyToAppend? {
      var p := s.writers[w];
      assert WriterOk(s.db.entries, p);
      CommitEventKeepsChained(s.db, p.id, p.eventType, p.sequence, payload, now);
      GrowthKeepsWriters(s.db.entries, Do(s, CommitAppend(w, payload), now).db.entries, s.writers);
    }
  }

  lemma DoKeepsConsistent(s: World, step: Step, now: Timestamp)
    requires Consistent(s) && Admissible(step)
    ensures Consistent(Do(s, step, now))
    ensures LogsGrow(s.db.entries, Do(s, step, now).db.entries)
  {
    match step
    case ReadStatus(w, id, next) => ReadStatusKeeps(s, w, id, next, now);
    case ReadSequence(w) => ReadSequenceKeeps(s, w, now);
    case Commit(w, payload) => CommitKeeps(s, w, payload, now);
    case ReadAppendSequence(w, id, eventType) => ReadAppendSequenceKeeps(s, w, id, eventType, now);
    case CommitAppend(w, payload) => CommitAppendKeeps(s, w, payload, now);
    case ReadLocks(_, _, _, _) =>
    case InsertLock(_) =>
    case Transact(call) =>
      TransactKeepsChained(s.db, call, now);
      GrowthKeepsWriters(s.db.entries, Perform(s.db, call, now).entries, s.writers);
  }

  lemma {:induction false} EveryRunIsConsistent(steps: Run)
    requires IsRun(steps)
    ensures Consistent(After(steps))
  {
    if steps != [] {
      var n := |steps| - 1;
      EveryRunIsConsistent(steps[..n]);
      DoKeepsConsistent(After(steps[..n]), steps[n].0, steps[n].1);
    }
  }

  /** However the reads and commits of any number of writers interleave, each log
      is numbered exactly 1..n, starts with Queued, and the stored status is the one
      its last lifecycle event announced. */
  lemma {:induction false} LogsAreDense(steps: Run, id: nat)
    requires IsRun(steps)
    requires id < |After(steps).db.entries|
    ensures
      var entry := After(steps).db.entries[id];
      && (forall n :: SequenceTaken(entry.log, n) <==> 1 <= n <= |entry.log|)
      && (forall i :: 0 <= i < |entry.log| ==> entry.log[i].sequence == i + 1)
      && entry.log != []
      && entry.log[0].eventType == TaskQueued
      && Last(History(entry.log)) == Some(entry.task.status)
  {
    EveryRunIsConsistent(steps);
    var entry := After(steps).db.entries[id];
    assert Chained(entry, id);
    NumberedSequences(entry.log, id);
  }

  /** The event number is a compare-and-swap version. A commit succeeds exactly when
      nothing was appended since the number was read; a loser changes nothing; and a
      winner applies to the status the log had at that read. */
  lemma {:induction false} CompareAndSwap(steps: Run, w: nat, payload: Payload, now: Timestamp)
    requires IsRun(steps)
    requires w in After(steps).writers && After(steps).writers[w].Ready?
    ensures
      var s, s' := After(steps), Do(After(steps), Commit(w, payload), now);
      var p := s.writers[w];
      && p.id < |s.db.entries|
      && var entry := s.db.entries[p.id];
         && p.seenAt <= p.numberedAt <= |entry.log|
         && (|entry.log| != p.numberedAt ==> s'.db == s.db)
         && (|entry.log| == p.numberedAt ==>
               && |s'.db.entries| == |s.db.entries|
               && s'.db.entries[p.id].task.status == p.next
               && s'.db.entries[p.id].log[..|entry.log|] == entry.log
               && |s'.db.entries[p.id].log| == |entry.log| + 1
               && StatusAt(entry.log, p.numberedAt) == Some(entry.task.status)
               && (p.seenAt == p.numberedAt ==> entry.task.status == p.status && Allowed(entry.task.status, p.next)))
  {
    EveryRunIsConsistent(steps);
    var s := After(steps);
    var p := s.writers[w];
    assert WriterOk(s.db.entries, p);
    var entry := s.db.entries[p.id];
    CommitKeepsChained(s.db, p.id, p.next, p.sequence, payload, now);
    assert Chained(entry, p.id);
    assert entry.log[..|entry.log|] == entry.log;
  }

  /** A winner applies to the very status it validated if and only if no lifecycle
      event fell between its two reads, on a log that has been a lifecycle path so far. */
  lemma {:induction false} WinnerIsValidExactlyWhenWindowIsClean(steps: Run, w: nat)
    requires IsRun(steps)
    requires w in After(steps).writers && After(steps).writers[w].Ready?
    requires
      var s, p := After(steps), After(steps).writers[w];
      p.id < |s.db.entries| && p.numberedAt == |s.db.entries[p.id].log| && IsPath(History(s.db.entries[p.id].log))
    ensures
      var s, p := After(steps), After(steps).writers[w];
      var entry := s.db.entries[p.id];
      && p.seenAt <= |entry.log|
      && (entry.task.status == p.status <==> forall i :: p.seenAt <= i < |entry.log| ==> StatusOf(entry.log[i].eventType).None?)
      && (entry.task.status == p.status ==> Allowed(entry.task.status, p.next))
  {
    EveryRunIsConsistent(steps);
    var s, p := After(steps), After(steps).writers[w];
    ConsistentWriter(s, w);
    var log := s.db.entries[p.id].log;
    assert log[..|log|] == log;
    CleanWindowKeepsStatus(log, p.seenAt, p.numberedAt);
  }

  // ---- Every winner of a run --------------------------------------------

  /** The step is a commit that goes through. */
  ghost predicate Wins(s: World, step: Step) {
    && step.Commit? && step.w in s.writers && s.writers[step.w].Ready?
    && s.writers[step.w].id < |s.db.entries|
    && s.writers[step.w].numberedAt == |s.db.entries[s.writers[step.w].id].log|
  }

  /** A winner applies to the status it validated. */
  ghost predicate WinnerIsValid(s: World, step: Step) {
    Wins(s, step) ==> s.db.entries[s.writers[step.w].id].task.status == s.writers[step.w].status
  }

  /** No lifecycle event fell between a winner's two reads. */
  ghost predicate WindowIsClean(s: World, step: Step) {
    Wins(s, step) ==>
      var p, log := s.writers[step.w], s.db.entries[s.writers[step.w].id].log;
      forall i :: p.seenAt <= i < |log| ==> StatusOf(log[i].eventType).None?
  }

  ghost predicate AllPaths(entries: seq<Entry>) {
    forall i :: 0 <= i < |entries| ==> IsPath(History(entries[i].log))
  }

  lemma QuietAppendKeepsPaths(entries: seq<Entry>, id: nat, entry': Entry, e: Event)
    requires AllPaths(entries) && id < |entries| && entry'.log == entries[id].log + [e] && StatusOf(e.eventType).None?
    ensures AllPaths(entries[id := entry'])
  {
    HistoryOfAppend(entries[id].log, e);
  }

  lemma CreateKeepsPaths(db: Db, input: CreateTask, now: Timestamp)
    requires AllPaths(db.entries)
    ensures AllPaths(CreateRow(db, input, now).db.entries)
  {
    NewEntrySourced(input, |db.entries|, now);
    hide Validate, NewTask;
    var entries' := CreateRow(db, input, now).db.entries;
    assert forall i :: 0 <= i < |db.entries| ==> entries'[i] == db.entries[i];
  }

  lemma TransactKeepsPaths(db: Db, call: Call, now: Timestamp)
    requires AllChained(db.entries) && AllPaths(db.entries)
    requires !call.CallTransition? && !call.CallAppend? && !call.CallAcquire?
    ensures AllPaths(Perform(db, call, now).entries)
  {
    match call
    case CallCreate(input) => CreateKeepsPaths(db, input, now);
    case CallRecord(id, request) =>
      hide RecordPermission;
      if id < |db.entries| {
        assert Chained(db.entries[id], id);
        RecordPermissionEffect(db, id, request, now);
        var e := Event(id, |db.entries[id].log| + 1, ProviderPermissionRequested, RequestPayload(request), now);
        QuietAppendKeepsPaths(db.entries, id, db.entries[id].(log := db.entries[id].log + [e]), e);
      } else {
        RecordPermissionEffect(db, id, request, now);
      }
    case CallResolve(id, requestId, decision, reason) =>
      hide ResolvePermission;
      assert id < |db.entries| ==> Chained(db.entries[id], id);
      ResolveEntries(db, id, requestId, decision, reason, now);
      if id < |db.entries| {
        var e := Event(id, |db.entries[id].log| + 1, ProviderPermissionDecided,
                       DecisionPayload(PermissionResponse(requestId, decision, reason)), now);
        QuietAppendKeepsPaths(db.entries, id, db.entries[id].(log := db.entries[id].log + [e]), e);
      }
    case CallSaveResult(_) =>
    case CallRelease(_) =>
  }

  lemma CommitKeepsPaths(s: World, w: nat, payload: Payload, now: Timestamp)
    requires Consistent(s) && AllPaths(s.db.entries) && WinnerIsValid(s, Commit(w, payload))
    ensures AllPaths(Do(s, Commit(w, payload), now).db.entries)
  {
    hide History, IsPath;
    if w in s.writers && s.writers[w].Ready? {
      ConsistentWriter(s, w);
      var p := s.writers[w];
      var entry := s.db.entries[p.id];
      CommitKeepsChained(s.db, p.id, p.next, p.sequence, payload, now);
      if Wins(s, Commit(w, payload)) {
        var e := Event(p.id, |entry.log| + 1, EventTypeForStatus(p.next), payload, now);
        HistoryOfAppend(entry.log, e);
        PathExtends(History(entry.log), p.next);
      }
    }
  }

  lemma CommitAppendKeepsPaths(s: World, w: nat, payload: Payload, now: Timestamp)
    requires Consistent(s) && AllPaths(s.db.entries)
    ensures AllPaths(Do(s, CommitAppend(w, payload), now).db.entries)
  {
    if w in s.writers && s.writers[w].ReadyToAppend? {
      ConsistentWriter(s, w);
      var p := s.writers[w];
      var e := Event(p.id, p.sequence, p.eventType, payload, now);
      QuietAppendKeepsPaths(s.db.entries, p.id, s.db.entries[p.id].(log := s.db.entries[p.id].log + [e]), e);
    }
  }

  lemma DoKeepsPaths(s: World, step: Step, now: Timestamp)
    requires Consistent(s) && AllPaths(s.db.entries) && Admissible(step) && WinnerIsValid(s, step)
    ensures AllPaths(Do(s, step, now).db.entries)
  {
    hide AllPaths, WinnerIsValid, Consistent, SequenceTaken, NextSequence;
    match step
    case Commit(w, payload) => CommitKeepsPaths(s, w, payload, now);
    case CommitAppend(w, payload) => CommitAppendKeepsPaths(s, w, payload, now);
    case Transact(call) =>
      ChainedOfConsistent(s);
      TransactKeepsPaths(s.db, call, now);
    case _ =>
  }

  lemma ChainedOfConsistent(s: World)
    requires Consistent(s)
    ensures AllChained(s.db.entries)
  {
  }

  /** While all logs are paths, a winner is valid exactly when its window is clean. */
  lemma WinnerIsValidExactly(s: World, step: Step)
    requires Consistent(s) && AllPaths(s.db.entries)
    ensures WinnerIsValid(s, step) <==> WindowIsClean(s, step)
  {
    if Wins(s, step) {
      ConsistentWriter(s, step.w);
      var p := s.writers[step.w];
      var log := s.db.entries[p.id].log;
      assert log[..|log|] == log;
      CleanWindowKeepsStatus(log, p.seenAt, p.numberedAt);
    }
  }

  ghost predicate WinnersValidThroughout(steps: Run) {
    forall i :: 0 <= i < |steps| ==> WinnerIsValid(After(steps[..i]), steps[i].0)
  }

  ghost predicate WindowsCleanThroughout(steps: Run) {
    forall i :: 0 <= i < |steps| ==> WindowIsClean(After(steps[..i]), steps[i].0)
  }

  lemma {:induction false} WinnersOneMore(steps: Run)
    requires steps != []
    ensures
      var n := |steps| - 1;
      && (WinnersValidThroughout(steps) <==> WinnersValidThroughout(steps[..n]) && WinnerIsValid(After(steps[..n]), steps[n].0))
      && (WindowsCleanThroughout(steps) <==> WindowsCleanThroughout(steps[..n]) && WindowIsClean(After(steps[..n]), steps[n].0))
  {
    hide After, WinnerIsValid, WindowIsClean;
    var n := |steps| - 1;
    assert forall i :: 0 <= i < n ==> steps[..n][..i] == steps[..i] && steps[..n][i] == steps[i];
  }

  /** Over every interleaving, each winner applies to the status it validated throughout if
      and only if throughout no lifecycle event falls between a winner's two reads; every
      log is then a lifecycle path. */
  lemma {:induction false} WinnersAreValidExactly(steps: Run)
    requires IsRun(steps)
    ensures WinnersValidThroughout(steps) <==> WindowsCleanThroughout(steps)
    ensures WinnersValidThroughout(steps) ==> AllPaths(After(steps).db.entries)
  {
    if steps != [] {
      hide WinnersValidThroughout, WindowsCleanThroughout, WinnerIsValid, WindowIsClean, AllPaths, Consistent, Do;
      var n := |steps| - 1;
      WinnersAreValidExactly(steps[..n]);
      EveryRunIsConsistent(steps[..n]);
      WinnersOneMore(steps);
      if WinnersValidThroughout(steps[..n]) {
        WinnerIsValidExactly(After(steps[..n]), steps[n].0);
        if WinnerIsValid(After(steps[..n]), steps[n].0) {
          DoKeepsPaths(After(steps[..n]), steps[n].0, steps[n].1);
        }
      }
    }
  }

  lemma CleanWindowKeepsStatus(log: Log, seenAt: nat, numberedAt: nat)
    requires seenAt <= numberedAt <= |log|
    requires IsPath(History(log[..numberedAt]))
    requires History(log[..seenAt]) != []
    ensures StatusAt(log, numberedAt) == StatusAt(log, seenAt)
            <==> (forall i :: seenAt <= i < numberedAt ==> StatusOf(log[i].eventType).None?)
  {
    var h0, h1 := History(log[..seenAt]), History(log[..numberedAt]);
    HistoryGrows(log, seenAt, numberedAt);
    PathsAreShort(h1);
    if |h1| > |h0| {
      assert h1[|h0| - 1] == h0[|h0| - 1];
    }
  }

  lemma {:induction false} HistoryGrows(log: Log, a: nat, b: nat)
    requires a <= b <= |log|
    ensures History(log[..a]) <= History(log[..b])
    ensures |History(log[..a])| == |History(log[..b])| <==> (forall i :: a <= i < b ==> StatusOf(log[i].eventType).None?)
  {
    if a < b {
      HistoryGrows(log, a, b - 1);
      assert log[..b] == log[..b - 1] + [log[b - 1]];
      HistoryOfAppend(log[..b - 1], log[b - 1]);
    }
  }

  // ---- Runs that behave like serial calls -------------------------------

  /** Every transition reads its event number while the status it validated still
      stands, and every lock is inserted while its check still stands. */
  ghost predicate Disciplined(steps: Run) {
    forall i :: 0 <= i < |steps| ==> StatusStands(After(steps[..i]), steps[i].0) && LockStands(After(steps[..i]), steps[i].0)
  }

  ghost predicate LockStands(s: World, step: Step) {
    step.InsertLock? && step.w in s.writers && s.writers[step.w].Acquiring? ==>
      !Conflicts(s.db.locks, s.writers[step.w].directoryId, s.writers[step.w].mode)
  }

  ghost predicate StatusStands(s: World, step: Step) {
    step.ReadSequence? && step.w in s.writers && s.writers[step.w].Checked? && s.writers[step.w].id < |s.db.entries| ==>
      s.db.entries[s.writers[step.w].id].task.status == s.writers[step.w].status
  }

  /** The serial call a step amounts to, if it commits. */
  function SerialCall(s: World, step: Step): seq<Call> {
    match step
    case Commit(w, payload) =>
      if w in s.writers && s.writers[w].Ready? && s.writers[w].id < |s.db.entries| &&
         !SequenceTaken(s.db.entries[s.writers[w].id].log, s.writers[w].sequence)
      then [CallTransition(s.writers[w].id, s.writers[w].next, payload)] else []
    case CommitAppend(w, payload) =>
      if w in s.writers && s.writers[w].ReadyToAppend? && s.writers[w].id < |s.db.entries| &&
         !SequenceTaken(s.db.entries[s.writers[w].id].log, s.writers[w].sequence)
      then [CallAppend(s.writers[w].id, s.writers[w].eventType, payload)] else []
    case InsertLock(w) =>
      if w in s.writers && s.writers[w].Acquiring?
      then [CallAcquire(s.writers[w].id, s.writers[w].directoryId, s.writers[w].mode)] else []
    case Transact(call) => [call]
    case _ => []
  }

  function WithTime(calls: seq<Call>, now: Timestamp): seq<(Call, Timestamp)> {
    if calls == [] then [] else [(calls[0], now)] + WithTime(calls[1..], now)
  }

  function Serialise(steps: Run): seq<(Call, Timestamp)> {
    if steps == [] then []
    else
      var n := |steps| - 1;
      Serialise(steps[..n]) + WithTime(SerialCall(After(steps[..n]), steps[n].0), steps[n].1)
  }

  /** A writer that would win still holds the current status. */
  ghost predicate Fresh(s: World) {
    forall w :: w in s.writers ==> FreshWriter(s.db.entries, s.writers[w])
  }

  /** A commit with the next free number of a log is the serial call. */
  lemma FreeNumberIsSerial(db: Db, id: nat, next: TaskStatus, payload: Payload, now: Timestamp)
    requires id < |db.entries| && Numbered(db.entries[id].log, id)
    requires Allowed(db.entries[id].task.status, next)
    ensures
      var r := CommitTransition(db, id, next, |db.entries[id].log| + 1, payload, now);
      r.Some? && Perform(db, CallTransition(id, next, payload), now) == r.value
  {
    ChangeStatusEffect(db, id, next, payload, now);
  }

  lemma ConsistentWriter(s: World, w: nat)
    requires Consistent(s) && w in s.writers
    ensures WriterOk(s.db.entries, s.writers[w])
    ensures !s.writers[w].Acquiring? ==>
      s.writers[w].id < |s.db.entries| && Chained(s.db.entries[s.writers[w].id], s.writers[w].id)
  {
    assert WriterOk(s.db.entries, s.writers[w]);
  }

  lemma CommitIsSerial(s: World, w: nat, payload: Payload, now: Timestamp)
    requires Consistent(s) && Fresh(s)
    requires w in s.writers && s.writers[w].Ready?
    ensures
      var calls := SerialCall(s, Commit(w, payload));
      Do(s, Commit(w, payload), now).db == if calls == [] then s.db else Perform(s.db, calls[0], now)
  {
    hide Perform, CommitTransition, History, AllChained;
    var p := s.writers[w];
    assert WriterOk(s.db.entries, p) && FreshWriter(s.db.entries, p) && Chained(s.db.entries[p.id], p.id) by {
      ConsistentWriter(s, w);
    }
    NumberedSequences(s.db.entries[p.id].log, p.id);
    CommitKeepsChained(s.db, p.id, p.next, p.sequence, payload, now);
    if p.sequence == |s.db.entries[p.id].log| + 1 {
      FreeNumberIsSerial(s.db, p.id, p.next, payload, now);
    }
  }

  lemma CommitAppendIsSerial(s: World, w: nat, payload: Payload, now: Timestamp)
    requires Consistent(s)
    requires w in s.writers && s.writers[w].ReadyToAppend?
    ensures
      var calls := SerialCall(s, CommitAppend(w, payload));
      Do(s, CommitAppend(w, payload), now).db == if calls == [] then s.db else Perform(s.db, calls[0], now)
  {
    var p := s.writers[w];
    assert WriterOk(s.db.entries, p) && Chained(s.db.entries[p.id], p.id);
    NumberedSequences(s.db.entries[p.id].log, p.id);
  }

  /** A task whose log did not grow kept its status. */
  ghost predicate StatusNeedsEvent(entries: seq<Entry>, entries': seq<Entry>) {
    && |entries| <= |entries'|
    && forall i :: 0 <= i < |entries| && |entries'[i].log| == |entries[i].log| ==> entries'[i].task.status == entries[i].task.status
  }

  ghost predicate FreshWriter(entries: seq<Entry>, p: Writer) {
    p.Ready? && p.id < |entries| && p.numberedAt == |entries[p.id].log| ==> entries[p.id].task.status == p.status
  }

  lemma GrowthKeepsFresh(entries: seq<Entry>, entries': seq<Entry>, p: Writer)
    requires AllChained(entries) && AllChained(entries') && LogsGrow(entries, entries')
    requires WriterOk(entries, p) && FreshWriter(entries, p)
    ensures FreshWriter(entries', p)
  {
    ChainedStatusNeedsEvent(entries, entries');
  }

  /** A step changes at most its own writer. */
  lemma WritersAfter(s: World, step: Step, now: Timestamp, w: nat)
    requires w in Do(s, step, now).writers && Do(s, step, now).writers[w].Ready?
    ensures
      var s' := Do(s, step, now);
      || (w in s.writers && s'.writers[w] == s.writers[w])
      || (step == ReadSequence(w) && w in s.writers && s.writers[w].Checked? && s.writers[w].id < |s.db.entries|
          && s'.db == s.db && s'.writers[w].id == s.writers[w].id && s'.writers[w].status == s.writers[w].status)
  {
  }

  lemma DoKeepsFresh(s: World, step: Step, now: Timestamp)
    requires Consistent(s) && Fresh(s) && Admissible(step) && StatusStands(s, step)
    ensures Fresh(Do(s, step, now))
  {
    var s' := Do(s, step, now);
    DoKeepsConsistent(s, step, now);
    forall w | w in s'.writers
      ensures FreshWriter(s'.db.entries, s'.writers[w])
    {
      if s'.writers[w].Ready? {
        WritersAfter(s, step, now, w);
        if w in s.writers && s'.writers[w] == s.writers[w] {
          assert WriterOk(s.db.entries, s.writers[w]);
          GrowthKeepsFresh(s.db.entries, s'.db.entries, s.writers[w]);
        }
      }
    }
  }

  lemma ChainedStatusNeedsEvent(entries: seq<Entry>, entries': seq<Entry>)
    requires AllChained(entries) && AllChained(entries') && LogsGrow(entries, entries')
    ensures StatusNeedsEvent(entries, entries')
  {
    forall i | 0 <= i < |entries| && |entries'[i].log| == |entries[i].log|
      ensures entries'[i].task.status == entries[i].task.status
    {
      assert entries'[i].log == entries[i].log;
      assert Chained(entries[i], i) && Chained(entries'[i], i);
    }
  }

  lemma StepIsSerial(s: World, step: Step, now: Timestamp)
    requires Consistent(s) && Fresh(s) && Admissible(step) && LockStands(s, step)
    ensures
      var calls := SerialCall(s, step);
      && |calls| <= 1
      && Do(s, step, now).db == (if calls == [] then s.db else Perform(s.db, calls[0], now))
      && (calls != [] && calls[0].CallAppend? ==> IsRuntimeEvent(calls[0].eventType, calls[0].payload))
  {
    match step
    case Commit(w, payload) =>
      if w in s.writers && s.writers[w].Ready? { CommitIsSerial(s, w, payload, now); }
    case CommitAppend(w, payload) =>
      if w in s.writers && s.writers[w].ReadyToAppend? {
        assert WriterOk(s.db.entries, s.writers[w]);
        CommitAppendIsSerial(s, w, payload, now);
      }
    case _ =>
  }

  lemma {:induction false} DisciplinedRunsAreFresh(steps: Run)
    requires IsRun(steps) && Disciplined(steps)
    ensures Fresh(After(steps))
  {
    if steps != [] {
      var n := |steps| - 1;
      var init := steps[..n];
      assert forall i :: 0 <= i < n ==> init[..i] == steps[..i];
      DisciplinedRunsAreFresh(init);
      EveryRunIsConsistent(init);
      DoKeepsFresh(After(init), steps[n].0, steps[n].1);
    }
  }

  lemma {:induction false} PerformOneMore(db: Db, calls: seq<(Call, Timestamp)>, call: Call, now: Timestamp)
    ensures PerformAll(db, calls + [(call, now)]) == Perform(PerformAll(db, calls), call, now)
  {
    var longer := calls + [(call, now)];
    assert longer[..|longer| - 1] == calls;
  }

  lemma {:induction false} SerialiseOneMore(db: Db, before: seq<(Call, Timestamp)>, calls: seq<Call>, now: Timestamp)
    requires |calls| <= 1
    requires AppendsRuntimeOutput(before)
    requires calls != [] && calls[0].CallAppend? ==> IsRuntimeEvent(calls[0].eventType, calls[0].payload)
    ensures
      var db' := PerformAll(db, before);
      PerformAll(db, before + WithTime(calls, now)) == if calls == [] then db' else Perform(db', calls[0], now)
    ensures AppendsRuntimeOutput(before + WithTime(calls, now))
  {
    if calls == [] {
      assert before + WithTime(calls, now) == before;
    } else {
      assert WithTime(calls, now) == [(calls[0], now)];
      PerformOneMore(db, before, calls[0], now);
    }
  }

  /** Refinement: if every transition reads its event number while its status still
      stands, and every lock is inserted while its check does, the interleaving leaves
      exactly the database of a serial run. */
  lemma {:induction false} DisciplinedRunsSerialise(steps: Run)
    requires IsRun(steps) && Disciplined(steps)
    ensures After(steps).db == PerformAll(EMPTY_DB, Serialise(steps))
    ensures AppendsRuntimeOutput(Serialise(steps))
  {
    if steps != [] {
      var n := |steps| - 1;
      var init, step, now := steps[..n], steps[n].0, steps[n].1;
      assert forall i :: 0 <= i < n ==> init[..i] == steps[..i];
      DisciplinedRunsSerialise(init);
      DisciplinedRunsAreFresh(init);
      EveryRunIsConsistent(init);
      StepIsSerial(After(init), step, now);
      var calls := SerialCall(After(init), step);
      SerialiseOneMore(EMPTY_DB, Serialise(init), calls, now);
    }
  }

  /** So everything proved of serial runs holds of disciplined interleavings. */
  lemma {:induction false} DisciplinedRunsAreSourced(steps: Run)
    requires IsRun(steps) && Disciplined(steps)
    ensures StoreOk(After(steps).db)
  {
    DisciplinedRunsSerialise(steps);
    EmptyIsOk();
    RunsKeep(EMPTY_DB, Serialise(steps));
  }

  // ---- Locks that are checked and inserted apart ------------------------

  /** No other task holds a conflicting lock at the insert. */
  ghost predicate InsertIsClear(s: World, step: Step) {
    step.InsertLock? && step.w in s.writers && s.writers[step.w].Acquiring? ==>
      var p := s.writers[step.w];
      !Conflicts(s.db.locks - {LockKey(p.directoryId, p.id)}, p.directoryId, p.mode)
  }

  lemma StepKeepsExclusiveExactly(s: World, step: Step, now: Timestamp)
    requires LocksExclusive(s.db.locks) && Admissible(step)
    ensures LocksExclusive(Do(s, step, now).db.locks) <==> InsertIsClear(s, step)
  {
    hide LocksExclusive, SequenceTaken, NextSequence, ResolvePermission, RecordPermission;
    match step
    case Commit(w, _) =>
      if w in s.writers { ReleaseKeepsExclusive(s.db.locks, s.writers[w].id, now); }
    case InsertLock(w) =>
      if w in s.writers && s.writers[w].Acquiring? {
        InsertKeepsExclusiveExactly(s.db.locks, s.writers[w].directoryId, s.writers[w].id, s.writers[w].mode, now);
      }
    case Transact(call) => SerialCallKeepsExclusive(s.db, call, now);
    case _ =>
  }

  lemma SerialCallKeepsExclusive(db: Db, call: Call, now: Timestamp)
    requires LocksExclusive(db.locks) && !call.CallTransition? && !call.CallAppend? && !call.CallAcquire?
    ensures LocksExclusive(Perform(db, call, now).locks)
  {
    if call.CallRelease? {
      ReleaseKeepsExclusive(db.locks, call.id, now);
    }
  }

  ghost predicate ExclusiveThroughout(steps: Run) {
    forall i :: 0 <= i <= |steps| ==> LocksExclusive(After(steps[..i]).db.locks)
  }

  ghost predicate ClearThroughout(steps: Run) {
    forall i :: 0 <= i < |steps| ==> InsertIsClear(After(steps[..i]), steps[i].0)
  }

  lemma {:induction false} ThroughoutOneMore(steps: Run)
    requires steps != []
    ensures
      var init := steps[..|steps| - 1];
      && (ExclusiveThroughout(steps) <==> ExclusiveThroughout(init) && LocksExclusive(After(steps).db.locks))
      && (ClearThroughout(steps) <==> ClearThroughout(init) && InsertIsClear(After(init), steps[|steps| - 1].0))
      && (ExclusiveThroughout(init) ==> LocksExclusive(After(init).db.locks))
  {
    hide LocksExclusive, InsertIsClear, After;
    var n := |steps| - 1;
    var init := steps[..n];
    assert forall i :: 0 <= i <= n ==> init[..i] == steps[..i];
    assert steps[..|steps|] == steps && init[..n] == init;
  }

  /** In any interleaving, a held exclusive lock is always the only held lock on its
      directory if and only if every insert finds no conflicting lock of another task. */
  lemma {:induction false} LocksStayExclusiveExactly(steps: Run)
    requires IsRun(steps)
    ensures ExclusiveThroughout(steps) <==> ClearThroughout(steps)
  {
    hide LocksExclusive, InsertIsClear, Do, ExclusiveThroughout, ClearThroughout;
    if steps == [] {
      NoLocksAreExclusive();
    } else {
      var n := |steps| - 1;
      LocksStayExclusiveExactly(steps[..n]);
      ThroughoutOneMore(steps);
      if LocksExclusive(After(steps[..n]).db.locks) {
        StepKeepsExclusiveExactly(After(steps[..n]), steps[n].0, steps[n].1);
      }
    }
  }

  lemma NoLocksAreExclusive()
    ensures ExclusiveThroughout([]) && ClearThroughout([])
  {
  }

  /** Acquisitions of one directory do not overlap: none starts while another is between
      its check and its insert. */
  ghost predicate NonOverlapping(steps: Run) {
    forall i :: 0 <= i < |steps| ==> StartsAlone(After(steps[..i]), steps[i].0)
  }

  ghost predicate StartsAlone(s: World, step: Step) {
    step.ReadLocks? ==>
      forall w :: w in s.writers && w != step.w && s.writers[w].Acquiring? ==> s.writers[w].directoryId != step.directoryId
  }

  /** At most one acquisition per directory is under way, and its check still stands. */
  ghost predicate ChecksStand(s: World) {
    && (forall w :: w in s.writers && s.writers[w].Acquiring? ==> !Conflicts(s.db.locks, s.writers[w].directoryId, s.writers[w].mode))
    && (forall v, w :: v in s.writers && w in s.writers && s.writers[v].Acquiring? && s.writers[w].Acquiring? && v != w ==>
          s.writers[v].directoryId != s.writers[w].directoryId)
  }

  /** Locks held afterwards were held before. */
  ghost predicate LocksShrink(locks: LockTable, locks': LockTable) {
    forall k :: k in locks' && locks'[k].held ==> k in locks && locks[k].held && locks'[k].mode == locks[k].mode
  }

  lemma OnlyInsertsAddLocks(s: World, step: Step, now: Timestamp)
    requires Admissible(step) && !step.InsertLock?
    ensures LocksShrink(s.db.locks, Do(s, step, now).db.locks)
  {
    hide SequenceTaken, NextSequence;
  }

  /** Other steps start no acquisition, and end at most their own. */
  lemma OnlyReadsStartAcquisitions(s: World, step: Step, now: Timestamp, w: nat)
    requires !step.ReadLocks? && w in Do(s, step, now).writers && Do(s, step, now).writers[w].Acquiring?
    ensures w in s.writers && Do(s, step, now).writers[w] == s.writers[w]
    ensures step.InsertLock? && s.writers[w].Acquiring? && step.w in s.writers && s.writers[step.w].Acquiring? ==> step.w != w
  {
    hide Perform, SequenceTaken, NextSequence, CommitTransition, CommitEvent;
  }

  lemma DoKeepsChecks(s: World, step: Step, now: Timestamp)
    requires ChecksStand(s) && Admissible(step) && StartsAlone(s, step)
    ensures ChecksStand(Do(s, step, now))
  {
    var s' := Do(s, step, now);
    if step.ReadLocks? {
      assert s'.db == s.db;
    } else {
      forall w | w in s'.writers && s'.writers[w].Acquiring?
        ensures w in s.writers && s'.writers[w] == s.writers[w]
        ensures !Conflicts(s'.db.locks, s'.writers[w].directoryId, s'.writers[w].mode)
      {
        OnlyReadsStartAcquisitions(s, step, now, w);
        LocksAwayKeepChecks(s, step, now, w);
      }
    }
  }

  lemma LocksAwayKeepChecks(s: World, step: Step, now: Timestamp, w: nat)
    requires ChecksStand(s) && Admissible(step) && w in s.writers && s.writers[w].Acquiring?
    requires step.InsertLock? && step.w in s.writers && s.writers[step.w].Acquiring? ==> step.w != w
    ensures !Conflicts(Do(s, step, now).db.locks, s.writers[w].directoryId, s.writers[w].mode)
  {
    if !step.InsertLock? {
      hide Do;
      OnlyInsertsAddLocks(s, step, now);
    }
  }

  lemma {:induction false} NonOverlappingChecksStand(steps: Run)
    requires IsRun(steps) && NonOverlapping(steps)
    ensures ChecksStand(After(steps))
  {
    hide ChecksStand, StartsAlone, Do;
    if steps == [] {
      NobodyIsAcquiring();
    } else {
      var n := |steps| - 1;
      var init := steps[..n];
      assert forall i :: 0 <= i < n ==> init[..i] == steps[..i];
      NonOverlappingChecksStand(init);
      DoKeepsChecks(After(init), steps[n].0, steps[n].1);
    }
  }

  lemma NobodyIsAcquiring()
    ensures ChecksStand(After([]))
  {
  }

  /** So when acquisitions of one directory do not overlap, exclusive locks stay alone,
      and every insert is the serial call. */
  lemma {:induction false} NonOverlappingLocksStayExclusive(steps: Run)
    requires IsRun(steps) && NonOverlapping(steps)
    ensures LocksExclusive(After(steps).db.locks)
    ensures forall i :: 0 <= i < |steps| ==> LockStands(After(steps[..i]), steps[i].0)
  {
    forall i | 0 <= i < |steps|
      ensures LockStands(After(steps[..i]), steps[i].0) && InsertIsClear(After(steps[..i]), steps[i].0)
    {
      var init := steps[..i];
      assert forall j :: 0 <= j < i ==> init[..j] == steps[..j];
      NonOverlappingChecksStand(init);
      StandingCheckIsClear(After(init), steps[i].0);
    }
    LocksStayExclusiveExactly(steps);
    assert steps[..|steps|] == steps;
  }

  /** With that, and every transition numbered while its status stands, interleavings
      keep every store invariant. */
  lemma {:induction false} NonOverlappingRunsAreSourced(steps: Run)
    requires IsRun(steps) && NonOverlapping(steps)
    requires forall i :: 0 <= i < |steps| ==> StatusStands(After(steps[..i]), steps[i].0)
    ensures StoreOk(After(steps).db)
  {
    hide StatusStands, LockStands, StoreOk, After;
    NonOverlappingLocksStayExclusive(steps);
    DisciplinedRunsAreSourced(steps);
  }

  lemma StandingCheckIsClear(s: World, step: Step)
    requires ChecksStand(s)
    ensures LockStands(s, step) && InsertIsClear(s, step)
  {
  }

  // ---- An undisciplined run ---------------------------------------------

  lemma {:induction false} AfterOneMore(steps: Run, step: Step, now: Timestamp)
    ensures After(steps + [(step, now)]) == Do(After(steps), step, now)
  {
    var longer := steps + [(step, now)];
    assert longer[..|longer| - 1] == steps;
  }

  /** A writer whose number is still free commits, whatever status it validated. */
  lemma ReadyWriterCommits(s: World, w: nat, p: Writer, now: Timestamp)
    requires p.Checked? && p.id < |s.db.entries| && Chained(s.db.entries[p.id], p.id)
    requires w in s.writers && s.writers[w] == p
    ensures
      var s' := Do(Do(s, ReadSequence(w), now), Commit(w, EmptyObject), now);
      && |s'.db.entries| == |s.db.entries|
      && Chained(s'.db.entries[p.id], p.id)
      && s'.db.entries[p.id].task.status == p.next
      && History(s'.db.entries[p.id].log) == History(s.db.entries[p.id].log) + [p.next]
      && s'.writers == s.writers - {w}
  {
    var entry := s.db.entries[p.id];
    NumberedSequences(entry.log, p.id);
    var e := Event(p.id, |entry.log| + 1, EventTypeForStatus(p.next), EmptyObject, now);
    HistoryOfAppend(entry.log, e);
    AppendKeepsChained(entry, p.id, WithStatus(entry.task, p.next, now), e);
    var s1 := Do(s, ReadSequence(w), now);
    assert s1.writers[w] == Ready(p.id, p.next, p.status, p.seenAt, |entry.log| + 1, |entry.log|);
    var s' := Do(s1, Commit(w, EmptyObject), now);
    assert s'.db.entries[p.id] == Entry(WithStatus(entry.task, p.next, now), entry.log + [e]);
    assert s1.writers - {w} == s.writers - {w};
  }

  lemma NewTaskHistory(input: CreateTask)
    requires Validate(input).None?
    ensures
      var s := Do(World(EMPTY_DB, map[]), Transact(CallCreate(input)), 0);
      && |s.db.entries| == 1
      && s.writers == map[]
      && Chained(s.db.entries[0], 0)
      && s.db.entries[0].task.status == Queued
      && History(s.db.entries[0].log) == [Queued]
  {
    var e := Event(0, 1, TaskQueued, EmptyObject, 0);
    NewEntrySourced(input, 0, 0);
    HistoryOfAppend([], e);
    assert [] + [e] == [e];
  }

  lemma {:induction false} BothValidate(input: CreateTask) returns (steps: Run)
    requires Validate(input).None?
    ensures IsRun(steps)
    ensures
      var s := After(steps);
      && |s.db.entries| == 1
      && Chained(s.db.entries[0], 0)
      && History(s.db.entries[0].log) == [Queued]
      && 1 in s.writers && s.writers[1].Checked? && s.writers[1].id == 0 && s.writers[1].next == WaitingDirectoryLock
      && 2 in s.writers && s.writers[2].Checked? && s.writers[2].id == 0 && s.writers[2].next == Cancelled
  {
    steps := [] + [(Transact(CallCreate(input)), 0)];
    AfterOneMore([], Transact(CallCreate(input)), 0);
    NewTaskHistory(input);
    AfterOneMore(steps, ReadStatus(1, 0, WaitingDirectoryLock), 0);
    steps := steps + [(ReadStatus(1, 0, WaitingDirectoryLock), 0)];
    AfterOneMore(steps, ReadStatus(2, 0, Cancelled), 0);
    steps := steps + [(ReadStatus(2, 0, Cancelled), 0)];
  }

  lemma {:induction false} WriterFinishes(before: Run, w: nat) returns (steps: Run)
    requires IsRun(before)
    requires w in After(before).writers && After(before).writers[w].Checked?
    requires
      var s, id := After(before), After(before).writers[w].id;
      id < |s.db.entries| && Chained(s.db.entries[id], id)
    ensures IsRun(steps)
    ensures
      var s, s' := After(before), After(steps);
      var p := s.writers[w];
      && |s'.db.entries| == |s.db.entries|
      && Chained(s'.db.entries[p.id], p.id)
      && s'.db.entries[p.id].task.status == p.next
      && History(s'.db.entries[p.id].log) == History(s.db.entries[p.id].log) + [p.next]
      && s'.writers == s.writers - {w}
  {
    ReadyWriterCommits(After(before), w, After(before).writers[w], 0);
    AfterOneMore(before, ReadSequence(w), 0);
    var middle := before + [(ReadSequence(w), 0)];
    AfterOneMore(middle, Commit(w, EmptyObject), 0);
    steps := middle + [(Commit(w, EmptyObject), 0)];
  }

  /** Without the discipline a finished task can come back: writer 1 validates
      Queued -> WaitingDirectoryLock, writer 2 cancels the task, and writer 1 then
      reads a fresh event number and commits over the cancellation. */
  lemma UndisciplinedRunRevivesTask(input: CreateTask)
    requires Validate(input).None?
    ensures exists steps: Run ::
      && IsRun(steps)
      && |After(steps).db.entries| == 1
      && History(After(steps).db.entries[0].log) == [Queued, Cancelled, WaitingDirectoryLock]
      && After(steps).db.entries[0].task.status == WaitingDirectoryLock
  {
    var validated := BothValidate(input);
    var cancelled := WriterFinishes(validated, 2);
    var revived := WriterFinishes(cancelled, 1);
    assert History(After(revived).db.entries[0].log) == [Queued, Cancelled, WaitingDirectoryLock];
  }

  /** Whenever nothing is held on a directory, two acquisitions that both check before
      either inserts leave it with two exclusive locks held. */
  lemma {:induction false} OverlappingAcquisitionsShareADirectory(before: Run, v: nat, w: nat, a: nat, b: nat, directoryId: string)
    returns (steps: Run)
    requires IsRun(before) && v != w && a != b
    requires forall k :: k in After(before).db.locks && k.directoryId == directoryId ==> !After(before).db.locks[k].held
    ensures IsRun(steps) && before <= steps && |steps| == |before| + 4
    ensures
      var locks := After(steps).db.locks;
      && LockKey(directoryId, a) in locks && locks[LockKey(directoryId, a)] == Lock(Exclusive, true, 0, None)
      && LockKey(directoryId, b) in locks && locks[LockKey(directoryId, b)] == Lock(Exclusive, true, 0, None)
      && !LocksExclusive(locks)
  {
    hide After, Perform;
    steps := before;
    AfterOneMore(steps, ReadLocks(v, a, directoryId, Exclusive), 0);
    steps := steps + [(ReadLocks(v, a, directoryId, Exclusive), 0)];
    AfterOneMore(steps, ReadLocks(w, b, directoryId, Exclusive), 0);
    steps := steps + [(ReadLocks(w, b, directoryId, Exclusive), 0)];
    AfterOneMore(steps, InsertLock(v), 0);
    steps := steps + [(InsertLock(v), 0)];
    AfterOneMore(steps, InsertLock(w), 0);
    steps := steps + [(InsertLock(w), 0)];
  }
}
