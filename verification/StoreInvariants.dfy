/**
 What every store call keeps: dense event numbering, event sourcing, at most one
 decision per permission request, and exclusive directory locks.
 */
module StoreInvariants {
  import opened Results
  import opened Lifecycle
  import opened TaskModel
  import opened Locks
  import opened Store

  // ---- Numbering --------------------------------------------------------

  /** A task's events carry the numbers 1..n in insertion order. */
  ghost predicate Numbered(log: Log, id: nat) {
    forall i :: 0 <= i < |log| ==> log[i].sequence == i + 1 && log[i].taskId == id
  }

  lemma {:induction false} NumberedSequences(log: Log, id: nat)
    requires Numbered(log, id)
    ensures NextSequence(log) == |log| + 1
    ensures forall n :: SequenceTaken(log, n) <==> 1 <= n <= |log|
  {
    if log != [] {
      NumberedSequences(log[..|log| - 1], id);
    }
    forall n
      ensures SequenceTaken(log, n) <==> 1 <= n <= |log|
    {
      if 1 <= n <= |log| {
        assert log[n - 1] in log;
      }
    }
  }

  /** Replaying from a cursor returns the suffix of the log behind it, in order. */
  lemma {:induction false} EventsAfterIsSuffix(log: Log, id: nat, cursor: nat)
    requires Numbered(log, id)
    ensures EventsAfter(log, cursor) == if cursor <= |log| then log[cursor..] else []
  {
    if log != [] {
      EventsAfterIsSuffix(log[..|log| - 1], id, cursor);
    }
  }

  // ---- Event sourcing ---------------------------------------------------

  /** The statuses a log announces, oldest first. */
  function History(log: Log): seq<TaskStatus> {
    if log == [] then []
    else
      var status := StatusOf(log[|log| - 1].eventType);
      History(log[..|log| - 1]) + (if status.Some? then [status.value] else [])
  }

  lemma HistoryOfAppend(log: Log, e: Event)
    ensures History(log + [e]) == History(log) + (if StatusOf(e.eventType).Some? then [StatusOf(e.eventType).value] else [])
  {
    assert (log + [e])[..|log|] == log;
  }

  /** The log holds an event of this type. */
  ghost predicate Announces(log: Log, eventType: EventType) {
    exists i :: 0 <= i < |log| && log[i].eventType == eventType
  }

  lemma {:induction false} HistoryMembers(log: Log, s: TaskStatus)
    ensures s in History(log) <==> Announces(log, EventTypeForStatus(s))
  {
    if log != [] {
      var init, last := log[..|log| - 1], log[|log| - 1];
      HistoryMembers(init, s);
      assert forall i :: 0 <= i < |init| ==> init[i] == log[i];
      if s in History(init) {
        var i :| 0 <= i < |init| && init[i].eventType == EventTypeForStatus(s);
        assert log[i].eventType == EventTypeForStatus(s);
      }
    }
  }

  /** Each timestamp is set exactly when the history holds the status it belongs to. */
  ghost predicate Stamped(stamps: Stamps, history: seq<TaskStatus>) {
    && (stamps.startedAt.Some? <==> Running in history)
    && (stamps.completedAt.Some? <==> Completed in history)
    && (stamps.cancelledAt.Some? <==> Cancelled in history)
    && (stamps.failedAt.Some? <==> Failed in history || TimedOut in history)
  }

  /** The task row is a function of its log. */
  ghost predicate Sourced(entry: Entry, id: nat) {
    var history := History(entry.log);
    && Numbered(entry.log, id)
    && entry.log != []
    && entry.log[0].eventType == TaskQueued
    && IsPath(history)
    && history[|history| - 1] == entry.task.status
    && Stamped(entry.task.stamps, history)
  }

  // ---- Permission requests ----------------------------------------------

  ghost predicate StoredOnce(log: Log, requestId: string, response: PermissionResponse, after: int) {
    exists k ::
      && 0 <= after <= k < |log|
      && IsStoredDecision(log[k], requestId)
      && log[k].payload.response == response
      && (forall j :: 0 <= j < |log| && IsStoredDecision(log[j], requestId) ==> j == k)
  }

  ghost predicate NoneStored(log: Log, requestId: string) {
    forall j :: 0 <= j < |log| ==> !IsStoredDecision(log[j], requestId)
  }

  /** A request row agrees with the log of its task. */
  ghost predicate RecordOk(record: PermissionRecord, log: Log) {
    var requestId := record.request.requestId;
    && 1 <= record.sequence <= |log|
    && log[record.sequence - 1].eventType == ProviderPermissionRequested
    && log[record.sequence - 1].payload == RequestPayload(record.request)
    && (record.status.Pending? <==> record.response.None?)
    && (record.respondedAt.None? <==> record.response.None?)
    && (record.response.None? ==> NoneStored(log, requestId))
    && (record.response.Some? ==>
          && record.response.value.requestId == requestId
          && record.status == StatusFor(record.response.value.decision)
          && StoredOnce(log, requestId, record.response.value, record.sequence))
  }

  type RequestTable = map<string, PermissionRecord>

  ghost predicate RecordsOk(entries: seq<Entry>, requests: RequestTable) {
    forall r :: r in requests ==>
      && requests[r].request.requestId == r
      && requests[r].taskId < |entries|
      && RecordOk(requests[r], entries[requests[r].taskId].log)
  }

  /** Every decision in a log answers a request recorded for that task. */
  ghost predicate DecisionsKnown(entries: seq<Entry>, requests: RequestTable) {
    forall i, k, r ::
      0 <= i < |entries| && 0 <= k < |entries[i].log| && IsStoredDecision(entries[i].log[k], r) ==>
        r in requests && requests[r].taskId == i
  }

  ghost predicate PermissionsOk(entries: seq<Entry>, requests: RequestTable) {
    RecordsOk(entries, requests) && DecisionsKnown(entries, requests)
  }

  // ---- Locks ------------------------------------------------------------

  /** A held exclusive lock is the only held lock on its directory. */
  ghost predicate LocksExclusive(locks: LockTable) {
    forall a, b ::
      a in locks && b in locks && locks[a].held && locks[b].held && a.directoryId == b.directoryId && locks[a].mode.Exclusive?
      ==> a == b
  }

  ghost predicate AllSourced(entries: seq<Entry>) {
    forall i :: 0 <= i < |entries| ==> Sourced(entries[i], i)
  }

  ghost predicate StoreOk(db: Db) {
    AllSourced(db.entries) && PermissionsOk(db.entries, db.permissions) && LocksExclusive(db.locks)
  }

  // ---- How the database may grow ----------------------------------------

  /** What a task is never changes, and its end is final. */
  ghost predicate EntryGrows(e: Entry, e': Entry) {
    && e.log <= e'.log
    && e.task.spec == e'.task.spec
    && Rank(e.task.status) <= Rank(e'.task.status)
    && (e.task.status.IsTerminal() ==> e'.task.status == e.task.status && e'.task.stamps == e.task.stamps)
  }

  ghost predicate EntriesGrow(entries: seq<Entry>, entries': seq<Entry>) {
    && |entries| <= |entries'|
    && forall i :: 0 <= i < |entries| ==> EntryGrows(entries[i], entries'[i])
  }

  ghost predicate RequestsGrow(requests: RequestTable, requests': RequestTable) {
    forall r :: r in requests ==>
      && r in requests'
      && requests'[r].taskId == requests[r].taskId
      && (!requests[r].status.Pending? ==> requests'[r] == requests[r])
  }

  /** Logs only grow, a terminal status is final, and a decision is for ever. */
  ghost predicate Grows(db: Db, db': Db) {
    EntriesGrow(db.entries, db'.entries) && RequestsGrow(db.permissions, db'.permissions)
  }

  lemma GrowsTransitive(a: Db, b: Db, c: Db)
    requires Grows(a, b) && Grows(b, c)
    ensures Grows(a, c)
  {
    forall i | 0 <= i < |a.entries|
      ensures EntryGrows(a.entries[i], c.entries[i])
    {
      assert EntryGrows(a.entries[i], b.entries[i]) && EntryGrows(b.entries[i], c.entries[i]);
    }
  }

  lemma EntriesGrowReflexive(entries: seq<Entry>)
    ensures EntriesGrow(entries, entries)
  {
  }

  lemma GrowsReflexive(db: Db)
    ensures Grows(db, db)
  {
    EntriesGrowReflexive(db.entries);
  }

  lemma OkIsNumbered(db: Db, id: nat)
    requires StoreOk(db)
    ensures id < |db.entries| ==> Sourced(db.entries[id], id) && Numbered(db.entries[id].log, id)
  {
    assert id < |db.entries| ==> Sourced(db.entries[id], id);
  }

  // ---- One lemma per store call -----------------------------------------

  /** Adding an event that is not a decision leaves every request row right. */
  lemma AppendKeepsRecord(record: PermissionRecord, log: Log, e: Event)
    requires RecordOk(record, log)
    requires !IsStoredDecision(e, record.request.requestId)
    ensures RecordOk(record, log + [e])
  {
    var log', r := log + [e], record.request.requestId;
    if record.response.Some? {
      var k :|
        && 0 <= record.sequence <= k < |log|
        && IsStoredDecision(log[k], r)
        && log[k].payload.response == record.response.value
        && (forall j :: 0 <= j < |log| && IsStoredDecision(log[j], r) ==> j == k);
      assert log'[k] == log[k];
      assert StoredOnce(log', r, record.response.value, record.sequence);
    }
  }

  lemma AppendKeepsRecords(entries: seq<Entry>, requests: RequestTable, id: nat, entry': Entry, e: Event)
    requires RecordsOk(entries, requests)
    requires id < |entries| && entry'.log == entries[id].log + [e]
    requires forall r :: IsStoredDecision(e, r) ==> r !in requests
    ensures RecordsOk(entries[id := entry'], requests)
  {
    forall r | r in requests
      ensures RecordOk(requests[r], entries[id := entry'][requests[r].taskId].log)
    {
      if requests[r].taskId == id {
        AppendKeepsRecord(requests[r], entries[id].log, e);
      }
    }
  }

  lemma AppendKeepsDecisionsKnown(entries: seq<Entry>, requests: RequestTable, id: nat, entry': Entry, e: Event)
    requires DecisionsKnown(entries, requests)
    requires id < |entries| && entry'.log == entries[id].log + [e]
    requires forall r :: IsStoredDecision(e, r) ==> r in requests && requests[r].taskId == id
    ensures DecisionsKnown(entries[id := entry'], requests)
  {
    var entries' := entries[id := entry'];
    forall i, k, r | 0 <= i < |entries'| && 0 <= k < |entries'[i].log| && IsStoredDecision(entries'[i].log[k], r)
      ensures r in requests && requests[r].taskId == i
    {
      if i != id || k < |entries[id].log| {
        assert IsStoredDecision(entries[i].log[k], r);
      }
    }
  }

  /** Replacing one task's row and log by a grown one. */
  lemma ReplaceKeeps(entries: seq<Entry>, id: nat, entry': Entry)
    requires AllSourced(entries) && id < |entries|
    requires Sourced(entry', id) && EntryGrows(entries[id], entry')
    ensures AllSourced(entries[id := entry'])
    ensures EntriesGrow(entries, entries[id := entry'])
  {
  }

  lemma AppendKeepsSourced(entry: Entry, id: nat, e: Event)
    requires Sourced(entry, id)
    requires e.sequence == |entry.log| + 1 && e.taskId == id
    requires StatusOf(e.eventType).None?
    ensures Sourced(entry.(log := entry.log + [e]), id)
    ensures EntryGrows(entry, entry.(log := entry.log + [e]))
  {
    HistoryOfAppend(entry.log, e);
  }

  /** A new event that is neither a lifecycle event nor a decision. */
  lemma CommitEventKeeps(db: Db, id: nat, eventType: EventType, payload: Payload, now: Timestamp)
    requires StoreOk(db) && id < |db.entries|
    requires StatusOf(eventType).None? && !(eventType.ProviderPermissionDecided? && payload.DecisionPayload?)
    ensures NextSequence(db.entries[id].log) == |db.entries[id].log| + 1
    ensures
      var r := CommitEvent(db, id, eventType, |db.entries[id].log| + 1, payload, now);
      r.Some? && StoreOk(r.value) && Grows(db, r.value)
  {
    var entry := db.entries[id];
    var e := Event(id, |entry.log| + 1, eventType, payload, now);
    NumberedSequences(entry.log, id);
    AppendKeepsSourced(entry, id, e);
    var entry' := entry.(log := entry.log + [e]);
    ReplaceKeeps(db.entries, id, entry');
    AppendKeepsRecords(db.entries, db.permissions, id, entry', e);
    AppendKeepsDecisionsKnown(db.entries, db.permissions, id, entry', e);
  }

  lemma TransitionKeepsSourced(entry: Entry, id: nat, next: TaskStatus, payload: Payload, now: Timestamp)
    requires Sourced(entry, id)
    requires Allowed(entry.task.status, next)
    ensures
      var e := Event(id, |entry.log| + 1, EventTypeForStatus(next), payload, now);
      var entry' := Entry(WithStatus(entry.task, next, now), entry.log + [e]);
      && Sourced(entry', id)
      && EntryGrows(entry, entry')
      && History(entry'.log) == History(entry.log) + [next]
  {
    hide History, Stamped, Stamp;
    var e := Event(id, |entry.log| + 1, EventTypeForStatus(next), payload, now);
    var log', h := entry.log + [e], History(entry.log);
    assert Numbered(log', id) && log'[0] == entry.log[0];
    assert History(log') == h + [next] by {
      HistoryOfAppend(entry.log, e);
    }
    StampExtends(entry.task.stamps, h, next, now);
    PathExtends(h, next);
  }

  lemma StampExtends(stamps: Stamps, history: seq<TaskStatus>, next: TaskStatus, now: Timestamp)
    requires Stamped(stamps, history)
    ensures Stamped(Stamp(stamps, next, now), history + [next])
  {
    assert forall s :: s in history + [next] <==> s in history || s == next;
  }

  lemma PathExtends(history: seq<TaskStatus>, next: TaskStatus)
    requires IsPath(history) && Allowed(history[|history| - 1], next)
    ensures IsPath(history + [next])
  {
  }

  lemma {:induction false} EmptyIsOk()
    ensures StoreOk(EMPTY_DB)
  {
  }

  lemma NewEntrySourced(input: CreateTask, id: nat, now: Timestamp)
    ensures Sourced(Entry(NewTask(input, now), [Event(id, 1, TaskQueued, EmptyObject, now)]), id)
  {
    var e := Event(id, 1, TaskQueued, EmptyObject, now);
    HistoryOfAppend([], e);
    assert [] + [e] == [e];
    assert History([e]) == [Queued];
  }

  lemma NewEntryKeepsSourced(entries: seq<Entry>, entry: Entry)
    requires AllSourced(entries) && Sourced(entry, |entries|)
    ensures AllSourced(entries + [entry])
    ensures EntriesGrow(entries, entries + [entry])
  {
    assert forall i :: 0 <= i < |entries| ==> (entries + [entry])[i] == entries[i];
  }

  lemma NewEntryKeepsPermissions(entries: seq<Entry>, requests: RequestTable, entry: Entry)
    requires PermissionsOk(entries, requests)
    requires |entry.log| == 1 && entry.log[0].eventType.TaskQueued?
    ensures PermissionsOk(entries + [entry], requests)
  {
    var entries' := entries + [entry];
    assert forall i :: 0 <= i < |entries| ==> entries'[i] == entries[i];
    forall i, k, r | 0 <= i < |entries'| && 0 <= k < |entries'[i].log| && IsStoredDecision(entries'[i].log[k], r)
      ensures r in requests && requests[r].taskId == i
    {
      assert IsStoredDecision(entries[i].log[k], r);
    }
  }

  lemma CreateKeeps(db: Db, input: CreateTask, now: Timestamp)
    requires StoreOk(db)
    ensures StoreOk(CreateRow(db, input, now).db)
    ensures Grows(db, CreateRow(db, input, now).db)
  {
    EntriesGrowReflexive(db.entries);
    if Validate(input).None? {
      var id := |db.entries|;
      NewEntrySourced(input, id, now);
      var entry := Entry(NewTask(input, now), [Event(id, 1, TaskQueued, EmptyObject, now)]);
      NewEntryKeepsSourced(db.entries, entry);
      NewEntryKeepsPermissions(db.entries, db.permissions, entry);
    }
  }

  lemma ReleaseKeepsExclusive(locks: LockTable, id: nat, now: Timestamp)
    requires LocksExclusive(locks)
    ensures LocksExclusive(ReleaseHeld(locks, id, now))
  {
  }

  /** The transaction of an allowed transition, numbered by the log it extends. */
  lemma CommitTransitionKeeps(db: Db, id: nat, next: TaskStatus, payload: Payload, now: Timestamp)
    requires StoreOk(db) && id < |db.entries|
    requires Allowed(db.entries[id].task.status, next)
    ensures NextSequence(db.entries[id].log) == |db.entries[id].log| + 1
    ensures
      var r := CommitTransition(db, id, next, |db.entries[id].log| + 1, payload, now);
      r.Some? && StoreOk(r.value) && Grows(db, r.value)
  {
    hide Sourced, EntryGrows, RecordsOk, DecisionsKnown, LocksExclusive;
    var entry := db.entries[id];
    var e := Event(id, |entry.log| + 1, EventTypeForStatus(next), payload, now);
    var entry' := Entry(WithStatus(entry.task, next, now), entry.log + [e]);
    OkIsNumbered(db, id);
    NumberedSequences(entry.log, id);
    TransitionKeepsSourced(entry, id, next, payload, now);
    ReplaceKeeps(db.entries, id, entry');
    AppendKeepsRecords(db.entries, db.permissions, id, entry', e);
    AppendKeepsDecisionsKnown(db.entries, db.permissions, id, entry', e);
    ReleaseKeepsExclusive(db.locks, id, now);
  }

  /** A status change commits exactly when the lifecycle allows it, numbered by
      the log it extends, and otherwise changes nothing. */
  lemma ChangeStatusEffect(db: Db, id: nat, next: TaskStatus, payload: Payload, now: Timestamp)
    requires id < |db.entries| ==> Numbered(db.entries[id].log, id)
    ensures
      var r := ChangeStatus(db, id, next, payload, now);
      var commits := id < |db.entries| && Allowed(db.entries[id].task.status, next);
      && (r.result.Err? ==> !r.result.error.Store?)
      && (commits ==> r.result.Ok? && CommitTransition(db, id, next, |db.entries[id].log| + 1, payload, now) == Some(r.db))
      && (!commits ==> r.db == db && (r.result.Err? || next.IsTerminal()))
  {
    if id < |db.entries| {
      NumberedSequences(db.entries[id].log, id);
    }
  }

  lemma ChangeStatusKeeps(db: Db, id: nat, next: TaskStatus, payload: Payload, now: Timestamp)
    requires StoreOk(db)
    ensures StoreOk(ChangeStatus(db, id, next, payload, now).db)
    ensures Grows(db, ChangeStatus(db, id, next, payload, now).db)
  {
    hide StoreOk, Grows, ChangeStatus, Sourced;
    GrowsReflexive(db);
    OkIsNumbered(db, id);
    ChangeStatusEffect(db, id, next, payload, now);
    if id < |db.entries| && Allowed(db.entries[id].task.status, next) {
      CommitTransitionKeeps(db, id, next, payload, now);
    }
  }

  /** Task rows and locks untouched. */
  ghost predicate SameTasks(db: Db, db': Db) {
    && db'.locks == db.locks
    && |db'.entries| == |db.entries|
    && forall i :: 0 <= i < |db.entries| ==> db'.entries[i].task == db.entries[i].task
  }

  lemma AppendOutputKeeps(db: Db, id: nat, eventType: EventType, payload: Payload, now: Timestamp)
    requires StoreOk(db)
    requires IsRuntimeEvent(eventType, payload)
    ensures
      var r := AppendEvent(db, id, eventType, payload, now);
      && StoreOk(r.db)
      && Grows(db, r.db)
      && SameTasks(db, r.db)
      && (r.result.Ok? <==> id < |db.entries|)
  {
    hide PermissionsOk, AllSourced, LocksExclusive, EntryGrows;
    EntriesGrowReflexive(db.entries);
    if id < |db.entries| {
      CommitEventKeeps(db, id, eventType, payload, now);
    }
  }

  lemma SameLogsKeepPermissions(entries: seq<Entry>, entries': seq<Entry>, requests: RequestTable)
    requires PermissionsOk(entries, requests)
    requires |entries'| == |entries|
    requires forall i :: 0 <= i < |entries| ==> entries'[i].log == entries[i].log
    ensures PermissionsOk(entries', requests)
  {
    forall i, k, r | 0 <= i < |entries'| && 0 <= k < |entries'[i].log| && IsStoredDecision(entries'[i].log[k], r)
      ensures r in requests && requests[r].taskId == i
    {
      assert IsStoredDecision(entries[i].log[k], r);
    }
  }

  lemma SaveResultKeeps(db: Db, result: TaskResult, now: Timestamp)
    requires StoreOk(db)
    ensures StoreOk(SaveResult(db, result, now))
    ensures Grows(db, SaveResult(db, result, now))
  {
    hide PermissionsOk, LocksExclusive;
    EntriesGrowReflexive(db.entries);
    var id := result.taskId;
    if id < |db.entries| {
      var entry := db.entries[id];
      var entry' := entry.(task := entry.task.(result := Some(result), updatedAt := now));
      ReplaceKeeps(db.entries, id, entry');
      SameLogsKeepPermissions(db.entries, db.entries[id := entry'], db.permissions);
    }
  }

  lemma RecordPermissionEffect(db: Db, id: nat, request: PermissionRequest, now: Timestamp)
    requires id < |db.entries| ==> Numbered(db.entries[id].log, id)
    ensures
      var r := RecordPermission(db, id, request, now);
      && (r.result.Err? ==> r.db == db)
      && (r.result.Ok? <==> id < |db.entries| && request.requestId !in db.permissions)
      && (r.result.Ok? ==>
            var n := |db.entries[id].log| + 1;
            var r' := CommitEvent(db, id, ProviderPermissionRequested, n, RequestPayload(request), now);
            r'.Some? && r.db == r'.value.(permissions := db.permissions[request.requestId :=
                                            PermissionRecord(id, n, Pending, request, None, now, None)]))
  {
    if id < |db.entries| {
      NumberedSequences(db.entries[id].log, id);
    }
  }

  lemma RequestRowKeeps(db: Db, id: nat, request: PermissionRequest, now: Timestamp)
    requires StoreOk(db) && id < |db.entries| && request.requestId !in db.permissions
    ensures
      var n := |db.entries[id].log| + 1;
      var r := CommitEvent(db, id, ProviderPermissionRequested, n, RequestPayload(request), now);
      && r.Some?
      && var db' := r.value.(permissions := db.permissions[request.requestId :=
                      PermissionRecord(id, n, Pending, request, None, now, None)]);
         StoreOk(db') && Grows(db, db')
  {
    hide PermissionsOk, Sourced, LocksExclusive, EntryGrows;
    CommitEventKeeps(db, id, ProviderPermissionRequested, RequestPayload(request), now);
    var n := |db.entries[id].log| + 1;
    var db' := CommitEvent(db, id, ProviderPermissionRequested, n, RequestPayload(request), now).value;
    NewRequestKeeps(db'.entries, db'.permissions, PermissionRecord(id, n, Pending, request, None, now, None));
  }

  lemma RecordPermissionKeeps(db: Db, id: nat, request: PermissionRequest, now: Timestamp)
    requires StoreOk(db)
    ensures StoreOk(RecordPermission(db, id, request, now).db)
    ensures Grows(db, RecordPermission(db, id, request, now).db)
    ensures SameTasks(db, RecordPermission(db, id, request, now).db)
  {
    hide StoreOk, Grows, RecordPermission, Sourced;
    GrowsReflexive(db);
    OkIsNumbered(db, id);
    RecordPermissionEffect(db, id, request, now);
    if id < |db.entries| && request.requestId !in db.permissions {
      RequestRowKeeps(db, id, request, now);
    }
  }

  lemma NewRequestKeeps(entries: seq<Entry>, requests: RequestTable, record: PermissionRecord)
    requires PermissionsOk(entries, requests)
    requires record.request.requestId !in requests
    requires record.taskId < |entries| && record.status.Pending? && record.response.None? && record.respondedAt.None?
    requires 1 <= record.sequence <= |entries[record.taskId].log|
    requires
      var e := entries[record.taskId].log[record.sequence - 1];
      e.eventType == ProviderPermissionRequested && e.payload == RequestPayload(record.request)
    ensures PermissionsOk(entries, requests[record.request.requestId := record])
    ensures RequestsGrow(requests, requests[record.request.requestId := record])
  {
    var log := entries[record.taskId].log;
    forall j | 0 <= j < |log| ensures !IsStoredDecision(log[j], record.request.requestId) {
    }
  }

  /** The query finds the earliest event that names the request, if there is one. */
  lemma {:induction false} FirstDecisionIsEarliest(log: Log, requestId: string)
    ensures
      match FirstDecision(log, requestId)
      case None => forall j :: 0 <= j < |log| ==> !IsDecisionOn(log[j], requestId)
      case Some(e) =>
        exists k :: 0 <= k < |log| && log[k] == e && IsDecisionOn(e, requestId) && forall j :: 0 <= j < k ==> !IsDecisionOn(log[j], requestId)
  {
    if log != [] && !IsDecisionOn(log[0], requestId) {
      var rest := log[1..];
      FirstDecisionIsEarliest(rest, requestId);
      assert forall j :: 0 < j < |log| ==> log[j] == rest[j - 1];
      match FirstDecision(rest, requestId)
      case None =>
      case Some(e) =>
        var k :| 0 <= k < |rest| && rest[k] == e && forall j :: 0 <= j < k ==> !IsDecisionOn(rest[j], requestId);
        assert log[k + 1] == e;
        forall j | 0 <= j < k + 1
          ensures !IsDecisionOn(log[j], requestId)
        {
          assert j > 0 ==> log[j] == rest[j - 1];
        }
    }
  }

  lemma StoredDecisionIsFound(log: Log, requestId: string, response: PermissionResponse, after: int)
    requires StoredOnce(log, requestId, response, after)
    ensures
      var first := FirstDecision(log, requestId);
      first.Some? && first.value in log && IsDecisionOn(first.value, requestId)
  {
    FirstDecisionIsEarliest(log, requestId);
    var k :| 0 <= after <= k < |log| && IsStoredDecision(log[k], requestId);
    assert IsDecisionOn(log[k], requestId);
  }

  /** The answer recorded with its event: the log gains the one decision the store writes. */
  lemma DecisionKeeps(entries: seq<Entry>, requests: RequestTable, requestId: string, response: PermissionResponse, e: Event, now: Timestamp)
    requires PermissionsOk(entries, requests)
    requires requestId in requests && requests[requestId].status.Pending?
    requires IsStoredDecision(e, requestId) && e.payload.response == response
    ensures
      var record := requests[requestId];
      var id := record.taskId;
      var requests' := requests[requestId := record.(status := StatusFor(response.decision), response := Some(response), respondedAt := Some(now))];
      && PermissionsOk(entries[id := entries[id].(log := entries[id].log + [e])], requests')
      && RequestsGrow(requests, requests')
  {
    var record := requests[requestId];
    var id := record.taskId;
    var entry := entries[id];
    var entry' := entry.(log := entry.log + [e]);
    var entries' := entries[id := entry'];
    var record' := record.(status := StatusFor(response.decision), response := Some(response), respondedAt := Some(now));
    assert entry'.log[|entry.log|] == e;
    assert StoredOnce(entry'.log, requestId, response, record.sequence);
    var others := requests - {requestId};
    assert RecordsOk(entries, others);
    AppendKeepsRecords(entries, others, id, entry', e);
    AppendKeepsDecisionsKnown(entries, requests, id, entry', e);
    assert RecordOk(record', entry'.log);
    var requests' := requests[requestId := record'];
    forall r | r in requests'
      ensures requests'[r].request.requestId == r && requests'[r].taskId < |entries'| && RecordOk(requests'[r], entries'[requests'[r].taskId].log)
    {
      if r != requestId {
        assert r in others;
      }
    }
  }

  ghost predicate KnownRequest(db: Db, id: nat, requestId: string) {
    id < |db.entries| && requestId in db.permissions && db.permissions[requestId].taskId == id
  }

  /** Answering a request: the first answer is recorded with its event, the same answer
      again returns the earliest event that names the request, another answer is refused,
      and the two internal "missing" failures cannot occur. */
  lemma ResolvePermissionEffect(
      db: Db, id: nat, requestId: string, decision: Decision, reason: Option<string>, now: Timestamp)
    requires id < |db.entries| ==> Numbered(db.entries[id].log, id)
    requires KnownRequest(db, id, requestId) ==>
      RecordOk(db.permissions[requestId], db.entries[id].log) && db.permissions[requestId].request.requestId == requestId
    ensures
      var r := ResolvePermission(db, id, requestId, decision, reason, now);
      && (r.result.Err? ==> !r.result.error.Store? && r.db == db)
      && (KnownRequest(db, id, requestId) && db.permissions[requestId].status.Pending? ==>
            var response := PermissionResponse(requestId, decision, reason);
            var log := db.entries[id].log;
            && r.result == Ok(Resolution(
                 if decision == Approve then Approved else Denied, decision,
                 Event(id, |log| + 1, ProviderPermissionDecided, DecisionPayload(response), now), false))
            && r.db == db.(
                 entries := db.entries[id := db.entries[id].(log := log + [r.result.value.event])],
                 permissions := db.permissions[requestId := db.permissions[requestId].(
                   status := if decision == Approve then Approved else Denied, response := Some(response), respondedAt := Some(now))]))
      && (KnownRequest(db, id, requestId) && !db.permissions[requestId].status.Pending? ==>
            && r.db == db
            && (if db.permissions[requestId].status == (if decision == Approve then Approved else Denied) then
                  && r.result.Ok?
                  && r.result.value == Resolution(
                       if decision == Approve then Approved else Denied, decision, r.result.value.event, true)
                  && Some(r.result.value.event) == FirstDecision(db.entries[id].log, requestId)
                  && r.result.value.event in db.entries[id].log
                  && IsDecisionOn(r.result.value.event, requestId)
                else
                  r.result == Err(PermissionRequestAlreadyResolved)))
      && (!KnownRequest(db, id, requestId) ==>
            r.result == Err(if id < |db.entries| then PermissionRequestNotFound else TaskNotFound))
  {
    if KnownRequest(db, id, requestId) {
      var log, record := db.entries[id].log, db.permissions[requestId];
      NumberedSequences(log, id);
      if !record.status.Pending? {
        StoredDecisionIsFound(log, requestId, record.response.value, record.sequence);
      }
    }
  }

  lemma AnswerKeeps(db: Db, id: nat, requestId: string, response: PermissionResponse, now: Timestamp)
    requires StoreOk(db) && KnownRequest(db, id, requestId)
    requires db.permissions[requestId].status.Pending? && response.requestId == requestId
    ensures
      var log := db.entries[id].log;
      var e := Event(id, |log| + 1, ProviderPermissionDecided, DecisionPayload(response), now);
      var db' := db.(
        entries := db.entries[id := db.entries[id].(log := log + [e])],
        permissions := db.permissions[requestId := db.permissions[requestId].(
          status := StatusFor(response.decision), response := Some(response), respondedAt := Some(now))]);
      StoreOk(db') && Grows(db, db')
  {
    hide PermissionsOk, Sourced, EntryGrows, LocksExclusive;
    var entry := db.entries[id];
    var e := Event(id, |entry.log| + 1, ProviderPermissionDecided, DecisionPayload(response), now);
    AppendKeepsSourced(entry, id, e);
    ReplaceKeeps(db.entries, id, entry.(log := entry.log + [e]));
    DecisionKeeps(db.entries, db.permissions, requestId, response, e, now);
  }

  lemma OkIsRecorded(db: Db, id: nat, requestId: string)
    requires StoreOk(db)
    ensures KnownRequest(db, id, requestId) ==>
      RecordOk(db.permissions[requestId], db.entries[id].log) && db.permissions[requestId].request.requestId == requestId
  {
  }

  lemma ResolvePermissionKeeps(
      db: Db, id: nat, requestId: string, decision: Decision, reason: Option<string>, now: Timestamp)
    requires StoreOk(db)
    ensures StoreOk(ResolvePermission(db, id, requestId, decision, reason, now).db)
    ensures Grows(db, ResolvePermission(db, id, requestId, decision, reason, now).db)
    ensures SameTasks(db, ResolvePermission(db, id, requestId, decision, reason, now).db)
  {
    hide StoreOk, Grows, ResolvePermission, RecordOk, Sourced;
    GrowsReflexive(db);
    OkIsNumbered(db, id);
    OkIsRecorded(db, id, requestId);
    ResolvePermissionEffect(db, id, requestId, decision, reason, now);
    if KnownRequest(db, id, requestId) && db.permissions[requestId].status.Pending? {
      AnswerKeeps(db, id, requestId, PermissionResponse(requestId, decision, reason), now);
    }
  }

  lemma AcquireLockKeeps(db: Db, directoryId: string, id: nat, mode: LockMode, now: Timestamp)
    requires StoreOk(db)
    ensures StoreOk(AcquireLock(db, directoryId, id, mode, now).0)
    ensures Grows(db, AcquireLock(db, directoryId, id, mode, now).0)
  {
    EntriesGrowReflexive(db.entries);
    AcquireKeepsExclusive(db.locks, directoryId, id, mode, now);
  }

  lemma AcquireKeepsExclusive(locks: LockTable, directoryId: string, id: nat, mode: LockMode, now: Timestamp)
    requires LocksExclusive(locks)
    ensures !Conflicts(locks, directoryId, mode) ==> LocksExclusive(WithLock(locks, directoryId, id, mode, now))
  {
  }

  /** `AcquireLock` reads the held locks and inserts its own on two connections. If
      other acquirers get in between, its insert keeps exclusivity exactly when no
      lock of another task conflicts at the moment of the insert. */
  lemma InsertKeepsExclusiveExactly(locks: LockTable, directoryId: string, id: nat, mode: LockMode, now: Timestamp)
    requires LocksExclusive(locks)
    ensures LocksExclusive(WithLock(locks, directoryId, id, mode, now))
            <==> !Conflicts(locks - {LockKey(directoryId, id)}, directoryId, mode)
  {
    var own := LockKey(directoryId, id);
    var others, locks' := locks - {own}, WithLock(locks, directoryId, id, mode, now);
    if Conflicts(others, directoryId, mode) {
      var k :| k in others && k.directoryId == directoryId && others[k].held && (mode.Exclusive? || others[k].mode.Exclusive?);
      assert k in locks' && own in locks' && k != own;
    }
  }

  lemma ReleaseLocksKeeps(db: Db, id: nat, now: Timestamp)
    requires StoreOk(db)
    ensures StoreOk(ReleaseLocks(db, id, now))
    ensures Grows(db, ReleaseLocks(db, id, now))
  {
    EntriesGrowReflexive(db.entries);
    ReleaseKeepsExclusive(db.locks, id, now);
  }

  // ---- Every run of serialised calls ------------------------------------

  datatype Call =
    | CallCreate(input: CreateTask)
    | CallTransition(id: nat, next: TaskStatus, payload: Payload)
    | CallAppend(id: nat, eventType: EventType, payload: Payload)
    | CallSaveResult(result: TaskResult)
    | CallRecord(id: nat, request: PermissionRequest)
    | CallResolve(id: nat, requestId: string, decision: Decision, reason: Option<string>)
    | CallAcquire(id: nat, directoryId: string, mode: LockMode)
    | CallRelease(id: nat)

  function Perform(db: Db, call: Call, now: Timestamp): Db {
    match call
    case CallCreate(input) => CreateRow(db, input, now).db
    case CallTransition(id, next, payload) => ChangeStatus(db, id, next, payload, now).db
    case CallAppend(id, eventType, payload) => AppendEvent(db, id, eventType, payload, now).db
    case CallSaveResult(result) => SaveResult(db, result, now)
    case CallRecord(id, request) => RecordPermission(db, id, request, now).db
    case CallResolve(id, requestId, decision, reason) => ResolvePermission(db, id, requestId, decision, reason, now).db
    case CallAcquire(id, directoryId, mode) => AcquireLock(db, directoryId, id, mode, now).0
    case CallRelease(id) => ReleaseLocks(db, id, now)
  }

  /** Appended events are what executions append. */
  predicate AppendsRuntimeOutput(calls: seq<(Call, Timestamp)>) {
    forall i :: 0 <= i < |calls| && calls[i].0.CallAppend? ==> IsRuntimeEvent(calls[i].0.eventType, calls[i].0.payload)
  }

  function PerformAll(db: Db, calls: seq<(Call, Timestamp)>): Db {
    if calls == [] then db
    else
      var last := calls[|calls| - 1];
      Perform(PerformAll(db, calls[..|calls| - 1]), last.0, last.1)
  }

  lemma PerformKeeps(db: Db, call: Call, now: Timestamp)
    requires StoreOk(db)
    requires call.CallAppend? ==> IsRuntimeEvent(call.eventType, call.payload)
    ensures StoreOk(Perform(db, call, now))
    ensures Grows(db, Perform(db, call, now))
  {
    hide StoreOk, Grows;
    match call
    case CallCreate(input) => CreateKeeps(db, input, now);
    case CallTransition(id, next, payload) => ChangeStatusKeeps(db, id, next, payload, now);
    case CallAppend(id, eventType, payload) => AppendOutputKeeps(db, id, eventType, payload, now);
    case CallSaveResult(result) => SaveResultKeeps(db, result, now);
    case CallRecord(id, request) => RecordPermissionKeeps(db, id, request, now);
    case CallResolve(id, requestId, decision, reason) => ResolvePermissionKeeps(db, id, requestId, decision, reason, now);
    case CallAcquire(id, directoryId, mode) => AcquireLockKeeps(db, directoryId, id, mode, now);
    case CallRelease(id) => ReleaseLocksKeeps(db, id, now);
  }

  lemma {:induction false} RunsKeep(db: Db, calls: seq<(Call, Timestamp)>)
    requires StoreOk(db)
    requires AppendsRuntimeOutput(calls)
    ensures StoreOk(PerformAll(db, calls))
    ensures Grows(db, PerformAll(db, calls))
  {
    hide StoreOk, Grows;
    GrowsReflexive(db);
    if calls != [] {
      var init, last := calls[..|calls| - 1], calls[|calls| - 1];
      RunsKeep(db, init);
      PerformKeeps(PerformAll(db, init), last.0, last.1);
      GrowsTransitive(db, PerformAll(db, init), PerformAll(db, calls));
    }
  }

  lemma SourcedMeans(entry: Entry, id: nat)
    requires Sourced(entry, id)
    ensures
      var history := History(entry.log);
      && |history| <= 5
      && (entry.task.stamps.startedAt.Some? <==> Announces(entry.log, TaskRunning))
      && (entry.task.stamps.completedAt.Some? <==> Announces(entry.log, TaskCompleted))
      && (entry.task.stamps.cancelledAt.Some? <==> Announces(entry.log, TaskCancelled))
      && (entry.task.stamps.failedAt.Some? <==> Announces(entry.log, TaskFailed) || Announces(entry.log, TaskTimedOut))
  {
    PathsAreShort(History(entry.log));
    HistoryMembers(entry.log, Running);
    HistoryMembers(entry.log, Completed);
    HistoryMembers(entry.log, Cancelled);
    HistoryMembers(entry.log, Failed);
    HistoryMembers(entry.log, TimedOut);
  }

  /** Event sourcing, over every run of serialised calls: the lifecycle events of a
      log form a path of at most four steps from Queued, the stored status is its
      last element and each timestamp is set exactly when its event is in the log. */
  lemma {:induction false} EventSourcing(calls: seq<(Call, Timestamp)>, id: nat)
    requires AppendsRuntimeOutput(calls)
    requires id < |PerformAll(EMPTY_DB, calls).entries|
    ensures
      var entry := PerformAll(EMPTY_DB, calls).entries[id];
      var history := History(entry.log);
      && Numbered(entry.log, id)
      && IsPath(history)
      && |history| <= 5
      && history[|history| - 1] == entry.task.status
      && (entry.task.stamps.startedAt.Some? <==> Announces(entry.log, TaskRunning))
      && (entry.task.stamps.completedAt.Some? <==> Announces(entry.log, TaskCompleted))
      && (entry.task.stamps.cancelledAt.Some? <==> Announces(entry.log, TaskCancelled))
      && (entry.task.stamps.failedAt.Some? <==> Announces(entry.log, TaskFailed) || Announces(entry.log, TaskTimedOut))
  {
    hide PermissionsOk, LocksExclusive, Grows;
    EmptyIsOk();
    RunsKeep(EMPTY_DB, calls);
    SourcedMeans(PerformAll(EMPTY_DB, calls).entries[id], id);
  }

  /** Once answered, a request keeps its answer, and the one decision event the store wrote
      for it, through any further run. */
  lemma {:induction false} DecisionsAreForEver(before: seq<(Call, Timestamp)>, after: seq<(Call, Timestamp)>, requestId: string)
    requires AppendsRuntimeOutput(before) && AppendsRuntimeOutput(after)
    requires requestId in PerformAll(EMPTY_DB, before).permissions
    requires !PerformAll(EMPTY_DB, before).permissions[requestId].status.Pending?
    ensures
      var db := PerformAll(EMPTY_DB, before);
      var db' := PerformAll(db, after);
      && requestId in db'.permissions
      && db'.permissions[requestId] == db.permissions[requestId]
      && db.permissions[requestId].response.Some?
      && db.permissions[requestId].taskId < |db'.entries|
      && StoredOnce(db'.entries[db.permissions[requestId].taskId].log, requestId,
                     db.permissions[requestId].response.value, db.permissions[requestId].sequence)
  {
    EmptyIsOk();
    RunsKeep(EMPTY_DB, before);
    RunsKeep(PerformAll(EMPTY_DB, before), after);
  }

  /** In every run a request is unanswered exactly when its row has no response, and
      exactly when the store has written no decision on it; once answered, it has written
      one, later than the request and with the stored response. */
  lemma {:induction false} RequestsMatchTheirLogs(calls: seq<(Call, Timestamp)>, requestId: string)
    requires AppendsRuntimeOutput(calls)
    requires requestId in PerformAll(EMPTY_DB, calls).permissions
    ensures
      var db := PerformAll(EMPTY_DB, calls);
      var record := db.permissions[requestId];
      && record.taskId < |db.entries|
      && var log := db.entries[record.taskId].log;
         && (record.status.Pending? <==> record.response.None?)
         && (record.status.Pending? <==> NoneStored(log, requestId))
         && (!record.status.Pending? ==>
               && record.status == StatusFor(record.response.value.decision)
               && StoredOnce(log, requestId, record.response.value, record.sequence))
  {
    hide AllSourced, LocksExclusive, Grows;
    EmptyIsOk();
    RunsKeep(EMPTY_DB, calls);
    var db := PerformAll(EMPTY_DB, calls);
    assert RecordOk(db.permissions[requestId], db.entries[db.permissions[requestId].taskId].log);
  }

  /** Answering an answered request, in every run: the same decision returns the earliest
      event that names the request, the other one is refused, and neither changes
      anything; the internal "missing" failures never occur. */
  lemma {:induction false} SecondAnswersChangeNothing(
      calls: seq<(Call, Timestamp)>, id: nat, requestId: string, decision: Decision, reason: Option<string>, now: Timestamp)
    requires AppendsRuntimeOutput(calls)
    ensures
      var db := PerformAll(EMPTY_DB, calls);
      var r := ResolvePermission(db, id, requestId, decision, reason, now);
      && (r.result.Err? ==> !r.result.error.Store? && r.db == db)
      && (KnownRequest(db, id, requestId) && !db.permissions[requestId].status.Pending? ==>
            && r.db == db
            && (if db.permissions[requestId].status == StatusFor(decision) then
                  && r.result.Ok?
                  && r.result.value == Resolution(
                       if decision == Approve then Approved else Denied, decision, r.result.value.event, true)
                  && Some(r.result.value.event) == FirstDecision(db.entries[id].log, requestId)
                else
                  r.result == Err(PermissionRequestAlreadyResolved)))
  {
    hide StoreOk, Grows, PerformAll, ResolvePermission, RecordOk, Sourced;
    EmptyIsOk();
    RunsKeep(EMPTY_DB, calls);
    var db := PerformAll(EMPTY_DB, calls);
    OkIsNumbered(db, id);
    OkIsRecorded(db, id, requestId);
    ResolvePermissionEffect(db, id, requestId, decision, reason, now);
  }
}
