/** The times in a task row are the times of its events. */
module Timestamps {
  import opened Results
  import opened Lifecycle
  import opened TaskModel
  import opened Store
  import opened StoreInvariants

  /** A recorded time is that of an event of one of these types. */
  ghost predicate TimedBy(time: Option<Timestamp>, log: Log, types: set<EventType>) {
    time.Some? ==> exists i :: 0 <= i < |log| && log[i].eventType in types && log[i].createdAt == time.value
  }

  ghost predicate Timed(stamps: Stamps, log: Log) {
    && TimedBy(stamps.startedAt, log, {TaskRunning})
    && TimedBy(stamps.completedAt, log, {TaskCompleted})
    && TimedBy(stamps.cancelledAt, log, {TaskCancelled})
    && TimedBy(stamps.failedAt, log, {TaskFailed, TaskTimedOut})
  }

  ghost predicate AllTimed(entries: seq<Entry>) {
    forall i :: 0 <= i < |entries| ==> Timed(entries[i].task.stamps, entries[i].log)
  }

  lemma LongerLogKeeps(time: Option<Timestamp>, log: Log, log': Log, types: set<EventType>)
    requires TimedBy(time, log, types) && log <= log'
    ensures TimedBy(time, log', types)
  {
    if time.Some? {
      var i :| 0 <= i < |log| && log[i].eventType in types && log[i].createdAt == time.value;
      assert log'[i] == log[i];
    }
  }

  lemma LongerLogKeepsAll(stamps: Stamps, log: Log, log': Log)
    requires Timed(stamps, log) && log <= log'
    ensures Timed(stamps, log')
  {
    LongerLogKeeps(stamps.startedAt, log, log', {TaskRunning});
    LongerLogKeeps(stamps.completedAt, log, log', {TaskCompleted});
    LongerLogKeeps(stamps.cancelledAt, log, log', {TaskCancelled});
    LongerLogKeeps(stamps.failedAt, log, log', {TaskFailed, TaskTimedOut});
  }

  /** The row update and the event row of a transition carry one time. */
  lemma StampIsTimed(stamps: Stamps, log: Log, next: TaskStatus, e: Event)
    requires Timed(stamps, log) && e.eventType == EventTypeForStatus(next)
    ensures Timed(Stamp(stamps, next, e.createdAt), log + [e])
  {
    hide Timed;
    var log' := log + [e];
    assert log'[|log|] == e;
    LongerLogKeepsAll(stamps, log, log');
    StampedNow(stamps, next, log', |log|);
  }

  lemma StampedNow(stamps: Stamps, next: TaskStatus, log: Log, i: nat)
    requires Timed(stamps, log) && i < |log| && log[i].eventType == EventTypeForStatus(next)
    ensures Timed(Stamp(stamps, next, log[i].createdAt), log)
  {
  }

  /** Rows whose times stay, and whose logs only grow. */
  lemma SameTimesKeep(db: Db, db': Db)
    requires AllTimed(db.entries) && Grows(db, db') && |db'.entries| == |db.entries|
    requires forall i :: 0 <= i < |db.entries| ==> db'.entries[i].task.stamps == db.entries[i].task.stamps
    ensures AllTimed(db'.entries)
  {
    hide Timed;
    forall i | 0 <= i < |db'.entries|
      ensures Timed(db'.entries[i].task.stamps, db'.entries[i].log)
    {
      assert EntryGrows(db.entries[i], db'.entries[i]);
      LongerLogKeepsAll(db.entries[i].task.stamps, db.entries[i].log, db'.entries[i].log);
    }
  }

  lemma ChangeStatusKeepsTimes(db: Db, id: nat, next: TaskStatus, payload: Payload, now: Timestamp)
    requires StoreOk(db) && AllTimed(db.entries)
    ensures AllTimed(ChangeStatus(db, id, next, payload, now).db.entries)
  {
    hide StoreOk, ChangeStatus, Timed, Stamp;
    OkIsNumbered(db, id);
    ChangeStatusEffect(db, id, next, payload, now);
    if id < |db.entries| && Allowed(db.entries[id].task.status, next) {
      var entry := db.entries[id];
      StampIsTimed(entry.task.stamps, entry.log, next, Event(id, |entry.log| + 1, EventTypeForStatus(next), payload, now));
    }
  }

  lemma PerformKeepsTimes(db: Db, call: Call, now: Timestamp)
    requires StoreOk(db) && AllTimed(db.entries)
    requires call.CallAppend? ==> IsRuntimeEvent(call.eventType, call.payload)
    ensures AllTimed(Perform(db, call, now).entries)
  {
    hide StoreOk, Grows, ChangeStatus, AppendEvent, RecordPermission, ResolvePermission;
    PerformKeeps(db, call, now);
    match call
    case CallTransition(id, next, payload) => ChangeStatusKeepsTimes(db, id, next, payload, now);
    case CallAppend(id, eventType, payload) =>
      AppendOutputKeeps(db, id, eventType, payload, now);
      SameTimesKeep(db, Perform(db, call, now));
    case CallRecord(id, request) =>
      RecordPermissionKeeps(db, id, request, now);
      SameTimesKeep(db, Perform(db, call, now));
    case CallResolve(id, requestId, decision, reason) =>
      ResolvePermissionKeeps(db, id, requestId, decision, reason, now);
      SameTimesKeep(db, Perform(db, call, now));
    case _ =>
  }

  lemma {:induction false} RunsKeepTimes(calls: seq<(Call, Timestamp)>)
    requires AppendsRuntimeOutput(calls)
    ensures AllTimed(PerformAll(EMPTY_DB, calls).entries)
  {
    hide StoreOk, Grows, Perform;
    if calls != [] {
      var init, last := calls[..|calls| - 1], calls[|calls| - 1];
      EmptyIsOk();
      RunsKeep(EMPTY_DB, init);
      RunsKeepTimes(init);
      PerformKeepsTimes(PerformAll(EMPTY_DB, init), last.0, last.1);
    }
  }

  /** In every run a task's recorded start and end carry the time of the event that
      announced them. */
  lemma {:induction false} TimesAreEventTimes(calls: seq<(Call, Timestamp)>, id: nat)
    requires AppendsRuntimeOutput(calls)
    requires id < |PerformAll(EMPTY_DB, calls).entries|
    ensures
      var entry := PerformAll(EMPTY_DB, calls).entries[id];
      Timed(entry.task.stamps, entry.log)
  {
    RunsKeepTimes(calls);
  }
}
