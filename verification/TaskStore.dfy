/**
 The task store as the program runs it: tables updated in place, one method per
 call, each proved to do what the matching function of `Store` says and to publish
 exactly the event rows it committed.
 */
module TaskStores {
  import opened Results
  import opened Lifecycle
  import opened TaskModel
  import opened Locks
  import opened Store

  class TaskStore {
    var entries: seq<Entry>
    var locks: LockTable
    var permissions: map<string, PermissionRecord>
    /** Everything sent to the event bus, in order. */
    var published: seq<Event>

    ghost function Contents(): Db
      reads this
    {
      Db(entries, locks, permissions)
    }

    constructor ()
      ensures Contents() == EMPTY_DB && published == []
    {
      entries, locks, permissions, published := [], map[], map[], [];
    }

    /** COALESCE(MAX(sequence), 0) + 1. */
    method ReadNextSequence(id: nat) returns (sequence: int)
      requires id < |entries|
      ensures sequence == NextSequence(entries[id].log)
    {
      var log, max, i := entries[id].log, 0, 0;
      while i < |log|
        invariant 0 <= i <= |log|
        invariant max == MaxSequence(log[..i])
      {
        assert log[..i + 1][..i] == log[..i];
        if log[i].sequence > max {
          max := log[i].sequence;
        }
        i := i + 1;
      }
      assert log[..i] == log;
      sequence := max + 1;
    }

    /** The replay query: every row numbered above the cursor, in order. */
    method ListEventsAfter(id: nat, cursor: int) returns (events: Log)
      requires id < |entries|
      ensures events == EventsAfter(entries[id].log, cursor)
    {
      var log, i := entries[id].log, 0;
      events := [];
      while i < |log|
        invariant 0 <= i <= |log|
        invariant events == EventsAfter(log[..i], cursor)
      {
        assert log[..i + 1][..i] == log[..i];
        if log[i].sequence > cursor {
          events := events + [log[i]];
        }
        i := i + 1;
      }
      assert log[..i] == log;
    }

    method Create(input: CreateTask, now: Timestamp) returns (r: Result<nat, StoreError>)
      modifies this
      ensures Reply(Contents(), r) == CreateRow(old(Contents()), input, now)
      ensures published == old(published) + (if r.Ok? && r.value < |entries| then entries[r.value].log else [])
    {
      var problem := Validate(input);
      if problem.Some? {
        return Err(Model(problem.value));
      }
      var id := |entries|;
      var event := Event(id, 1, TaskQueued, EmptyObject, now);
      entries := entries + [Entry(NewTask(input, now), [event])];
      published := published + [event];
      r := Ok(id);
    }

    /** INSERT INTO task_events: refused when the number is taken. */
    method InsertEvent(id: nat, sequence: int, eventType: EventType, payload: Payload, now: Timestamp) returns (ok: bool)
      requires id < |entries|
      modifies this`entries
      ensures ok == !SequenceTaken(old(entries[id].log), sequence)
      ensures entries == if ok then old(entries)[id := WithEvent(old(entries[id]), id, sequence, eventType, payload, now)] else old(entries)
    {
      ok := !SequenceTaken(entries[id].log, sequence);
      if ok {
        entries := entries[id := WithEvent(entries[id], id, sequence, eventType, payload, now)];
      }
    }

    /** The transaction of a transition: row, event and locks together, or nothing. */
    method CommitStatus(id: nat, next: TaskStatus, sequence: int, payload: Payload, now: Timestamp) returns (ok: bool)
      requires id < |entries|
      modifies this`entries, this`locks
      ensures
        var r := CommitTransition(old(Contents()), id, next, sequence, payload, now);
        ok == r.Some? && Contents() == if ok then r.value else old(Contents())
    {
      var rollback := entries;
      entries := entries[id := entries[id].(task := WithStatus(entries[id].task, next, now))];
      ok := InsertEvent(id, sequence, EventTypeForStatus(next), payload, now);
      if !ok {
        entries := rollback;
      } else if next.IsTerminal() {
        ReleaseTaskLocks(id, now);
      }
    }

    method Transition(id: nat, next: TaskStatus, payload: Payload, now: Timestamp) returns (r: Result<Task, StoreError>)
      modifies this
      ensures Reply(Contents(), r) == ChangeStatus(old(Contents()), id, next, payload, now)
      ensures published == old(published) + (if id < |entries| then entries[id].log[|old(entries)[id].log|..] else [])
    {
      if id >= |entries| {
        return Err(TaskNotFound);
      }
      var current := entries[id].task;
      match ValidateTransition(current.status, next)
      case Err(e) => return Err(State(e));
      case Ok(Idempotent) => return Ok(current);
      case Ok(Changed) =>
        var sequence := ReadNextSequence(id);
        var ok := CommitStatus(id, next, sequence, payload, now);
        if !ok {
          return Err(Store(UniqueViolation));
        }
        published := published + [Event(id, sequence, EventTypeForStatus(next), payload, now)];
        r := Ok(entries[id].task);
    }

    method Append(id: nat, eventType: EventType, payload: Payload, now: Timestamp) returns (r: Result<Event, StoreError>)
      modifies this
      ensures Reply(Contents(), r) == AppendEvent(old(Contents()), id, eventType, payload, now)
      ensures published == old(published) + (if id < |entries| then entries[id].log[|old(entries)[id].log|..] else [])
    {
      if id >= |entries| {
        return Err(TaskNotFound);
      }
      var sequence := ReadNextSequence(id);
      var ok := InsertEvent(id, sequence, eventType, payload, now);
      if !ok {
        return Err(Store(UniqueViolation));
      }
      var event := Event(id, sequence, eventType, payload, now);
      published := published + [event];
      r := Ok(event);
    }

    method SaveExecutionResult(result: TaskResult, now: Timestamp)
      modifies this`entries
      ensures Contents() == SaveResult(old(Contents()), result, now)
    {
      if result.taskId < |entries| {
        var entry := entries[result.taskId];
        entries := entries[result.taskId := entry.(task := entry.task.(result := Some(result), updatedAt := now))];
      }
    }

    method RecordPermissionRequest(id: nat, request: PermissionRequest, now: Timestamp) returns (r: Result<Event, StoreError>)
      modifies this
      ensures Reply(Contents(), r) == RecordPermission(old(Contents()), id, request, now)
      ensures published == old(published) + (if id < |entries| then entries[id].log[|old(entries)[id].log|..] else [])
    {
      if id >= |entries| {
        return Err(TaskNotFound);
      }
      var rollback := entries;
      var sequence := ReadNextSequence(id);
      var ok := InsertEvent(id, sequence, ProviderPermissionRequested, RequestPayload(request), now);
      if !ok || request.requestId in permissions {
        entries := rollback;
        return Err(Store(UniqueViolation));
      }
      permissions := permissions[request.requestId := PermissionRecord(id, sequence, Pending, request, None, now, None)];
      var event := Event(id, sequence, ProviderPermissionRequested, RequestPayload(request), now);
      published := published + [event];
      r := Ok(event);
    }

    /** The earliest decision event on a request. */
    method QueryDecisionEvent(id: nat, requestId: string) returns (event: Option<Event>)
      requires id < |entries|
      ensures event == FirstDecision(entries[id].log, requestId)
    {
      var log, i := entries[id].log, 0;
      while i < |log|
        invariant 0 <= i <= |log|
        invariant FirstDecision(log, requestId) == FirstDecision(log[i..], requestId)
      {
        if IsDecisionOn(log[i], requestId) {
          return Some(log[i]);
        }
        assert log[i..][1..] == log[i + 1..];
        i := i + 1;
      }
      event := None;
    }

    method ResolvePermissionRequest(id: nat, requestId: string, decision: Decision, reason: Option<string>, now: Timestamp)
      returns (r: Result<Resolution, StoreError>)
      modifies this
      ensures Reply(Contents(), r) == ResolvePermission(old(Contents()), id, requestId, decision, reason, now)
      ensures published == old(published) + (if id < |entries| then entries[id].log[|old(entries)[id].log|..] else [])
    {
      if id >= |entries| {
        return Err(TaskNotFound);
      }
      if requestId !in permissions || permissions[requestId].taskId != id {
        return Err(PermissionRequestNotFound);
      }
      var record := permissions[requestId];
      if !record.status.Pending? {
        if record.response.None? {
          return Err(Store(ResolvedMissingResponse));
        }
        if record.response.value.decision != decision {
          return Err(PermissionRequestAlreadyResolved);
        }
        var event := QueryDecisionEvent(id, requestId);
        if event.None? {
          return Err(Store(ResolvedMissingEvent));
        }
        return Ok(Resolution(StatusFor(decision), decision, event.value, true));
      }
      var response := PermissionResponse(requestId, decision, reason);
      var sequence := ReadNextSequence(id);
      var ok := InsertEvent(id, sequence, ProviderPermissionDecided, DecisionPayload(response), now);
      if !ok {
        return Err(Store(UniqueViolation));
      }
      permissions := permissions[requestId :=
        record.(status := StatusFor(decision), response := Some(response), respondedAt := Some(now))];
      var event := Event(id, sequence, ProviderPermissionDecided, DecisionPayload(response), now);
      published := published + [event];
      r := Ok(Resolution(StatusFor(decision), decision, event, false));
    }

    /** The first statement of an acquisition: a walk over the held rows of the directory
        that stops at the first one in the way. */
    method LocksAllow(directoryId: string, mode: LockMode) returns (free: bool)
      ensures free <==> !Conflicts(locks, directoryId, mode)
    {
      var rest := locks.Keys;
      free := true;
      while rest != {} && free
        invariant rest <= locks.Keys
        invariant free <==> forall k | k in locks.Keys - rest ::
          !(k.directoryId == directoryId && locks[k].held && (mode.Exclusive? || locks[k].mode.Exclusive?))
        decreases |rest|
      {
        var k :| k in rest;
        rest := rest - {k};
        if k.directoryId == directoryId && locks[k].held && (mode.Exclusive? || locks[k].mode.Exclusive?) {
          free := false;
        }
      }
    }

    /** The second: INSERT OR REPLACE, whatever the table holds by then. */
    method InsertLockRow(directoryId: string, id: nat, mode: LockMode, now: Timestamp)
      modifies this`locks
      ensures locks == WithLock(old(locks), directoryId, id, mode, now)
    {
      locks := locks[LockKey(directoryId, id) := Lock(mode, true, now, None)];
    }

    method TryLock(directoryId: string, id: nat, mode: LockMode, now: Timestamp) returns (acquired: bool)
      modifies this`locks
      ensures (Contents(), acquired) == AcquireLock(old(Contents()), directoryId, id, mode, now)
    {
      acquired := LocksAllow(directoryId, mode);
      if acquired {
        InsertLockRow(directoryId, id, mode, now);
      }
    }

    /** The update that frees a task's held rows, row by row. */
    method ReleaseTaskLocks(id: nat, now: Timestamp)
      modifies this`locks
      ensures Contents() == ReleaseLocks(old(Contents()), id, now)
    {
      var rest, updated := locks.Keys, locks;
      while rest != {}
        invariant rest <= locks.Keys == updated.Keys
        invariant forall k | k in locks ::
          updated[k] == if k in rest then locks[k] else ReleaseHeld(locks, id, now)[k]
        decreases |rest|
      {
        var k :| k in rest;
        rest := rest - {k};
        if k.taskId == id && locks[k].held {
          updated := updated[k := locks[k].(held := false, releasedAt := Some(now))];
        }
      }
      assert updated == ReleaseHeld(locks, id, now);
      locks := updated;
    }
  }
}
