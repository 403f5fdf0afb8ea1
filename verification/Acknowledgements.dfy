/**
 A provider's own word on a permission. An execution may append frames that name a
 request, before or after the store resolves it; what that does to "one decision per
 request", and to the reply to a repeated answer.
 */
module Acknowledgements {
  import opened Results
  import opened Lifecycle
  import opened TaskModel
  import opened Store
  import opened StoreInvariants
  import opened Examples

  function LogOf(db: Db, id: nat): Log {
    if id < |db.entries| then db.entries[id].log else []
  }

  /** How many events of a log name a request in a decision. */
  function NamingCount(log: Log, requestId: string): nat {
    if log == [] then 0
    else NamingCount(log[..|log| - 1], requestId) + (if IsDecisionOn(log[|log| - 1], requestId) then 1 else 0)
  }

  lemma NamingCountOfAppend(log: Log, e: Event, requestId: string)
    ensures NamingCount(log + [e], requestId) == NamingCount(log, requestId) + (if IsDecisionOn(e, requestId) then 1 else 0)
  {
    assert (log + [e])[..|log|] == log;
  }

  lemma {:induction false} NamingCountIsZero(log: Log, requestId: string)
    ensures NamingCount(log, requestId) == 0 <==> forall j :: 0 <= j < |log| ==> !IsDecisionOn(log[j], requestId)
  {
    if log != [] {
      var init := log[..|log| - 1];
      NamingCountIsZero(init, requestId);
      assert forall j :: 0 <= j < |init| ==> init[j] == log[j];
    }
  }

  ghost predicate Answered(db: Db, id: nat, requestId: string) {
    KnownRequest(db, id, requestId) && !db.permissions[requestId].status.Pending?
  }

  /** The call appends to the task's log a frame that names the request. */
  ghost predicate AppendsNaming(db: Db, call: Call, id: nat, requestId: string) {
    && call.CallAppend? && call.id == id && id < |db.entries|
    && call.eventType.ProviderPermissionDecided? && NamedRequest(call.payload) == Some(requestId)
  }

  type Calls = seq<(Call, Timestamp)>

  /** How many calls of a run do. */
  ghost function AppendedCount(calls: Calls, id: nat, requestId: string): nat {
    if calls == [] then 0
    else
      var n := |calls| - 1;
      AppendedCount(calls[..n], id, requestId) +
      (if AppendsNaming(PerformAll(EMPTY_DB, calls[..n]), calls[n].0, id, requestId) then 1 else 0)
  }

  // ---- One call ---------------------------------------------------------

  /** What a call adds to a log: nothing, or one event. */
  ghost predicate Adds(log: Log, log': Log, e: Option<Event>) {
    log' == if e.Some? then log + [e.value] else log
  }

  /** The event a call adds to the task's log. */
  function EventOf(db: Db, call: Call, now: Timestamp, id: nat): Option<Event> {
    var log, log' := LogOf(db, id), LogOf(Perform(db, call, now), id);
    if |log'| > |log| then Some(log'[|log'| - 1]) else None
  }

  lemma StatusCallAdds(db: Db, call: Call, now: Timestamp, id: nat, requestId: string)
    requires StoreOk(db) && call.CallTransition?
    ensures
      var e := EventOf(db, call, now, id);
      Adds(LogOf(db, id), LogOf(Perform(db, call, now), id), e) && (e.Some? ==> !IsDecisionOn(e.value, requestId))
  {
    hide StoreOk, ChangeStatus;
    OkIsNumbered(db, call.id);
    ChangeStatusEffect(db, call.id, call.next, call.payload, now);
  }

  lemma AppendCallAdds(db: Db, call: Call, now: Timestamp, id: nat, requestId: string)
    requires StoreOk(db) && call.CallAppend?
    ensures
      var e := EventOf(db, call, now, id);
      && Adds(LogOf(db, id), LogOf(Perform(db, call, now), id), e)
      && ((e.Some? && IsDecisionOn(e.value, requestId)) <==> AppendsNaming(db, call, id, requestId))
      && Perform(db, call, now).permissions == db.permissions
      && |Perform(db, call, now).entries| == |db.entries|
  {
    OkIsNumbered(db, call.id);
    hide StoreOk;
    if call.id < |db.entries| {
      NumberedSequences(db.entries[call.id].log, call.id);
    }
  }

  /** Recording leaves the database alone, or adds one row and one event to the task's log. */
  lemma RecordShape(db: Db, id: nat, request: PermissionRequest, now: Timestamp)
    requires id < |db.entries| ==> Numbered(db.entries[id].log, id)
    ensures
      var db' := RecordPermission(db, id, request, now).db;
      || db' == db
      || (&& id < |db.entries| && request.requestId !in db.permissions
          && var e := Event(id, |db.entries[id].log| + 1, ProviderPermissionRequested, RequestPayload(request), now);
             && db'.entries == db.entries[id := db.entries[id].(log := db.entries[id].log + [e])]
             && request.requestId in db'.permissions && db'.permissions[request.requestId].status.Pending?
             && db'.permissions - {request.requestId} == db.permissions)
  {
    RecordPermissionEffect(db, id, request, now);
  }

  lemma RecordCallAdds(db: Db, call: Call, now: Timestamp, id: nat, requestId: string)
    requires StoreOk(db) && call.CallRecord?
    ensures
      var e := EventOf(db, call, now, id);
      && Adds(LogOf(db, id), LogOf(Perform(db, call, now), id), e)
      && (e.Some? ==> !IsDecisionOn(e.value, requestId))
      && (Answered(Perform(db, call, now), id, requestId) <==> Answered(db, id, requestId))
  {
    hide StoreOk, RecordPermission, Numbered;
    OkIsNumbered(db, call.id);
    RecordShape(db, call.id, call.request, now);
    var permissions' := Perform(db, call, now).permissions;
    assert requestId != call.request.requestId && requestId in permissions' ==> requestId in permissions' - {call.request.requestId};
    assert requestId in db.permissions && permissions' != db.permissions ==> requestId in permissions' - {call.request.requestId};
  }

  /** Resolving leaves the database alone, or answers a pending request with one event. */
  lemma ResolveShape(db: Db, id: nat, requestId: string, decision: Decision, reason: Option<string>, now: Timestamp)
    requires StoreOk(db)
    ensures
      var db' := ResolvePermission(db, id, requestId, decision, reason, now).db;
      || db' == db
      || (&& KnownRequest(db, id, requestId) && !Answered(db, id, requestId)
          && var e := Event(id, |db.entries[id].log| + 1, ProviderPermissionDecided,
                            DecisionPayload(PermissionResponse(requestId, decision, reason)), now);
             && db'.entries == db.entries[id := db.entries[id].(log := db.entries[id].log + [e])]
             && Answered(db', id, requestId)
             && db'.permissions - {requestId} == db.permissions - {requestId})
  {
    hide StoreOk, ResolvePermission, RecordOk, Numbered;
    OkIsNumbered(db, id);
    OkIsRecorded(db, id, requestId);
    ResolvePermissionEffect(db, id, requestId, decision, reason, now);
  }

  lemma ResolveCallAdds(db: Db, call: Call, now: Timestamp, id: nat, requestId: string)
    requires StoreOk(db) && call.CallResolve?
    ensures
      var e, db' := EventOf(db, call, now, id), Perform(db, call, now);
      && Adds(LogOf(db, id), LogOf(db', id), e)
      && (Answered(db, id, requestId) ==> Answered(db', id, requestId))
      && ((e.Some? && IsDecisionOn(e.value, requestId)) <==> !Answered(db, id, requestId) && Answered(db', id, requestId))
      && (e.Some? && IsDecisionOn(e.value, requestId) ==> IsStoredDecision(e.value, requestId))
  {
    hide StoreOk, ResolvePermission;
    ResolveShape(db, call.id, call.requestId, call.decision, call.reason, now);
    var permissions, permissions' := db.permissions, Perform(db, call, now).permissions;
    if requestId != call.requestId {
      OthersStay(permissions, permissions', call.requestId, requestId);
    }
  }

  lemma OthersStay(requests: RequestTable, requests': RequestTable, changed: string, other: string)
    requires requests' - {changed} == requests - {changed} && other != changed
    ensures other in requests' <==> other in requests
    ensures other in requests ==> requests'[other] == requests[other]
  {
    assert other in requests <==> other in requests - {changed};
    assert other in requests' <==> other in requests' - {changed};
  }

  lemma CreateCallAdds(db: Db, call: Call, now: Timestamp, id: nat, requestId: string)
    requires StoreOk(db) && call.CallCreate?
    ensures
      var e := EventOf(db, call, now, id);
      && Adds(LogOf(db, id), LogOf(Perform(db, call, now), id), e)
      && (e.Some? ==> !IsDecisionOn(e.value, requestId))
      && (Answered(Perform(db, call, now), id, requestId) <==> Answered(db, id, requestId))
  {
    RequestsAreOnTasks(db, requestId);
    hide StoreOk, Validate, NewTask;
    var q := Event(|db.entries|, 1, TaskQueued, EmptyObject, now);
    assert [] + [q] == [q];
  }

  lemma RequestsAreOnTasks(db: Db, requestId: string)
    requires StoreOk(db)
    ensures requestId in db.permissions ==> db.permissions[requestId].taskId < |db.entries|
  {
  }

  /** Every call adds at most one event to a log, and one that names the request only by
      appending a frame or by answering the request. */
  lemma CallAdds(db: Db, call: Call, now: Timestamp, id: nat, requestId: string)
    requires StoreOk(db)
    ensures
      var e, db' := EventOf(db, call, now, id), Perform(db, call, now);
      var answers := !Answered(db, id, requestId) && Answered(db', id, requestId);
      && Adds(LogOf(db, id), LogOf(db', id), e)
      && (Answered(db, id, requestId) ==> Answered(db', id, requestId))
      && ((e.Some? && IsDecisionOn(e.value, requestId)) <==> AppendsNaming(db, call, id, requestId) || answers)
      && !(AppendsNaming(db, call, id, requestId) && answers)
      && (e.Some? && answers ==> IsStoredDecision(e.value, requestId))
  {
    hide StoreOk, ChangeStatus, AppendEvent, RecordPermission, ResolvePermission;
    match call
    case CallCreate(_) => CreateCallAdds(db, call, now, id, requestId);
    case CallTransition(_, _, _) =>
      StatusCallAdds(db, call, now, id, requestId);
      TransitionsKeepRequests(db, call, now);
    case CallAppend(_, _, _) => AppendCallAdds(db, call, now, id, requestId);
    case CallRecord(_, _) => RecordCallAdds(db, call, now, id, requestId);
    case CallResolve(_, _, _, _) => ResolveCallAdds(db, call, now, id, requestId);
    case _ =>
  }

  lemma TransitionsKeepRequests(db: Db, call: Call, now: Timestamp)
    requires StoreOk(db) && call.CallTransition?
    ensures Perform(db, call, now).permissions == db.permissions && |Perform(db, call, now).entries| == |db.entries|
  {
    hide StoreOk, ChangeStatus;
    OkIsNumbered(db, call.id);
    ChangeStatusEffect(db, call.id, call.next, call.payload, now);
  }

  // ---- Counting over runs -----------------------------------------------

  lemma {:induction false} RunIsOk(calls: Calls)
    requires AppendsRuntimeOutput(calls)
    ensures StoreOk(PerformAll(EMPTY_DB, calls))
  {
    hide StoreOk, Grows, PerformAll;
    EmptyIsOk();
    RunsKeep(EMPTY_DB, calls);
  }

  /** Conservation: over every run, the events of a log that name a request are the
      frames appended to it, and one more once the request is answered. */
  lemma {:induction false} NamingEventsAreCounted(calls: Calls, id: nat, requestId: string)
    requires AppendsRuntimeOutput(calls)
    ensures
      var db := PerformAll(EMPTY_DB, calls);
      NamingCount(LogOf(db, id), requestId) ==
      AppendedCount(calls, id, requestId) + (if Answered(db, id, requestId) then 1 else 0)
  {
    hide StoreOk, Perform, Answered, AppendsNaming, IsDecisionOn;
    if calls == [] {
      NothingIsAnswered(id, requestId);
    } else {
      var n := |calls| - 1;
      NamingEventsAreCounted(calls[..n], id, requestId);
      RunIsOk(calls[..n]);
      var db := PerformAll(EMPTY_DB, calls[..n]);
      CallAdds(db, calls[n].0, calls[n].1, id, requestId);
      var e := EventOf(db, calls[n].0, calls[n].1, id);
      if e.Some? {
        NamingCountOfAppend(LogOf(db, id), e.value, requestId);
      }
    }
  }

  lemma NothingIsAnswered(id: nat, requestId: string)
    ensures !Answered(EMPTY_DB, id, requestId)
  {
  }

  /** No call of the run appends a frame that names the request. */
  ghost predicate NothingNames(calls: Calls, id: nat, requestId: string) {
    forall i :: 0 <= i < |calls| ==> !AppendsNaming(PerformAll(EMPTY_DB, calls[..i]), calls[i].0, id, requestId)
  }

  lemma {:induction false} AppendedCountIsZero(calls: Calls, id: nat, requestId: string)
    ensures AppendedCount(calls, id, requestId) == 0 <==> NothingNames(calls, id, requestId)
  {
    hide AppendsNaming;
    hide PerformAll;
    if calls != [] {
      var n := |calls| - 1;
      AppendedCountIsZero(calls[..n], id, requestId);
      assert forall i :: 0 <= i < n ==> calls[..n][..i] == calls[..i] && calls[..n][i] == calls[i];
    }
  }

  /** An answered request has exactly one decision event in its task's log if and only if
      no appended frame names it. */
  lemma {:induction false} OneDecisionExactlyWithoutFrames(calls: Calls, id: nat, requestId: string)
    requires AppendsRuntimeOutput(calls) && Answered(PerformAll(EMPTY_DB, calls), id, requestId)
    ensures
      NamingCount(LogOf(PerformAll(EMPTY_DB, calls), id), requestId) == 1 <==> NothingNames(calls, id, requestId)
  {
    hide PerformAll, NothingNames, Answered;
    NamingEventsAreCounted(calls, id, requestId);
    AppendedCountIsZero(calls, id, requestId);
  }

  // ---- The reply to a repeated answer -----------------------------------

  /** Whatever names the request comes after its answer. */
  ghost predicate FramesFollowAnswer(calls: Calls, id: nat, requestId: string) {
    forall i :: 0 <= i < |calls| && AppendsNaming(PerformAll(EMPTY_DB, calls[..i]), calls[i].0, id, requestId) ==>
      Answered(PerformAll(EMPTY_DB, calls[..i]), id, requestId)
  }

  lemma {:induction false} FramesFollowOneMore(calls: Calls, id: nat, requestId: string)
    requires calls != []
    ensures
      var n := |calls| - 1;
      FramesFollowAnswer(calls, id, requestId) <==>
        && FramesFollowAnswer(calls[..n], id, requestId)
        && (AppendsNaming(PerformAll(EMPTY_DB, calls[..n]), calls[n].0, id, requestId) ==>
              Answered(PerformAll(EMPTY_DB, calls[..n]), id, requestId))
  {
    hide AppendsNaming, Answered, PerformAll;
    var n := |calls| - 1;
    assert forall i :: 0 <= i < n ==> calls[..n][..i] == calls[..i] && calls[..n][i] == calls[i];
  }

  lemma FirstOfAppend(log: Log, e: Event, requestId: string)
    ensures FirstDecision(log + [e], requestId) ==
            if NamingCount(log, requestId) > 0 then FirstDecision(log, requestId)
            else if IsDecisionOn(e, requestId) then Some(e) else None
    ensures NamingCount(log, requestId) > 0 <==> FirstDecision(log, requestId).Some?
  {
    FirstDecisionIsEarliest(log, requestId);
    NamingCountIsZero(log, requestId);
    FirstOfLonger(log, e, requestId);
  }

  lemma {:induction false} FirstOfLonger(log: Log, e: Event, requestId: string)
    ensures FirstDecision(log + [e], requestId) ==
            if FirstDecision(log, requestId).Some? then FirstDecision(log, requestId)
            else if IsDecisionOn(e, requestId) then Some(e) else None
  {
    if log == [] {
      assert [] + [e] == [e] && [e][1..] == [];
    } else {
      assert (log + [e])[0] == log[0] && (log + [e])[1..] == log[1..] + [e];
      FirstOfLonger(log[1..], e, requestId);
    }
  }

  ghost predicate FirstIsStored(db: Db, id: nat, requestId: string) {
    FirstDecision(LogOf(db, id), requestId).Some? && IsStoredDecision(FirstDecision(LogOf(db, id), requestId).value, requestId)
  }

  /** Before the answer nothing may name the request; after it, the earliest event that
      does is the store's own, exactly when nothing named it before. */
  lemma {:induction false} FirstIsStoredExactly(calls: Calls, id: nat, requestId: string)
    requires AppendsRuntimeOutput(calls)
    ensures
      var db := PerformAll(EMPTY_DB, calls);
      FramesFollowAnswer(calls, id, requestId) <==>
        if Answered(db, id, requestId) then FirstIsStored(db, id, requestId) else NamingCount(LogOf(db, id), requestId) == 0
  {
    hide StoreOk, Perform, Answered, AppendsNaming, IsDecisionOn, IsStoredDecision, FramesFollowAnswer, FirstDecision;
    if calls == [] {
      NothingIsAnswered(id, requestId);
      NoFramesYet(id, requestId);
    } else {
      var n := |calls| - 1;
      FirstIsStoredExactly(calls[..n], id, requestId);
      FramesFollowOneMore(calls, id, requestId);
      RunIsOk(calls[..n]);
      var db := PerformAll(EMPTY_DB, calls[..n]);
      CallAdds(db, calls[n].0, calls[n].1, id, requestId);
      AnsweredIsNamed(calls[..n], id, requestId);
      UnansweredHasNoStored(db, id, requestId);
      FirstDecisionIsEarliest(LogOf(db, id), requestId);
      var e := EventOf(db, calls[n].0, calls[n].1, id);
      if e.Some? {
        NamingCountOfAppend(LogOf(db, id), e.value, requestId);
        FirstOfAppend(LogOf(db, id), e.value, requestId);
      }
    }
  }

  lemma UnansweredHasNoStored(db: Db, id: nat, requestId: string)
    requires StoreOk(db)
    ensures !Answered(db, id, requestId) ==> forall e :: e in LogOf(db, id) ==> !IsStoredDecision(e, requestId)
  {
    if id < |db.entries| && !Answered(db, id, requestId) {
      forall k | 0 <= k < |db.entries[id].log|
        ensures !IsStoredDecision(db.entries[id].log[k], requestId)
      {
        hide StoreOk;
        OkIsRecorded(db, id, requestId);
        DecisionIsKnown(db, id, k, requestId);
      }
    }
  }

  lemma DecisionIsKnown(db: Db, id: nat, k: nat, requestId: string)
    requires StoreOk(db) && id < |db.entries| && k < |db.entries[id].log|
    ensures IsStoredDecision(db.entries[id].log[k], requestId) ==> KnownRequest(db, id, requestId)
  {
  }

  lemma NoFramesYet(id: nat, requestId: string)
    ensures FramesFollowAnswer([], id, requestId) && NamingCount(LogOf(EMPTY_DB, id), requestId) == 0
  {
  }

  lemma {:induction false} AnsweredIsNamed(calls: Calls, id: nat, requestId: string)
    requires AppendsRuntimeOutput(calls)
    ensures
      var db := PerformAll(EMPTY_DB, calls);
      Answered(db, id, requestId) ==> NamingCount(LogOf(db, id), requestId) > 0
  {
    hide Answered, PerformAll;
    NamingEventsAreCounted(calls, id, requestId);
  }

  /** The reply to a repeated answer carries the decision the store wrote, in every run in
      which the frames that name the request come after its answer, and in no other. */
  lemma {:induction false} RepeatedAnswerIsStoredExactly(
      calls: Calls, id: nat, requestId: string, decision: Decision, reason: Option<string>, now: Timestamp)
    requires AppendsRuntimeOutput(calls) && Answered(PerformAll(EMPTY_DB, calls), id, requestId)
    requires PerformAll(EMPTY_DB, calls).permissions[requestId].status == StatusFor(decision)
    ensures
      var db := PerformAll(EMPTY_DB, calls);
      var r := ResolvePermission(db, id, requestId, decision, reason, now);
      && r.db == db
      && r.result.Ok? && r.result.value.duplicated
      && (FramesFollowAnswer(calls, id, requestId) <==>
            && db.permissions[requestId].response.Some?
            && r.result.value.event.payload == DecisionPayload(db.permissions[requestId].response.value))
  {
    hide StoreOk, PerformAll, ResolvePermission, FramesFollowAnswer, RecordOk;
    var db := PerformAll(EMPTY_DB, calls);
    SecondAnswersChangeNothing(calls, id, requestId, decision, reason, now);
    FirstIsStoredExactly(calls, id, requestId);
    RunIsOk(calls);
    OkIsRecorded(db, id, requestId);
    StoredDecisionIsResponse(db, id, requestId);
    FirstDecisionIsEarliest(db.entries[id].log, requestId);
  }

  /** A decision event the store wrote for an answered request carries the stored response. */
  lemma StoredDecisionIsResponse(db: Db, id: nat, requestId: string)
    requires StoreOk(db) && Answered(db, id, requestId)
    ensures db.permissions[requestId].response.Some?
    ensures forall e :: e in db.entries[id].log && IsStoredDecision(e, requestId) ==>
      e.payload == DecisionPayload(db.permissions[requestId].response.value)
    ensures db.permissions[requestId].response.value.requestId == requestId
  {
    hide StoreOk;
    OkIsRecorded(db, id, requestId);
  }

  // ---- Runs with frames -------------------------------------------------

  const REQUEST := PermissionRequest("perm_1", "provider", "tool", "run")

  /** The provider's word on that request. */
  function Frame(decision: Decision): Call {
    CallAppend(0, ProviderPermissionDecided, ProviderFrame(Some("perm_1"), Some(decision), None))
  }

  const APPROVAL := CallResolve(0, "perm_1", Approve, None)

  /** A request on a new task, answered, with the frame behind the answer or before it. */
  function WithFrame(frame: Call, late: bool): Calls {
    [(CallCreate(READING_TASK), 0), (CallRecord(0, REQUEST), 0)] + (if late then [(APPROVAL, 0), (frame, 0)] else [(frame, 0), (APPROVAL, 0)])
  }

  lemma {:induction false} PerformNext(calls: Calls, call: Call)
    ensures PerformAll(EMPTY_DB, calls + [(call, 0)]) == Perform(PerformAll(EMPTY_DB, calls), call, 0)
  {
    var longer := calls + [(call, 0)];
    assert longer[..|longer| - 1] == calls;
  }

  /** The request recorded and pending. */
  lemma {:induction false} RequestRecorded() returns (calls: Calls)
    ensures calls == [(CallCreate(READING_TASK), 0), (CallRecord(0, REQUEST), 0)] && AppendsRuntimeOutput(calls)
    ensures
      var db := PerformAll(EMPTY_DB, calls);
      KnownRequest(db, 0, "perm_1") && !Answered(db, 0, "perm_1")
  {
    hide PerformAll, Validate, NewTask, RecordPermission, StoreOk;
    ReadingTaskIsValid();
    NothingPerformed();
    PerformNext([], CallCreate(READING_TASK));
    calls := [] + [(CallCreate(READING_TASK), 0)];
    RunIsOk(calls);
    var db := PerformAll(EMPTY_DB, calls);
    OkIsNumbered(db, 0);
    RecordPermissionEffect(db, 0, REQUEST, 0);
    PerformNext(calls, CallRecord(0, REQUEST));
    calls := calls + [(CallRecord(0, REQUEST), 0)];
  }

  lemma NothingPerformed()
    ensures PerformAll(EMPTY_DB, []) == EMPTY_DB
  {
  }

  lemma RecordedThenAnswered(db: Db)
    requires StoreOk(db) && KnownRequest(db, 0, "perm_1") && !Answered(db, 0, "perm_1")
    ensures Answered(Perform(db, APPROVAL, 0), 0, "perm_1")
    ensures Perform(db, APPROVAL, 0).permissions["perm_1"].status == Approved
  {
    hide StoreOk, ResolvePermission, RecordOk;
    OkIsNumbered(db, 0);
    OkIsRecorded(db, 0, "perm_1");
    ResolvePermissionEffect(db, 0, "perm_1", Approve, None, 0);
  }

  lemma {:induction false} AppendedCountOfNext(calls: Calls, call: Call, id: nat, requestId: string)
    ensures AppendedCount(calls + [(call, 0)], id, requestId) ==
            AppendedCount(calls, id, requestId) + (if AppendsNaming(PerformAll(EMPTY_DB, calls), call, id, requestId) then 1 else 0)
  {
    var longer := calls + [(call, 0)];
    assert longer[..|longer| - 1] == calls;
  }

  /** A provider that acknowledges the answer leaves its request with two decision events. */
  lemma AcknowledgedRequestHasTwoDecisions()
    ensures
      var calls := WithFrame(Frame(Approve), true);
      && AppendsRuntimeOutput(calls)
      && Answered(PerformAll(EMPTY_DB, calls), 0, "perm_1")
      && NamingCount(LogOf(PerformAll(EMPTY_DB, calls), 0), "perm_1") == 2
      && FramesFollowAnswer(calls, 0, "perm_1")
  {
    hide PerformAll, StoreOk, Perform, AppendedCount, FramesFollowAnswer, Answered;
    NoFramesYet(0, "perm_1");
    var recorded := RequestRecorded();
    NothingIsCounted(recorded);
    RunIsOk(recorded);
    RecordedThenAnswered(PerformAll(EMPTY_DB, recorded));
    PerformNext(recorded, APPROVAL);
    AppendedCountOfNext(recorded, APPROVAL, 0, "perm_1");
    var answered := recorded + [(APPROVAL, 0)];
    FramesFollowNext(recorded, APPROVAL);
    RunIsOk(answered);
    AnsweredIsKnown(PerformAll(EMPTY_DB, answered));
    CallAdds(PerformAll(EMPTY_DB, answered), Frame(Approve), 0, 0, "perm_1");
    PerformNext(answered, Frame(Approve));
    AppendedCountOfNext(answered, Frame(Approve), 0, "perm_1");
    FramesFollowNext(answered, Frame(Approve));
    var calls := answered + [(Frame(Approve), 0)];
    assert calls == WithFrame(Frame(Approve), true);
    NamingEventsAreCounted(calls, 0, "perm_1");
  }

  lemma {:induction false} FramesFollowNext(calls: Calls, call: Call)
    ensures FramesFollowAnswer(calls + [(call, 0)], 0, "perm_1") <==>
      && FramesFollowAnswer(calls, 0, "perm_1")
      && (AppendsNaming(PerformAll(EMPTY_DB, calls), call, 0, "perm_1") ==> Answered(PerformAll(EMPTY_DB, calls), 0, "perm_1"))
  {
    hide FramesFollowAnswer, AppendsNaming, Answered, PerformAll;
    var longer := calls + [(call, 0)];
    assert longer[..|longer| - 1] == calls;
    FramesFollowOneMore(longer, 0, "perm_1");
  }

  /** Nothing is appended while the request is made. */
  lemma {:induction false} NothingIsCounted(calls: Calls)
    requires calls == [(CallCreate(READING_TASK), 0), (CallRecord(0, REQUEST), 0)]
    ensures AppendedCount(calls, 0, "perm_1") == 0 && FramesFollowAnswer(calls, 0, "perm_1")
  {
    hide PerformAll;
    assert calls[..1][..0] == [];
    assert AppendedCount(calls[..1], 0, "perm_1") == 0;
  }

  lemma AnsweredIsKnown(db: Db)
    requires Answered(db, 0, "perm_1")
    ensures 0 < |db.entries|
  {
  }

  /** A frame before the answer is what a repeated answer gets back: the approval is
      stored, and approving again returns the provider's denial. */
  lemma EarlyFrameIsRepeated()
    ensures
      var calls := WithFrame(Frame(Deny), false);
      var db := PerformAll(EMPTY_DB, calls);
      && AppendsRuntimeOutput(calls)
      && Answered(db, 0, "perm_1") && db.permissions["perm_1"].status == Approved
      && var r := ResolvePermission(db, 0, "perm_1", Approve, None, 1);
         r.result.Ok? && AsDecision(r.result.value.event.payload) == Some(PermissionResponse("perm_1", Deny, None))
  {
    hide PerformAll, StoreOk, Perform, Answered, ResolvePermission, FirstDecision, NamingCount, IsDecisionOn;
    var recorded := RequestRecorded();
    RunIsOk(recorded);
    var db := PerformAll(EMPTY_DB, recorded);
    PerformNext(recorded, Frame(Deny));
    var framed := recorded + [(Frame(Deny), 0)];
    RunIsOk(framed);
    var db1 := PerformAll(EMPTY_DB, framed);
    FrameIsFirst(recorded, db);
    RecordedThenAnswered(db1);
    PerformNext(framed, APPROVAL);
    var calls := framed + [(APPROVAL, 0)];
    assert calls == WithFrame(Frame(Deny), false);
    AnswerLeavesFirst(db1);
    SecondAnswersChangeNothing(calls, 0, "perm_1", Approve, None, 1);
    AnsweredIsKnownRequest(PerformAll(EMPTY_DB, calls));
  }

  lemma AnsweredIsKnownRequest(db: Db)
    requires Answered(db, 0, "perm_1")
    ensures KnownRequest(db, 0, "perm_1") && !db.permissions["perm_1"].status.Pending?
  {
  }

  lemma {:induction false} FrameIsFirst(recorded: Calls, db: Db)
    requires AppendsRuntimeOutput(recorded) && db == PerformAll(EMPTY_DB, recorded)
    requires recorded == [(CallCreate(READING_TASK), 0), (CallRecord(0, REQUEST), 0)]
    requires KnownRequest(db, 0, "perm_1") && !Answered(db, 0, "perm_1")
    ensures
      var db1 := Perform(db, Frame(Deny), 0);
      && KnownRequest(db1, 0, "perm_1") && !Answered(db1, 0, "perm_1")
      && FirstDecision(LogOf(db1, 0), "perm_1").Some?
      && FirstDecision(LogOf(db1, 0), "perm_1").value.payload == ProviderFrame(Some("perm_1"), Some(Deny), None)
  {
    NothingIsCounted(recorded);
    NamingEventsAreCounted(recorded, 0, "perm_1");
    RunIsOk(recorded);
    OkIsNumbered(db, 0);
    hide PerformAll, StoreOk, AppendedCount, NamingCount;
    NumberedSequences(db.entries[0].log, 0);
    var e := Event(0, |db.entries[0].log| + 1, ProviderPermissionDecided, ProviderFrame(Some("perm_1"), Some(Deny), None), 0);
    FirstOfAppend(db.entries[0].log, e, "perm_1");
  }

  lemma AnswerLeavesFirst(db: Db)
    requires StoreOk(db) && FirstDecision(LogOf(db, 0), "perm_1").Some?
    ensures FirstDecision(LogOf(Perform(db, APPROVAL, 0), 0), "perm_1") == FirstDecision(LogOf(db, 0), "perm_1")
  {
    hide StoreOk, Perform, FirstDecision, NamingCount, IsDecisionOn;
    CallAdds(db, APPROVAL, 0, 0, "perm_1");
    var e := EventOf(db, APPROVAL, 0, 0);
    if e.Some? {
      FirstOfAppend(LogOf(db, 0), e.value, "perm_1");
    }
  }
}
