/**
 What callers are told about a permission request, against what is stored. The database
 of any run of awaiters and resolvers is that of a run of store calls, so what holds of
 the latter decides what a resolver hands on.
 */
module PermissionAnswers {
  import opened Results
  import opened TaskModel
  import opened Store
  import opened StoreInvariants
  import opened PermissionWaiters
  import opened Acknowledgements

  /** The store call a step makes. */
  function CallOf(w: World, step: Step): seq<(Call, Timestamp)> {
    match step
    case OtherCall(call, now) => [(call, now)]
    case StoreDecision(r, now) =>
      if r in w.resolvers && w.resolvers[r].phase.Cleared? then
        var x := w.resolvers[r];
        [(CallResolve(x.key.task, x.key.requestId, x.decision, x.reason), now)]
      else []
    case _ => []
  }

  function CallsOf(steps: seq<Step>): Calls {
    if steps == [] then []
    else
      var init := steps[..|steps| - 1];
      CallsOf(init) + CallOf(After(EMPTY_WORLD, init), steps[|steps| - 1])
  }

  lemma StepPerforms(w: World, step: Step)
    ensures
      var calls := CallOf(w, step);
      && |calls| <= 1
      && Next(w, step).db == if calls == [] then w.db else Perform(w.db, calls[0].0, calls[0].1)
  {
    hide ChangeStatus, AppendEvent, RecordPermission, ResolvePermission, SaveResult, AcquireLock, ReleaseLocks, CreateRow;
  }

  lemma {:induction false} PerformAllOfMore(calls: Calls, more: Calls)
    requires |more| <= 1
    ensures PerformAll(EMPTY_DB, calls + more) ==
            if more == [] then PerformAll(EMPTY_DB, calls) else Perform(PerformAll(EMPTY_DB, calls), more[0].0, more[0].1)
  {
    var all := calls + more;
    if more == [] {
      assert all == calls;
    } else {
      assert all[..|all| - 1] == calls;
    }
  }

  /** The database of a run is that of its store calls. */
  lemma {:induction false} RunPerforms(steps: seq<Step>)
    requires Orderly(EMPTY_WORLD, steps)
    ensures After(EMPTY_WORLD, steps).db == PerformAll(EMPTY_DB, CallsOf(steps))
    ensures AppendsRuntimeOutput(CallsOf(steps))
  {
    hide Next, Perform, PerformAll, IsRuntimeEvent;
    if steps == [] {
      NoCalls();
    } else {
      var init, step := steps[..|steps| - 1], steps[|steps| - 1];
      RunPerforms(init);
      StepPerforms(After(EMPTY_WORLD, init), step);
      PerformAllOfMore(CallsOf(init), CallOf(After(EMPTY_WORLD, init), step));
    }
  }

  lemma NoCalls()
    ensures PerformAll(EMPTY_DB, []) == EMPTY_DB
  {
  }

  // ---- What is handed on ------------------------------------------------

  /** Every decision handed on for the request is the stored one. */
  ghost predicate Truthful(w: World, key: Key) {
    && (forall a :: a in w.awaits && w.awaits[a].key == key && w.awaits[a].phase.Got? ==>
          IsAnswered(w.db, key, w.awaits[a].phase.response))
    && (forall r :: r in w.resolvers && w.resolvers[r].key == key && w.resolvers[r].phase.Stored? ==>
          IsAnswered(w.db, key, w.resolvers[r].phase.response))
    && (forall r :: r in w.resolvers && w.resolvers[r].key == key && w.resolvers[r].phase.Replied? ==>
          IsAnswered(w.db, key, w.resolvers[r].phase.response))
  }

  /** Once answered, the request keeps its answer through a step. */
  lemma AnswerStays(w: World, step: Step, key: Key, response: PermissionResponse)
    requires WorldOk(w) && Admissible(w, step) && IsAnswered(w.db, key, response)
    ensures IsAnswered(Next(w, step).db, key, response)
  {
    StepPerforms(w, step);
    var calls := CallOf(w, step);
    hide StoreOk, Next, Perform, AwaitsOk, ResolversOk, WaitersOk, Unshared;
    if calls != [] {
      PerformKeeps(w.db, calls[0].0, calls[0].1);
    }
  }

  /** A duplicate hands on the stored decision when the store wrote the earliest event
      that names the request. */
  lemma ResolverStoresTruth(w: World, r: nat, now: Timestamp)
    requires StoreOk(w.db) && r in w.resolvers && w.resolvers[r].phase.Cleared?
    requires Answered(w.db, w.resolvers[r].key.task, w.resolvers[r].key.requestId) ==>
      FirstIsStored(w.db, w.resolvers[r].key.task, w.resolvers[r].key.requestId)
    ensures
      var x, w' := w.resolvers[r], Next(w, StoreDecision(r, now));
      && r in w'.resolvers && w'.resolvers[r].key == x.key
      && (w'.resolvers[r].phase.Stored? ==> IsAnswered(w'.db, x.key, w'.resolvers[r].phase.response))
      && !w'.resolvers[r].phase.Replied?
  {
    hide StoreOk, Perform, ResolvePermission, RecordOk, FirstDecision;
    var x := w.resolvers[r];
    OkIsNumbered(w.db, x.key.task);
    OkIsRecorded(w.db, x.key.task, x.key.requestId);
    ResolvePermissionEffect(w.db, x.key.task, x.key.requestId, x.decision, x.reason, now);
    if Answered(w.db, x.key.task, x.key.requestId) {
      StoredDecisionIsResponse(w.db, x.key.task, x.key.requestId);
      FirstDecisionIsEarliest(w.db.entries[x.key.task].log, x.key.requestId);
    }
  }

  /** Where a caller's answer comes from: it had it, its check found it, or it was notified. */
  lemma CallerHears(w: World, step: Step, a: nat)
    requires a in Next(w, step).awaits && Next(w, step).awaits[a].phase.Got?
    ensures
      var x := Next(w, step).awaits[a];
      || (a in w.awaits && w.awaits[a] == x)
      || (step.BeginAwait? && step.key == x.key && x.phase == CheckRequest(w.db, x.key))
      || (step.Notify? && step.r in w.resolvers && w.resolvers[step.r].phase == Stored(x.phase.response)
          && var k := Key(w.resolvers[step.r].key.task, x.phase.response.requestId);
             k in w.waiters && w.waiters[k] == a && a in w.awaits && w.awaits[a].key == x.key)
  {
    hide Perform, ResolvePermission, Known, IsPending, CheckRequest;
  }

  lemma CallerHearsTruth(w: World, step: Step, key: Key, a: nat)
    requires WorldOk(w) && Truthful(w, key)
    requires a in Next(w, step).awaits && Next(w, step).awaits[a].key == key && Next(w, step).awaits[a].phase.Got?
    ensures IsAnswered(w.db, key, Next(w, step).awaits[a].phase.response)
  {
    CallerHears(w, step, a);
    AnswersAreNamed(w);
    WaitersAreFiled(w);
    if Known(w.db, key) && !IsPending(w.db, key) { RecordedAnswer(w.db, key); }
    hide WorldOk, Next, IsAnswered;
  }

  lemma AnswersAreNamed(w: World)
    requires WorldOk(w)
    ensures forall r :: r in w.resolvers && w.resolvers[r].phase.Stored? ==>
      w.resolvers[r].phase.response.requestId == w.resolvers[r].key.requestId
  {
    hide StoreOk;
    forall r | r in w.resolvers && w.resolvers[r].phase.Stored?
      ensures w.resolvers[r].phase.response.requestId == w.resolvers[r].key.requestId
    {
      assert ResolverOk(w, w.resolvers[r]);
    }
  }

  lemma ResolverWasThere(w: World, step: Step, r: nat)
    requires r in Next(w, step).resolvers
    requires Next(w, step).resolvers[r].phase.Stored? || Next(w, step).resolvers[r].phase.Replied?
    requires !(step.StoreDecision? && step.r == r && r in w.resolvers && w.resolvers[r].phase.Cleared?)
    ensures
      var x := Next(w, step).resolvers[r];
      && r in w.resolvers && w.resolvers[r].key == x.key
      && (w.resolvers[r].phase.Stored? || w.resolvers[r].phase.Replied?) && w.resolvers[r].phase.response == x.phase.response
  {
    hide Perform, ResolvePermission, Known, IsPending;
  }

  lemma ResolverTellsTruth(w: World, step: Step, key: Key, r: nat)
    requires WorldOk(w) && Admissible(w, step) && Truthful(w, key)
    requires Answered(w.db, key.task, key.requestId) ==> FirstIsStored(w.db, key.task, key.requestId)
    requires r in Next(w, step).resolvers && Next(w, step).resolvers[r].key == key
    requires Next(w, step).resolvers[r].phase.Stored? || Next(w, step).resolvers[r].phase.Replied?
    ensures IsAnswered(Next(w, step).db, key, Next(w, step).resolvers[r].phase.response)
  {
    hide WorldOk, Next, Admissible, FirstIsStored, Answered, IsAnswered;
    if step.StoreDecision? && step.r == r && r in w.resolvers && w.resolvers[r].phase.Cleared? {
      WorldStore(w);
      KeyStays(w, r, step.now);
      ResolverStoresTruth(w, r, step.now);
    } else {
      ResolverWasThere(w, step, r);
      AnswerStays(w, step, key, Next(w, step).resolvers[r].phase.response);
    }
  }

  lemma KeyStays(w: World, r: nat, now: Timestamp)
    requires r in w.resolvers
    ensures r in Next(w, StoreDecision(r, now)).resolvers
    ensures Next(w, StoreDecision(r, now)).resolvers[r].key == w.resolvers[r].key
  {
    hide Perform, ResolvePermission;
  }

  lemma WorldStore(w: World)
    requires WorldOk(w)
    ensures StoreOk(w.db)
  {
  }

  lemma WaitersAreFiled(w: World)
    requires WorldOk(w)
    ensures forall k :: k in w.waiters ==> w.waiters[k] in w.awaits && w.awaits[w.waiters[k]].key == k
  {
    hide StoreOk;
    forall k | k in w.waiters
      ensures w.waiters[k] in w.awaits && w.awaits[w.waiters[k]].key == k
    {
      assert WaiterOk(w, k);
    }
  }

  lemma StepKeepsTruth(w: World, step: Step, key: Key)
    requires WorldOk(w) && Admissible(w, step) && Truthful(w, key)
    requires Answered(w.db, key.task, key.requestId) ==> FirstIsStored(w.db, key.task, key.requestId)
    ensures Truthful(Next(w, step), key)
  {
    hide WorldOk, Next, Admissible, FirstIsStored, Answered, IsAnswered;
    var w' := Next(w, step);
    forall a | a in w'.awaits && w'.awaits[a].key == key && w'.awaits[a].phase.Got?
      ensures IsAnswered(w'.db, key, w'.awaits[a].phase.response)
    {
      CallerHearsTruth(w, step, key, a);
      AnswerStays(w, step, key, w'.awaits[a].phase.response);
    }
    forall r | r in w'.resolvers && w'.resolvers[r].key == key && (w'.resolvers[r].phase.Stored? || w'.resolvers[r].phase.Replied?)
      ensures IsAnswered(w'.db, key, w'.resolvers[r].phase.response)
    {
      ResolverTellsTruth(w, step, key, r);
    }
  }

  lemma {:induction false} FollowPrefix(calls: Calls, more: Calls, id: nat, requestId: string)
    requires FramesFollowAnswer(calls + more, id, requestId)
    ensures FramesFollowAnswer(calls, id, requestId)
  {
    hide PerformAll, AppendsNaming, Answered;
    assert forall i :: 0 <= i < |calls| ==> (calls + more)[..i] == calls[..i] && (calls + more)[i] == calls[i];
  }

  lemma {:induction false} RunIsTruthful(steps: seq<Step>, key: Key)
    requires Orderly(EMPTY_WORLD, steps) && FramesFollowAnswer(CallsOf(steps), key.task, key.requestId)
    ensures Truthful(After(EMPTY_WORLD, steps), key)
  {
    hide Next, WorldOk, FramesFollowAnswer, FirstIsStored, PerformAll, Truthful, Admissible;
    if steps == [] {
      NobodyIsTold(key);
    } else {
      var init, step := steps[..|steps| - 1], steps[|steps| - 1];
      FollowPrefix(CallsOf(init), CallOf(After(EMPTY_WORLD, init), step), key.task, key.requestId);
      RunIsTruthful(init, key);
      RunKeeps(init);
      RunPerforms(init);
      FirstIsStoredExactly(CallsOf(init), key.task, key.requestId);
      StepKeepsTruth(After(EMPTY_WORLD, init), step, key);
    }
  }

  lemma NobodyIsTold(key: Key)
    ensures Truthful(After(EMPTY_WORLD, []), key)
  {
  }

  /** Every decision handed to a caller on either side is the one durably stored, in every
      run in which a provider's frames name the request after its answer only. */
  lemma {:induction false} DecisionsReceivedAreStored(steps: seq<Step>, key: Key)
    requires Orderly(EMPTY_WORLD, steps) && FramesFollowAnswer(CallsOf(steps), key.task, key.requestId)
    ensures
      var w := After(EMPTY_WORLD, steps);
      && (forall a :: a in w.awaits && w.awaits[a].key == key && w.awaits[a].phase.Got? ==>
            IsAnswered(w.db, key, w.awaits[a].phase.response))
      && (forall r :: r in w.resolvers && w.resolvers[r].key == key && w.resolvers[r].phase.Replied? ==>
            IsAnswered(w.db, key, w.resolvers[r].phase.response))
  {
    hide After, FramesFollowAnswer, Orderly;
    RunIsTruthful(steps, key);
  }

  // ---- A request asked and answered without interruption ----------------

  /** Asking about a request: an unknown one fails, an answered one has its stored answer at
      once, and a pending one leaves the caller waiting and registered. */
  lemma AwaitMeans(w: World, a: nat, key: Key)
    requires StoreOk(w.db) && a !in w.awaits
    ensures
      var w' := Next(Next(w, BeginAwait(a, key)), Register(a));
      && w'.db == w.db && a in w'.awaits && w'.awaits[a].key == key
      && (w'.awaits[a].phase == Failed <==> !Known(w.db, key))
      && (w'.awaits[a].phase == Waiting <==> IsPending(w.db, key))
      && (IsPending(w.db, key) ==> key in w'.waiters && w'.waiters[key] == a)
      && (Known(w.db, key) && !IsPending(w.db, key) ==>
            w'.awaits[a].phase.Got? && IsAnswered(w.db, key, w'.awaits[a].phase.response))
  {
    hide StoreOk, ResolveStep, Perform;
    if Known(w.db, key) && !IsPending(w.db, key) {
      RecordedAnswer(w.db, key);
    }
  }

  /** Asking about a pending request and then answering it: the answer is stored, and it is
      what the asker hears and the answerer is told. */
  lemma AskedAndAnswered(w: World, a: nat, key: Key, decision: Decision, reason: Option<string>, now: Timestamp)
    requires StoreOk(w.db) && w.resolvers == map[] && a !in w.awaits && IsPending(w.db, key)
    ensures
      var response := PermissionResponse(key.requestId, decision, reason);
      var w' := ResolveAlone(Next(Next(w, BeginAwait(a, key)), Register(a)), key, decision, reason, now);
      && IsAnswered(w'.db, key, response)
      && a in w'.awaits && w'.awaits[a] == Await(key, Got(response))
      && key !in w'.waiters
      && 0 in w'.resolvers && w'.resolvers[0].phase == Replied(response)
  {
    AwaitMeans(w, a, key);
    AskingLeavesResolvers(w, a, key);
    hide StoreOk, ResolveAlone, ResolvePermission, Next, IsAnswered;
    AnsweredAlone(Next(Next(w, BeginAwait(a, key)), Register(a)), a, key, decision, reason, now);
  }

  lemma AnsweredAlone(w: World, a: nat, key: Key, decision: Decision, reason: Option<string>, now: Timestamp)
    requires StoreOk(w.db) && w.resolvers == map[] && IsPending(w.db, key)
    requires a in w.awaits && w.awaits[a] == Await(key, Waiting) && key in w.waiters && w.waiters[key] == a
    ensures
      var response := PermissionResponse(key.requestId, decision, reason);
      var w' := ResolveAlone(w, key, decision, reason, now);
      && IsAnswered(w'.db, key, response)
      && a in w'.awaits && w'.awaits[a] == Await(key, Got(response))
      && key !in w'.waiters
      && 0 in w'.resolvers && w'.resolvers[0].phase == Replied(response)
  {
    FirstAnswerIsStored(w.db, key, decision, reason, now);
    hide StoreOk, ResolveAlone, ResolvePermission, IsAnswered;
    ResolveAloneIs(w, key, decision, reason, now);
  }

  lemma FirstAnswerIsStored(db: Db, key: Key, decision: Decision, reason: Option<string>, now: Timestamp)
    requires StoreOk(db) && IsPending(db, key)
    ensures
      var response := PermissionResponse(key.requestId, decision, reason);
      var r := ResolvePermission(db, key.task, key.requestId, decision, reason, now);
      r.result.Ok? && AsDecision(r.result.value.event.payload) == Some(response) && IsAnswered(r.db, key, response)
  {
    hide StoreOk, ResolvePermission, RecordOk, Numbered, FirstDecision, IsDecisionOn;
    OkIsNumbered(db, key.task);
    OkIsRecorded(db, key.task, key.requestId);
    ResolvePermissionEffect(db, key.task, key.requestId, decision, reason, now);
  }

  lemma AskingLeavesResolvers(w: World, a: nat, key: Key)
    ensures Next(Next(w, BeginAwait(a, key)), Register(a)).resolvers == w.resolvers
  {
  }

  /** Answering a pending request that nobody has asked about is refused and changes nothing. */
  lemma UnaskedIsRefused(w: World, key: Key, decision: Decision, reason: Option<string>, now: Timestamp)
    requires w.resolvers == map[] && IsPending(w.db, key) && key !in w.waiters
    ensures
      var w' := ResolveAlone(w, key, decision, reason, now);
      w'.(resolvers := map[]) == w && 0 in w'.resolvers && w'.resolvers[0].phase.Rejected?
  {
    hide ResolveAlone;
    ResolveAloneIs(w, key, decision, reason, now);
  }

  // ---- An answer repeated behind a provider's frame ---------------------

  /** A decision event that has this request's id, the store's own or a provider's. */
  ghost predicate Mentions(e: Event, requestId: string) {
    && e.eventType.ProviderPermissionDecided?
    && match e.payload
       case DecisionPayload(response) => response.requestId == requestId
       case ProviderFrame(Some(named), _, _) => named == requestId
       case _ => false
  }

  ghost predicate IsFirstMention(log: Log, k: nat, requestId: string) {
    k < |log| && Mentions(log[k], requestId) && forall j :: 0 <= j < k ==> !Mentions(log[j], requestId)
  }

  /** The same answer given again reads back the first event that mentions the request. If it
      is a provider's frame, the answerer is told the frame's decision and reason, whatever
      they are, and is refused if the frame has no decision. Nothing is stored. */
  lemma RepeatedAnswerReadsFirstMention(
      w: World, key: Key, k: nat, decision: Decision, reason: Option<string>, now: Timestamp)
    requires StoreOk(w.db) && w.resolvers == map[] && Known(w.db, key)
    requires w.db.permissions[key.requestId].status == StatusFor(decision)
    requires IsFirstMention(w.db.entries[key.task].log, k, key.requestId)
    ensures
      var w' := ResolveAlone(w, key, decision, reason, now);
      && w'.db == w.db && 0 in w'.resolvers
      && match w.db.entries[key.task].log[k].payload
         case DecisionPayload(response) => w'.resolvers[0].phase == Replied(response)
         case ProviderFrame(_, Some(framed), why) => w'.resolvers[0].phase == Replied(PermissionResponse(key.requestId, framed, why))
         case _ => w'.resolvers[0].phase == Rejected
  {
    RepliesWithFirstMention(w.db, key, k, decision, reason, now);
    hide StoreOk, ResolveAlone, ResolvePermission, IsFirstMention, Next;
    ResolveAloneIs(w, key, decision, reason, now);
  }

  lemma RepliesWithFirstMention(db: Db, key: Key, k: nat, decision: Decision, reason: Option<string>, now: Timestamp)
    requires StoreOk(db) && Known(db, key) && db.permissions[key.requestId].status == StatusFor(decision)
    requires IsFirstMention(db.entries[key.task].log, k, key.requestId)
    ensures
      var r := ResolvePermission(db, key.task, key.requestId, decision, reason, now);
      r.db == db && r.result.Ok? && r.result.value.event == db.entries[key.task].log[k]
  {
    OkIsNumbered(db, key.task);
    OkIsRecorded(db, key.task, key.requestId);
    hide StoreOk, ResolvePermission, RecordOk, FirstDecision;
    ResolvePermissionEffect(db, key.task, key.requestId, decision, reason, now);
    FirstMentionIsFound(db.entries[key.task].log, k, key.requestId);
  }

  lemma FirstMentionIsFound(log: Log, k: nat, requestId: string)
    requires IsFirstMention(log, k, requestId)
    ensures FirstDecision(log, requestId) == Some(log[k])
  {
    hide FirstDecision;
    FirstDecisionIsEarliest(log, requestId);
    assert forall j :: 0 <= j < |log| ==> (Mentions(log[j], requestId) <==> IsDecisionOn(log[j], requestId));
  }
}
