/**
 Awaits of one permission request that overlap: exactly when they can leave a caller
 waiting for an answer already given, and what then helps.
 */
module PermissionOverlaps {
  import opened Results
  import opened TaskModel
  import opened Store
  import opened StoreInvariants
  import opened PermissionWaiters
  import opened Acknowledgements
  import opened Examples

  /** Two overlapping awaits: both have checked, the first has registered, and a
      resolver has found it. */
  function Overlap(w: World, a: nat, b: nat, r: nat, key: Key, decision: Decision): World {
    var checked := Next(Next(w, BeginAwait(a, key)), BeginAwait(b, key));
    Next(Next(Next(Next(checked, Register(a)), BeginResolve(r, key, decision, None)), ReadRequest(r)), CheckWaiter(r))
  }

  lemma OverlapReaches(w: World, a: nat, b: nat, r: nat, key: Key, decision: Decision)
    requires IsPending(w.db, key) && key !in w.waiters
    requires a !in w.awaits && b !in w.awaits && a != b && r !in w.resolvers
    ensures Overlap(w, a, b, r, key, decision) == World(
      w.db, w.waiters[key := a], w.awaits[a := Await(key, Waiting)][b := Await(key, Checked)],
      w.resolvers[r := Resolver(key, decision, None, Cleared)])
  {
    hide Perform, ResolvePermission;
    var registered := Next(Next(Next(w, BeginAwait(a, key)), BeginAwait(b, key)), Register(a));
    assert registered == w.(waiters := w.waiters[key := a], awaits := w.awaits[a := Await(key, Waiting)][b := Await(key, Checked)]);
    ResolverClears(registered, r, key, decision);
  }

  lemma ResolverClears(w: World, r: nat, key: Key, decision: Decision)
    requires IsPending(w.db, key) && key in w.waiters && r !in w.resolvers
    ensures Next(Next(Next(w, BeginResolve(r, key, decision, None)), ReadRequest(r)), CheckWaiter(r)) ==
            w.(resolvers := w.resolvers[r := Resolver(key, decision, None, Cleared)])
  {
    hide Perform, ResolvePermission;
    var read := Next(Next(w, BeginResolve(r, key, decision, None)), ReadRequest(r));
    assert read.resolvers == w.resolvers[r := Resolver(key, decision, None, Read(true))];
  }

  /** Whenever a request is pending and not awaited, two overlapping awaits can strand
      the second: it registers for an answer already given, with nobody left to notify it. */
  lemma OverlappingAwaitsStrandOne(w: World, a: nat, b: nat, r: nat, key: Key, decision: Decision, now: Timestamp)
    requires WorldOk(w) && IsPending(w.db, key) && Alone(w, key)
    requires a !in w.awaits && b !in w.awaits && a != b && r !in w.resolvers
    ensures
      var resolved := Next(Next(Overlap(w, a, b, r, key, decision), StoreDecision(r, now)), Notify(r));
      var w' := Next(resolved, Register(b));
      && a in w'.awaits && w'.awaits[a].phase.Got?
      && b in w'.awaits && w'.awaits[b] == Await(key, Waiting)
      && Known(w'.db, key) && !IsPending(w'.db, key)
      && !NotifierComing(w', key)
  {
    hide StoreOk, Overlap, AwaitsOk, WaitersOk, Unshared, Perform;
    OverlapReaches(w, a, b, r, key, decision);
    var cleared := Overlap(w, a, b, r, key, decision);
    FirstAnswer(cleared, r, now);
    var stored := Next(cleared, StoreDecision(r, now));
    var response := PermissionResponse(key.requestId, decision, None);
    assert stored.resolvers == w.resolvers[r := Resolver(key, decision, None, Stored(response))];
    LastNotifierLeaves(w, stored, a, b, r, key, response);
  }

  lemma LastNotifierLeaves(w: World, stored: World, a: nat, b: nat, r: nat, key: Key, response: PermissionResponse)
    requires ResolversOk(w) && IsPending(w.db, key) && response.requestId == key.requestId
    requires a != b && r !in w.resolvers
    requires exists x :: stored.resolvers == w.resolvers[r := x] && x.key == key && x.phase == Stored(response)
    requires stored.waiters == w.waiters[key := a] && stored.awaits == w.awaits[a := Await(key, Waiting)][b := Await(key, Checked)]
    ensures
      var w' := Next(Next(stored, Notify(r)), Register(b));
      && w'.db == stored.db
      && a in w'.awaits && w'.awaits[a].phase.Got?
      && b in w'.awaits && w'.awaits[b] == Await(key, Waiting)
      && !NotifierComing(w', key)
  {
    hide Perform;
    forall q | q in w.resolvers
      ensures !(w.resolvers[q].key == key && w.resolvers[q].phase.Stored?)
    {
      assert ResolverOk(w, w.resolvers[q]);
    }
    var notified := Next(stored, Notify(r));
    assert notified.awaits == w.awaits[a := Await(key, Got(response))][b := Await(key, Checked)];
  }

  const EXAMPLE_KEY := Key(0, "perm_1")

  function RequestPending(): World {
    var created := Next(EMPTY_WORLD, OtherCall(CallCreate(READING_TASK), 0));
    Next(created, OtherCall(CallRecord(0, PermissionRequest("perm_1", "provider", "tool", "run")), 1))
  }

  /** The state the previous lemma starts from is reachable, so overlapping awaits do strand a caller. */
  lemma PendingRequestIsReachable()
    ensures WorldOk(RequestPending()) && IsPending(RequestPending().db, EXAMPLE_KEY) && Alone(RequestPending(), EXAMPLE_KEY)
  {
    hide StoreOk, AwaitsOk, WaitersOk, ResolversOk, Unshared;
    EmptyWorldIsOk();
    OtherCallKeeps(EMPTY_WORLD, CallCreate(READING_TASK), 0);
    var created := Next(EMPTY_WORLD, OtherCall(CallCreate(READING_TASK), 0));
    OtherCallKeeps(created, CallRecord(0, PermissionRequest("perm_1", "provider", "tool", "run")), 1);
    ReadingTaskIsValid();
    assert |created.db.entries| == 1;
    OkIsNumbered(created.db, 0);
    RecordPermissionEffect(created.db, 0, PermissionRequest("perm_1", "provider", "tool", "run"), 1);
  }

  lemma FirstAnswer(w: World, r: nat, now: Timestamp)
    requires StoreOk(w.db) && r in w.resolvers && w.resolvers[r].phase.Cleared? && IsPending(w.db, w.resolvers[r].key)
    ensures
      var x := w.resolvers[r];
      var response := PermissionResponse(x.key.requestId, x.decision, x.reason);
      var w' := Next(w, StoreDecision(r, now));
      w' == AtPhase(w.(db := w'.db), r, Stored(response)) && Answers(w.db, w'.db, x.key, response)
  {
    hide StoreOk, ResolvePermission, RecordOk;
    var x := w.resolvers[r];
    OkIsNumbered(w.db, x.key.task);
    OkIsRecorded(w.db, x.key.task, x.key.requestId);
    ResolvePermissionEffect(w.db, x.key.task, x.key.requestId, x.decision, x.reason, now);
  }

  // ---- When a caller can be stranded ------------------------------------

  /** Registered and waiting for a request that is answered, with nobody left to notify. */
  ghost predicate Stranded(w: World, a: nat) {
    && a in w.awaits && w.awaits[a].phase.Waiting?
    && var key := w.awaits[a].key;
       && key in w.waiters && w.waiters[key] == a
       && Known(w.db, key) && !IsPending(w.db, key)
       && !NotifierComing(w, key)
  }

  /** Some orderly continuation strands a caller. */
  ghost predicate CanStrand(w: World) {
    exists steps: seq<Step>, a: nat :: Orderly(w, steps) && Stranded(After(w, steps), a)
  }

  lemma {:induction false} OneMore(w: World, steps: seq<Step>, step: Step)
    ensures After(w, steps + [step]) == Next(After(w, steps), step)
    ensures Orderly(w, steps + [step]) <==> Orderly(w, steps) && Admissible(After(w, steps), step)
  {
    hide Next, Admissible;
    var longer := steps + [step];
    assert longer[..|longer| - 1] == steps;
  }

  lemma {:induction false} OrderlyKeeps(w: World, steps: seq<Step>)
    requires WorldOk(w) && Orderly(w, steps)
    ensures WorldOk(After(w, steps))
  {
    hide WorldOk, Next, Admissible;
    if steps != [] {
      OrderlyKeeps(w, steps[..|steps| - 1]);
      StepKeeps(After(w, steps[..|steps| - 1]), steps[|steps| - 1]);
    }
  }

  lemma GoodWorldsStrandNobody(w: World, a: nat)
    requires WorldOk(w)
    ensures !Stranded(w, a)
  {
    hide StoreOk;
    if a in w.awaits && w.awaits[a].key in w.waiters {
      assert WaiterOk(w, w.awaits[a].key);
    }
  }

  lemma AnsweredAwaitKeeps(w: World, b: nat, key: Key)
    requires WorldOk(w) && !IsPending(w.db, key)
    ensures WorldOk(Next(w, BeginAwait(b, key)))
  {
    hide StoreOk, Perform, ResolvePermission;
    OkIsRecorded(w.db, key.task, key.requestId);
    var w' := Next(w, BeginAwait(b, key));
    forall k | k in w'.waiters
      ensures WaiterOk(w', k)
    {
      assert WaiterOk(w, k);
      NotifiersStay(w, w', k);
    }
  }

  lemma FreshId(ids: set<nat>) returns (n: nat)
    ensures forall m :: m in ids ==> m < n
  {
    if ids == {} {
      n := 0;
    } else {
      var x :| x in ids;
      var k := FreshId(ids - {x});
      n := if x < k then k else x + 1;
      assert forall m :: m in ids ==> m == x || m in ids - {x};
    }
  }

  lemma NotifyThenRegister(w: World, b: nat, r: nat, key: Key, response: PermissionResponse)
    requires r in w.resolvers && w.resolvers[r].key == key && w.resolvers[r].phase == Stored(response)
    requires response.requestId == key.requestId
    requires forall q :: q in w.resolvers && q != r && w.resolvers[q].key == key ==> !w.resolvers[q].phase.Stored?
    requires key in w.waiters && w.waiters[key] != b
    requires b in w.awaits && w.awaits[b] == Await(key, Checked)
    ensures
      var w' := Next(Next(w, Notify(r)), Register(b));
      && w'.db == w.db
      && b in w'.awaits && w'.awaits[b] == Await(key, Waiting)
      && key in w'.waiters && w'.waiters[key] == b
      && !NotifierComing(w', key)
  {
    hide Perform, ResolvePermission;
    var notified := Next(w, Notify(r));
    assert b in notified.awaits && notified.awaits[b] == Await(key, Checked) && key !in notified.waiters;
  }

  /** While one await of a pending request is registered, another that has checked is
      stranded by a resolver that runs to its end before it registers. */
  lemma {:induction false} ResolveThenRegister(w: World, before: seq<Step>, b: nat, key: Key) returns (steps: seq<Step>)
    requires Orderly(w, before) && StoreOk(After(w, before).db)
    requires
      var w1 := After(w, before);
      && IsPending(w1.db, key) && !NotifierComing(w1, key)
      && key in w1.waiters && w1.waiters[key] != b
      && b in w1.awaits && w1.awaits[b] == Await(key, Checked)
    ensures Orderly(w, steps) && Stranded(After(w, steps), b)
  {
    hide Orderly, After, StoreOk, Perform, ResolvePermission, Wake;
    var w1 := After(w, before);
    var r := FreshId(w1.resolvers.Keys);
    steps := before;
    OneMore(w, steps, BeginResolve(r, key, Approve, None));
    steps := steps + [BeginResolve(r, key, Approve, None)];
    OneMore(w, steps, ReadRequest(r));
    steps := steps + [ReadRequest(r)];
    OneMore(w, steps, CheckWaiter(r));
    steps := steps + [CheckWaiter(r)];
    ResolverClears(w1, r, key, Approve);
    var cleared := After(w, steps);
    OneMore(w, steps, StoreDecision(r, 0));
    steps := steps + [StoreDecision(r, 0)];
    FirstAnswer(cleared, r, 0);
    var stored := After(w, steps);
    OneMore(w, steps, Notify(r));
    steps := steps + [Notify(r)];
    OneMore(w, steps, Register(b));
    steps := steps + [Register(b)];
    hide Next;
    NotifyThenRegister(stored, b, r, key, PermissionResponse(key.requestId, Approve, None));
  }

  lemma PendingHasNoNotifier(w: World, key: Key)
    requires WorldOk(w) && IsPending(w.db, key)
    ensures !NotifierComing(w, key)
  {
    hide StoreOk;
    assert forall r :: r in w.resolvers ==> ResolverOk(w, w.resolvers[r]);
  }

  lemma RegisterFirst(w: World, a: nat, b: nat, key: Key)
    requires a != b && a in w.awaits && b in w.awaits && w.awaits[a] == w.awaits[b] == Await(key, Checked)
    requires key !in w.waiters
    ensures
      var w' := Next(w, Register(a));
      && w'.db == w.db && w'.resolvers == w.resolvers
      && key in w'.waiters && w'.waiters[key] == a
      && b in w'.awaits && w'.awaits[b] == w.awaits[b]
  {
  }

  lemma CheckStarts(w: World, b: nat, key: Key)
    requires IsPending(w.db, key) && b !in w.awaits
    ensures Next(w, BeginAwait(b, key)) == w.(awaits := w.awaits[b := Await(key, Checked)])
  {
  }

  /** An await begun on a pending request that is not alone can be stranded. */
  lemma OverlapCanStrand(w: World, b: nat, key: Key)
    requires WorldOk(w) && IsPending(w.db, key) && !Alone(w, key) && b !in w.awaits
    ensures CanStrand(Next(w, BeginAwait(b, key)))
  {
    hide WorldOk, Next, Known, IsPending;
    PendingHasNoNotifier(w, key);
    CheckStarts(w, b, key);
    WorldStoreIsOk(w);
    var w1 := Next(w, BeginAwait(b, key));
    NotifiersStay(w1, w, key);
    var before: seq<Step> := [];
    if key in w.waiters {
      RegisteredAreKnown(w, key);
    } else {
      var a :| a in w.awaits && w.awaits[a].phase.Checked? && w.awaits[a].key == key;
      OneMore(w1, [], Register(a));
      before := [] + [Register(a)];
      RegisterFirst(w1, a, b, key);
      NotifiersStay(After(w1, before), w, key);
    }
    var steps := ResolveThenRegister(w1, before, b, key);
  }

  lemma WorldStoreIsOk(w: World)
    requires WorldOk(w)
    ensures StoreOk(w.db)
  {
  }

  lemma RegisteredAreKnown(w: World, key: Key)
    requires WorldOk(w) && key in w.waiters
    ensures w.waiters[key] in w.awaits
  {
    hide StoreOk;
    assert WaiterOk(w, key);
  }

  /** Beginning an await can end in somebody being stranded if and only if the request
      is pending and somebody else is waiting for it, or about to: a condition the caller
      can check, where it is kept no continuation loses a wake-up, and where it is broken
      some continuation does. */
  lemma OverlapStrandsExactly(w: World, b: nat, key: Key)
    requires WorldOk(w) && b !in w.awaits
    ensures CanStrand(Next(w, BeginAwait(b, key))) <==> IsPending(w.db, key) && !Alone(w, key)
  {
    hide WorldOk, Next, IsPending, Alone;
    var w1 := Next(w, BeginAwait(b, key));
    if IsPending(w.db, key) && !Alone(w, key) {
      OverlapCanStrand(w, b, key);
    } else {
      if Alone(w, key) {
        BeginAwaitKeeps(w, b, key);
      } else {
        AnsweredAwaitKeeps(w, b, key);
      }
      forall steps: seq<Step>, a: nat | Orderly(w1, steps)
        ensures !Stranded(After(w1, steps), a)
      {
        OrderlyKeeps(w1, steps);
        GoodWorldsStrandNobody(After(w1, steps), a);
      }
    }
  }

  // ---- What helps a stranded caller -------------------------------------

  /** Giving the same answer again is acknowledged as a duplicate and changes nothing in
      the store. It wakes the stranded caller with the decision of the earliest event that
      names the request, if that event reads as one; where the store wrote that event, it
      is the answer that is stored. */
  lemma RepeatedAnswerWakes(w: World, a: nat, r: nat, decision: Decision, reason: Option<string>, now: Timestamp)
    requires StoreOk(w.db) && Stranded(w, a) && r !in w.resolvers
    requires w.db.permissions[w.awaits[a].key.requestId].status == StatusFor(decision)
    ensures
      var key := w.awaits[a].key;
      var response := w.db.permissions[key.requestId].response;
      var first := FirstDecision(w.db.entries[key.task].log, key.requestId);
      var cleared := Next(Next(Next(w, BeginResolve(r, key, decision, reason)), ReadRequest(r)), CheckWaiter(r));
      var w' := Next(Next(cleared, StoreDecision(r, now)), Notify(r));
      && w'.db == w.db
      && first.Some? && response.Some?
      && a in w'.awaits
      && (AsDecision(first.value.payload).Some? ==> w'.awaits[a].phase == Got(AsDecision(first.value.payload).value))
      && (AsDecision(first.value.payload).None? ==> w'.awaits == w.awaits)
      && (IsStoredDecision(first.value, key.requestId) ==> w'.awaits[a].phase == Got(response.value))
  {
    hide StoreOk, Perform, ResolvePermission, RecordOk, Answers, FirstDecision;
    var key := w.awaits[a].key;
    AnsweredResolverClears(w, r, key, decision, reason);
    OkIsNumbered(w.db, key.task);
    OkIsRecorded(w.db, key.task, key.requestId);
    RecordedAnswer(w.db, key);
    ResolvePermissionEffect(w.db, key.task, key.requestId, decision, reason, now);
    StoredDecisionIsResponse(w.db, key.task, key.requestId);
    var cleared := Next(Next(Next(w, BeginResolve(r, key, decision, reason)), ReadRequest(r)), CheckWaiter(r));
    hide IsDecisionOn;
    DuplicateIsHandedOn(cleared, r, a, now);
  }

  lemma DuplicateIsHandedOn(w: World, r: nat, a: nat, now: Timestamp)
    requires r in w.resolvers && w.resolvers[r].phase.Cleared?
    requires
      var x := w.resolvers[r];
      var reply := ResolvePermission(w.db, x.key.task, x.key.requestId, x.decision, x.reason, now);
      && reply.db == w.db && reply.result.Ok? && IsDecisionOn(reply.result.value.event, x.key.requestId)
      && x.key in w.waiters && w.waiters[x.key] == a && a in w.awaits && w.awaits[a].phase.Waiting?
    ensures
      var x := w.resolvers[r];
      var decided := AsDecision(ResolvePermission(w.db, x.key.task, x.key.requestId, x.decision, x.reason, now).result.value.event.payload);
      var w' := Next(Next(w, StoreDecision(r, now)), Notify(r));
      && w'.db == w.db
      && a in w'.awaits
      && (if decided.Some? then w'.awaits[a].phase == Got(decided.value) else w'.awaits == w.awaits)
  {
    hide Perform, ResolvePermission;
  }

  lemma AnsweredResolverClears(w: World, r: nat, key: Key, decision: Decision, reason: Option<string>)
    requires Known(w.db, key) && !IsPending(w.db, key) && r !in w.resolvers
    ensures Next(Next(Next(w, BeginResolve(r, key, decision, reason)), ReadRequest(r)), CheckWaiter(r)) ==
            w.(resolvers := w.resolvers[r := Resolver(key, decision, reason, Cleared)])
  {
    hide Perform, ResolvePermission;
    var read := Next(Next(w, BeginResolve(r, key, decision, reason)), ReadRequest(r));
    assert read.resolvers == w.resolvers[r := Resolver(key, decision, reason, Read(false))];
  }

  /** Every call that resolves the request has ended. */
  ghost predicate ResolversDone(w: World, key: Key) {
    forall r :: r in w.resolvers && w.resolvers[r].key == key ==> w.resolvers[r].phase.Replied? || w.resolvers[r].phase.Rejected?
  }

  /** Decisions on their way are on the requests of their resolvers, and registrations
      under the keys of their callers. */
  ghost predicate KeysMatch(w: World) {
    && (forall r :: r in w.resolvers && w.resolvers[r].phase.Stored? ==>
          w.resolvers[r].phase.response.requestId == w.resolvers[r].key.requestId)
    && (forall k :: k in w.waiters ==> w.waiters[k] in w.awaits && w.awaits[w.waiters[k]].key == k)
  }

  lemma DecisionNamesRequest(db: Db, id: nat, requestId: string, decision: Decision, reason: Option<string>, now: Timestamp)
    ensures
      var r := ResolvePermission(db, id, requestId, decision, reason, now);
      r.result.Ok? && AsDecision(r.result.value.event.payload).Some? ==>
        AsDecision(r.result.value.event.payload).value.requestId == requestId
  {
    hide SequenceTaken, NextSequence;
    if id < |db.entries| {
      FirstDecisionIsEarliest(db.entries[id].log, requestId);
    }
  }

  lemma StepKeepsKeys(w: World, step: Step)
    requires KeysMatch(w)
    ensures KeysMatch(Next(w, step))
  {
    hide Perform, ResolvePermission, Known, IsPending;
    if step.StoreDecision? && step.r in w.resolvers {
      var x := w.resolvers[step.r];
      DecisionNamesRequest(w.db, x.key.task, x.key.requestId, x.decision, x.reason, step.now);
    }
  }

  lemma {:induction false} RunsKeepKeys(steps: seq<Step>)
    ensures KeysMatch(After(EMPTY_WORLD, steps))
  {
    hide Next;
    if steps != [] {
      RunsKeepKeys(steps[..|steps| - 1]);
      StepKeepsKeys(After(EMPTY_WORLD, steps[..|steps| - 1]), steps[|steps| - 1]);
    }
  }

  /** The caller has no answer, and the request, though answered, has nobody at work on it. */
  ghost predicate GoesUnanswered(w: World, a: nat, key: Key) {
    && a in w.awaits && w.awaits[a].key == key && !w.awaits[a].phase.Got? && !w.awaits[a].phase.Checked?
    && Known(w.db, key) && !IsPending(w.db, key)
    && ResolversDone(w, key)
    && KeysMatch(w)
  }

  /** Store calls other than resolving, and resolvers of other requests only. */
  ghost predicate LeavesAlone(step: Step, key: Key) {
    match step
    case OtherCall(call, _) => !call.CallResolve?
    case BeginResolve(_, k, _, _) => k != key
    case _ => true
  }

  lemma ResolvingKeepsAnswers(db: Db, id: nat, requestId: string, decision: Decision, reason: Option<string>, now: Timestamp, key: Key)
    requires Known(db, key) && !IsPending(db, key)
    ensures
      var db' := ResolvePermission(db, id, requestId, decision, reason, now).db;
      Known(db', key) && !IsPending(db', key)
  {
    hide SequenceTaken, NextSequence;
  }

  lemma StepGoesUnanswered(w: World, step: Step, a: nat, key: Key)
    requires GoesUnanswered(w, a, key) && LeavesAlone(step, key)
    ensures GoesUnanswered(Next(w, step), a, key)
  {
    StepKeepsKeys(w, step);
    hide Perform, ResolvePermission;
    match step
    case OtherCall(call, now) => OtherCallsKeepRequests(w.db, call, now);
    case StoreDecision(r, now) =>
      if r in w.resolvers {
        var x := w.resolvers[r];
        ResolvingKeepsAnswers(w.db, x.key.task, x.key.requestId, x.decision, x.reason, now, key);
      }
    case _ =>
  }

  lemma {:induction false} ContinuationGoesUnanswered(w: World, steps: seq<Step>, a: nat, key: Key)
    requires GoesUnanswered(w, a, key)
    requires forall i :: 0 <= i < |steps| ==> LeavesAlone(steps[i], key)
    ensures GoesUnanswered(After(w, steps), a, key)
  {
    hide Next, Perform, GoesUnanswered;
    if steps != [] {
      var n := |steps| - 1;
      ContinuationGoesUnanswered(w, steps[..n], a, key);
      StepGoesUnanswered(After(w, steps[..n]), steps[n], a, key);
    }
  }

  /** Otherwise it waits for ever: once every resolver of the request has ended, no
      continuation of any run gives a stranded caller its answer, unless somebody
      resolves the request again. */
  lemma {:induction false} StrandedStaysUnanswered(before: seq<Step>, steps: seq<Step>, a: nat)
    requires Stranded(After(EMPTY_WORLD, before), a)
    requires ResolversDone(After(EMPTY_WORLD, before), After(EMPTY_WORLD, before).awaits[a].key)
    requires forall i :: 0 <= i < |steps| ==> LeavesAlone(steps[i], After(EMPTY_WORLD, before).awaits[a].key)
    ensures
      var w := After(After(EMPTY_WORLD, before), steps);
      a in w.awaits && !w.awaits[a].phase.Got?
  {
    hide After, LeavesAlone, KeysMatch, ResolversDone;
    var w := After(EMPTY_WORLD, before);
    RunsKeepKeys(before);
    ContinuationGoesUnanswered(w, steps, a, w.awaits[a].key);
  }
}
