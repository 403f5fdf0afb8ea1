/**
 Waiting for the answer to a permission request. An awaiter checks the stored
 request and then registers for a wake-up; a resolver reads the request, looks for a
 waiter, stores the decision and then notifies. Each of these is a step of its own,
 and any number of awaiters, resolvers and other store calls interleave.
 */
module PermissionWaiters {
  import opened Results
  import opened TaskModel
  import opened Store
  import opened StoreInvariants
  import opened TaskStores

  datatype Key = Key(task: nat, requestId: string)

  /** Where a call of `await_permission_decision` stands. An abandoned call has been
      dropped by its caller; its registration stays behind. */
  datatype AwaitPhase = Checked | Waiting | Abandoned | Got(response: PermissionResponse) | Failed

  datatype Await = Await(key: Key, phase: AwaitPhase)

  /** Where a call of `resolve_permission_response` stands. */
  datatype ResolvePhase =
    | Started
    | Read(pending: bool)
    | Cleared
    | Stored(response: PermissionResponse)
    | Replied(response: PermissionResponse)
    | Rejected

  datatype Resolver = Resolver(key: Key, decision: Decision, reason: Option<string>, phase: ResolvePhase)

  datatype World = World(db: Db, waiters: map<Key, nat>, awaits: map<nat, Await>, resolvers: map<nat, Resolver>)

  datatype Step =
    | OtherCall(call: Call, now: Timestamp)
    | BeginAwait(a: nat, key: Key)
    | Register(a: nat)
    | Abandon(a: nat)
    | BeginResolve(r: nat, key: Key, decision: Decision, reason: Option<string>)
    | ReadRequest(r: nat)
    | CheckWaiter(r: nat)
    | StoreDecision(r: nat, now: Timestamp)
    | Notify(r: nat)

  predicate Known(db: Db, key: Key) {
    key.task < |db.entries| && key.requestId in db.permissions && db.permissions[key.requestId].taskId == key.task
  }

  predicate IsPending(db: Db, key: Key) {
    Known(db, key) && db.permissions[key.requestId].status.Pending?
  }

  predicate IsAnswered(db: Db, key: Key, response: PermissionResponse) {
    && Known(db, key)
    && !db.permissions[key.requestId].status.Pending?
    && db.permissions[key.requestId].response == Some(response)
    && response.requestId == key.requestId
  }

  /** The request is answered, and the response is about it, though not always the one
      stored: a provider's own frame may have named the request before. */
  predicate IsDecided(db: Db, key: Key, response: PermissionResponse) {
    Known(db, key) && !IsPending(db, key) && response.requestId == key.requestId
  }

  // ---- Steps ------------------------------------------------------------

  /** The check that opens `await_permission_decision`. */
  function CheckRequest(db: Db, key: Key): AwaitPhase {
    if !Known(db, key) then Failed
    else if IsPending(db, key) then Checked
    else
      match db.permissions[key.requestId].response
      case Some(response) => Got(response)
      case None => Failed
  }

  /** A registration replaces an older one under the same key, whose caller then fails. */
  function Enter(w: World, a: nat): World
    requires a in w.awaits
  {
    var key := w.awaits[a].key;
    var awaits' :=
      if key in w.waiters && w.waiters[key] in w.awaits && w.awaits[w.waiters[key]].phase.Waiting?
      then w.awaits[w.waiters[key] := w.awaits[w.waiters[key]].(phase := Failed)]
      else w.awaits;
    w.(waiters := w.waiters[key := a], awaits := awaits'[a := Await(key, Waiting)])
  }

  /** Take the registered waiter out and hand it the decision; an abandoned one never sees it. */
  function Wake(w: World, key: Key, response: PermissionResponse): World {
    if key !in w.waiters then w
    else
      var a := w.waiters[key];
      w.(waiters := w.waiters - {key},
         awaits := if a in w.awaits && w.awaits[a].phase.Waiting?
                   then w.awaits[a := w.awaits[a].(phase := Got(response))]
                   else w.awaits)
  }

  function AtPhase(w: World, r: nat, phase: ResolvePhase): World
    requires r in w.resolvers
  {
    w.(resolvers := w.resolvers[r := w.resolvers[r].(phase := phase)])
  }

  function ResolveStep(w: World, r: nat, step: Step): World
    requires r in w.resolvers
  {
    var x := w.resolvers[r];
    match step
    case ReadRequest(_) =>
      if !x.phase.Started? then w
      else if !Known(w.db, x.key) then AtPhase(w, r, Rejected)
      else AtPhase(w, r, Read(IsPending(w.db, x.key)))
    case CheckWaiter(_) =>
      if !x.phase.Read? then w
      else if x.phase.pending && x.key !in w.waiters then AtPhase(w, r, Rejected)
      else AtPhase(w, r, Cleared)
    case StoreDecision(_, now) =>
      if !x.phase.Cleared? then w
      else
        var reply := ResolvePermission(w.db, x.key.task, x.key.requestId, x.decision, x.reason, now);
        if reply.result.Ok? && AsDecision(reply.result.value.event.payload).Some?
        then AtPhase(w.(db := reply.db), r, Stored(AsDecision(reply.result.value.event.payload).value))
        else AtPhase(w.(db := reply.db), r, Rejected)
    case Notify(_) =>
      if !x.phase.Stored? then w
      else AtPhase(Wake(w, Key(x.key.task, x.phase.response.requestId), x.phase.response), r, Replied(x.phase.response))
    case _ => w
  }

  function Next(w: World, step: Step): World {
    match step
    case OtherCall(call, now) => w.(db := Perform(w.db, call, now))
    case BeginAwait(a, key) =>
      if a in w.awaits then w else w.(awaits := w.awaits[a := Await(key, CheckRequest(w.db, key))])
    case Register(a) => if a in w.awaits && w.awaits[a].phase.Checked? then Enter(w, a) else w
    case Abandon(a) =>
      if a in w.awaits && w.awaits[a].phase.Waiting? then w.(awaits := w.awaits[a := w.awaits[a].(phase := Abandoned)]) else w
    case BeginResolve(r, key, decision, reason) =>
      if r in w.resolvers then w else w.(resolvers := w.resolvers[r := Resolver(key, decision, reason, Started)])
    case _ => if step.r in w.resolvers then ResolveStep(w, step.r, step) else w
  }

  function After(w: World, steps: seq<Step>): World {
    if steps == [] then w else Next(After(w, steps[..|steps| - 1]), steps[|steps| - 1])
  }

  const EMPTY_WORLD := World(EMPTY_DB, map[], map[], map[])

  /** Nobody else is waiting for this request, or about to. */
  ghost predicate Alone(w: World, key: Key) {
    key !in w.waiters && forall a :: a in w.awaits && w.awaits[a].phase.Checked? ==> w.awaits[a].key != key
  }

  /** Decisions are stored by resolvers only, appends are what executions append, and no
      two awaits of one request overlap. */
  ghost predicate Admissible(w: World, step: Step) {
    match step
    case OtherCall(call, _) => !call.CallResolve? && (call.CallAppend? ==> IsRuntimeEvent(call.eventType, call.payload))
    case BeginAwait(_, key) => Alone(w, key)
    case _ => true
  }

  ghost predicate Orderly(w: World, steps: seq<Step>) {
    steps != [] ==>
      Orderly(w, steps[..|steps| - 1]) && Admissible(After(w, steps[..|steps| - 1]), steps[|steps| - 1])
  }

  // ---- What every step keeps --------------------------------------------

  ghost predicate AwaitOk(w: World, a: nat)
    requires a in w.awaits
  {
    var key := w.awaits[a].key;
    match w.awaits[a].phase
    case Checked => IsPending(w.db, key) && key !in w.waiters
    case Waiting => key in w.waiters && w.waiters[key] == a
    case Got(response) => IsDecided(w.db, key, response)
    case _ => true
  }

  ghost predicate ResolverOk(w: World, x: Resolver) {
    match x.phase
    case Read(pending) => Known(w.db, x.key) && (!pending ==> !IsPending(w.db, x.key))
    case Cleared => Known(w.db, x.key) && (IsPending(w.db, x.key) ==> x.key in w.waiters)
    case Stored(response) => IsDecided(w.db, x.key, response)
    case Replied(response) => IsDecided(w.db, x.key, response)
    case _ => true
  }

  /** A resolver has stored the answer and has yet to notify. */
  ghost predicate NotifierComing(w: World, key: Key) {
    exists r :: r in w.resolvers && w.resolvers[r].key == key && w.resolvers[r].phase.Stored?
  }

  ghost predicate WaiterOk(w: World, key: Key)
    requires key in w.waiters
  {
    && w.waiters[key] in w.awaits
    && w.awaits[w.waiters[key]].key == key
    && (w.awaits[w.waiters[key]].phase.Waiting? || w.awaits[w.waiters[key]].phase.Abandoned?)
    && (IsPending(w.db, key) || NotifierComing(w, key))
  }

  ghost predicate AwaitsOk(w: World) {
    forall a :: a in w.awaits ==> AwaitOk(w, a)
  }

  ghost predicate ResolversOk(w: World) {
    forall r :: r in w.resolvers ==> ResolverOk(w, w.resolvers[r])
  }

  ghost predicate WaitersOk(w: World) {
    forall key :: key in w.waiters ==> WaiterOk(w, key)
  }

  ghost predicate Unshared(w: World) {
    forall a, b ::
      (a in w.awaits && b in w.awaits && w.awaits[a] == w.awaits[b] && w.awaits[a].phase.Checked?) ==> a == b
  }

  ghost predicate WorldOk(w: World) {
    StoreOk(w.db) && AwaitsOk(w) && ResolversOk(w) && WaitersOk(w) && Unshared(w)
  }

  // ---- Other store calls ------------------------------------------------

  ghost predicate KeepsRequests(db: Db, db': Db) {
    && |db.entries| <= |db'.entries|
    && forall r :: r in db.permissions ==> r in db'.permissions && db'.permissions[r] == db.permissions[r]
  }

  lemma OtherCallsKeepRequests(db: Db, call: Call, now: Timestamp)
    requires !call.CallResolve?
    ensures KeepsRequests(db, Perform(db, call, now))
  {
  }

  lemma OtherCallKeeps(w: World, call: Call, now: Timestamp)
    requires WorldOk(w)
    requires !call.CallResolve? && (call.CallAppend? ==> IsRuntimeEvent(call.eventType, call.payload))
    ensures WorldOk(Next(w, OtherCall(call, now)))
  {
    hide StoreOk, Perform;
    PerformKeeps(w.db, call, now);
    OtherCallsKeepRequests(w.db, call, now);
    var w' := Next(w, OtherCall(call, now));
    forall key | key in w'.waiters
      ensures WaiterOk(w', key)
    {
      assert WaiterOk(w, key);
      NotifiersStay(w, w', key);
    }
  }

  lemma NotifiersStay(w: World, w': World, key: Key)
    requires forall r :: r in w.resolvers && w.resolvers[r].key == key && w.resolvers[r].phase.Stored? ==>
      r in w'.resolvers && w'.resolvers[r] == w.resolvers[r]
    ensures NotifierComing(w, key) ==> NotifierComing(w', key)
  {
    if NotifierComing(w, key) {
      var r :| r in w.resolvers && w.resolvers[r].key == key && w.resolvers[r].phase.Stored?;
      assert w'.resolvers[r].phase.Stored?;
    }
  }

  // ---- Awaiters ---------------------------------------------------------

  lemma BeginAwaitKeeps(w: World, a: nat, key: Key)
    requires WorldOk(w) && Alone(w, key)
    ensures WorldOk(Next(w, BeginAwait(a, key)))
  {
    hide StoreOk, Perform, ResolvePermission;
    OkIsRecorded(w.db, key.task, key.requestId);
    var w' := Next(w, BeginAwait(a, key));
    forall k | k in w'.waiters
      ensures WaiterOk(w', k)
    {
      assert WaiterOk(w, k);
      NotifiersStay(w, w', k);
    }
  }

  lemma RegisterKeeps(w: World, a: nat)
    requires WorldOk(w)
    ensures WorldOk(Next(w, Register(a)))
  {
    hide StoreOk, Perform, ResolvePermission;
    var w' := Next(w, Register(a));
    if a in w.awaits && w.awaits[a].phase.Checked? {
      assert AwaitOk(w, a);
      forall k | k in w'.waiters
        ensures WaiterOk(w', k)
      {
        if k != w.awaits[a].key {
          assert WaiterOk(w, k);
          NotifiersStay(w, w', k);
        }
      }
    }
  }

  lemma AbandonKeeps(w: World, a: nat)
    requires WorldOk(w)
    ensures WorldOk(Next(w, Abandon(a)))
  {
    hide StoreOk, Perform, ResolvePermission;
    var w' := Next(w, Abandon(a));
    forall k | k in w'.waiters
      ensures WaiterOk(w', k)
    {
      assert WaiterOk(w, k);
      NotifiersStay(w, w', k);
    }
  }

  // ---- Resolvers --------------------------------------------------------

  /** A resolver that moves on without touching the database or the waiters, and is not owed to anybody. */
  lemma PhaseChangeKeeps(w: World, w': World, r: nat)
    requires WorldOk(w)
    requires w' == w.(resolvers := w'.resolvers)
    requires r in w'.resolvers && w'.resolvers == w.resolvers[r := w'.resolvers[r]]
    requires r in w.resolvers ==> !w.resolvers[r].phase.Stored?
    requires ResolverOk(w, w'.resolvers[r])
    ensures WorldOk(w')
  {
    hide StoreOk;
    forall k | k in w'.waiters
      ensures WaiterOk(w', k)
    {
      assert WaiterOk(w, k);
      NotifiersStay(w, w', k);
    }
    forall a | a in w'.awaits
      ensures AwaitOk(w', a)
    {
      assert AwaitOk(w, a);
    }
    forall q | q in w'.resolvers
      ensures ResolverOk(w', w'.resolvers[q])
    {
      assert q != r ==> ResolverOk(w, w.resolvers[q]);
    }
  }

  lemma ReadRequestKeeps(w: World, r: nat)
    requires WorldOk(w) && r in w.resolvers
    ensures WorldOk(Next(w, ReadRequest(r)))
  {
    hide StoreOk, AwaitsOk, WaitersOk, Unshared;
    if w.resolvers[r].phase.Started? {
      PhaseChangeKeeps(w, Next(w, ReadRequest(r)), r);
    }
  }

  lemma CheckWaiterKeeps(w: World, r: nat)
    requires WorldOk(w) && r in w.resolvers
    ensures WorldOk(Next(w, CheckWaiter(r)))
  {
    hide StoreOk, AwaitsOk, WaitersOk, Unshared;
    if w.resolvers[r].phase.Read? {
      assert ResolverOk(w, w.resolvers[r]);
      PhaseChangeKeeps(w, Next(w, CheckWaiter(r)), r);
    }
  }

  /** The request under `key` is answered and nothing else about requests changes. */
  ghost predicate Answers(db: Db, db': Db, key: Key, response: PermissionResponse) {
    && IsPending(db, key)
    && IsAnswered(db', key, response)
    && |db'.entries| == |db.entries|
    && db'.permissions.Keys == db.permissions.Keys
    && forall r :: r in db.permissions ==>
         && db'.permissions[r].taskId == db.permissions[r].taskId
         && (r != key.requestId ==> db'.permissions[r] == db.permissions[r])
  }

  /** Storing a decision: the pending request is answered, or the stored answer is
      found again, or nothing happens. */
  lemma StoreDecisionEffect(w: World, r: nat, now: Timestamp)
    requires StoreOk(w.db) && r in w.resolvers && w.resolvers[r].phase.Cleared?
    ensures
      var x, w' := w.resolvers[r], Next(w, StoreDecision(r, now));
      && StoreOk(w'.db)
      && (w' == AtPhase(w, r, Rejected)
          || exists response ::
               && w' == AtPhase(w.(db := w'.db), r, Stored(response))
               && (Answers(w.db, w'.db, x.key, response) || (w'.db == w.db && IsDecided(w.db, x.key, response))))
  {
    hide StoreOk, ResolvePermission, Perform, Answers, IsDecided;
    var x, w' := w.resolvers[r], Next(w, StoreDecision(r, now));
    ReplyEffect(w.db, x.key, x.decision, x.reason, now);
    var reply := ResolvePermission(w.db, x.key.task, x.key.requestId, x.decision, x.reason, now);
    if reply.result.Ok? && AsDecision(reply.result.value.event.payload).Some? {
      var response := AsDecision(reply.result.value.event.payload).value;
      assert w' == AtPhase(w.(db := w'.db), r, Stored(response));
    }
  }

  lemma ReplyEffect(db: Db, key: Key, decision: Decision, reason: Option<string>, now: Timestamp)
    requires StoreOk(db)
    ensures
      var reply := ResolvePermission(db, key.task, key.requestId, decision, reason, now);
      && StoreOk(reply.db)
      && (if reply.result.Ok? && AsDecision(reply.result.value.event.payload).Some? then
            var response := AsDecision(reply.result.value.event.payload).value;
            Answers(db, reply.db, key, response) || (reply.db == db && IsDecided(db, key, response))
          else reply.db == db)
  {
    hide StoreOk, ResolvePermission, RecordOk;
    OkIsNumbered(db, key.task);
    OkIsRecorded(db, key.task, key.requestId);
    ResolvePermissionEffect(db, key.task, key.requestId, decision, reason, now);
    ResolvePermissionKeeps(db, key.task, key.requestId, decision, reason, now);
  }

  lemma RecordedAnswer(db: Db, key: Key)
    requires StoreOk(db) && Known(db, key) && !IsPending(db, key)
    ensures db.permissions[key.requestId].response.Some?
    ensures IsAnswered(db, key, db.permissions[key.requestId].response.value)
  {
    OkIsRecorded(db, key.task, key.requestId);
  }

  lemma AnswerKeepsAwaits(w: World, w': World, key: Key, response: PermissionResponse)
    requires AwaitsOk(w) && key in w.waiters && Answers(w.db, w'.db, key, response)
    requires w'.waiters == w.waiters && w'.awaits == w.awaits
    ensures AwaitsOk(w')
  {
    forall a | a in w'.awaits
      ensures AwaitOk(w', a)
    {
      assert AwaitOk(w, a);
    }
  }

  lemma AnswerKeepsResolvers(w: World, w': World, key: Key, response: PermissionResponse, r: nat)
    requires ResolversOk(w) && Answers(w.db, w'.db, key, response)
    requires r in w.resolvers && w.resolvers[r].key == key
    requires w'.waiters == w.waiters && w'.resolvers == w.resolvers[r := w.resolvers[r].(phase := Stored(response))]
    ensures ResolversOk(w')
  {
    forall q | q in w'.resolvers
      ensures ResolverOk(w', w'.resolvers[q])
    {
      assert q != r ==> ResolverOk(w, w.resolvers[q]);
    }
  }

  lemma AnswerKeepsWaiters(w: World, w': World, key: Key, response: PermissionResponse, r: nat)
    requires WaitersOk(w) && Answers(w.db, w'.db, key, response)
    requires r in w.resolvers && w.resolvers[r].key == key && !w.resolvers[r].phase.Stored?
    requires w'.waiters == w.waiters && w'.awaits == w.awaits
    requires w'.resolvers == w.resolvers[r := w.resolvers[r].(phase := Stored(response))]
    ensures WaitersOk(w')
  {
    forall k | k in w'.waiters
      ensures WaiterOk(w', k)
    {
      assert WaiterOk(w, k);
      if k == key {
        assert w'.resolvers[r].key == key && w'.resolvers[r].phase.Stored?;
      } else {
        NotifiersStay(w, w', k);
      }
    }
  }

  lemma AnswerKeepsWorld(w: World, r: nat, db': Db, response: PermissionResponse)
    requires WorldOk(w) && r in w.resolvers && w.resolvers[r].phase.Cleared?
    requires StoreOk(db') && Answers(w.db, db', w.resolvers[r].key, response)
    ensures WorldOk(AtPhase(w.(db := db'), r, Stored(response)))
  {
    hide StoreOk, AwaitsOk, WaitersOk;
    var key, w' := w.resolvers[r].key, AtPhase(w.(db := db'), r, Stored(response));
    assert ResolverOk(w, w.resolvers[r]);
    AnswerKeepsAwaits(w, w', key, response);
    AnswerKeepsResolvers(w, w', key, response, r);
    AnswerKeepsWaiters(w, w', key, response, r);
  }

  lemma StoreDecisionKeeps(w: World, r: nat, now: Timestamp)
    requires WorldOk(w) && r in w.resolvers
    ensures WorldOk(Next(w, StoreDecision(r, now)))
  {
    hide StoreOk, AwaitsOk, WaitersOk, Unshared, Answers, IsDecided;
    var x, w' := w.resolvers[r], Next(w, StoreDecision(r, now));
    if x.phase.Cleared? {
      StoreDecisionEffect(w, r, now);
      if w' == AtPhase(w, r, Rejected) {
        PhaseChangeKeeps(w, w', r);
      } else {
        var response :|
          && w' == AtPhase(w.(db := w'.db), r, Stored(response))
          && (Answers(w.db, w'.db, x.key, response) || (w'.db == w.db && IsDecided(w.db, x.key, response)));
        if Answers(w.db, w'.db, x.key, response) {
          AnswerKeepsWorld(w, r, w'.db, response);
        } else {
          PhaseChangeKeeps(w, w', r);
        }
      }
    }
  }

  lemma NotifyKeeps(w: World, r: nat)
    requires WorldOk(w) && r in w.resolvers
    ensures WorldOk(Next(w, Notify(r)))
  {
    hide StoreOk, Perform, ResolvePermission;
    var x, w' := w.resolvers[r], Next(w, Notify(r));
    if x.phase.Stored? {
      assert ResolverOk(w, x);
      var key := x.key;
      assert Key(key.task, x.phase.response.requestId) == key;
      assert key in w.waiters ==> WaiterOk(w, key);
      forall a | a in w'.awaits
        ensures AwaitOk(w', a)
      {
        assert AwaitOk(w, a);
      }
      forall k | k in w'.waiters
        ensures WaiterOk(w', k)
      {
        assert WaiterOk(w, k);
        NotifiersStay(w, w', k);
      }
      forall q | q in w'.resolvers
        ensures ResolverOk(w', w'.resolvers[q])
      {
        assert q != r ==> ResolverOk(w, w.resolvers[q]);
      }
    }
  }

  lemma StepKeeps(w: World, step: Step)
    requires WorldOk(w) && Admissible(w, step)
    ensures WorldOk(Next(w, step))
  {
    hide StoreOk, AwaitsOk, WaitersOk, ResolversOk, Unshared;
    match step
    case OtherCall(call, now) => OtherCallKeeps(w, call, now);
    case BeginAwait(a, key) => BeginAwaitKeeps(w, a, key);
    case Register(a) => RegisterKeeps(w, a);
    case Abandon(a) => AbandonKeeps(w, a);
    case BeginResolve(r, key, decision, reason) =>
      if r !in w.resolvers {
        PhaseChangeKeeps(w, Next(w, step), r);
      }
    case ReadRequest(r) => if r in w.resolvers { ReadRequestKeeps(w, r); }
    case CheckWaiter(r) => if r in w.resolvers { CheckWaiterKeeps(w, r); }
    case StoreDecision(r, now) => if r in w.resolvers { StoreDecisionKeeps(w, r, now); }
    case Notify(r) => if r in w.resolvers { NotifyKeeps(w, r); }
  }

  // ---- Every run --------------------------------------------------------

  lemma {:induction false} RunKeeps(steps: seq<Step>)
    requires Orderly(EMPTY_WORLD, steps)
    ensures WorldOk(After(EMPTY_WORLD, steps))
  {
    hide WorldOk;
    if steps == [] {
      EmptyIsOk();
      EmptyWorldIsOk();
    } else {
      var init := steps[..|steps| - 1];
      RunKeeps(init);
      StepKeeps(After(EMPTY_WORLD, init), steps[|steps| - 1]);
    }
  }

  lemma EmptyWorldIsOk()
    ensures WorldOk(EMPTY_WORLD)
  {
    EmptyIsOk();
  }

  /** No wake-up is lost: in every reachable state a waiting caller is registered, and a
      registered request is still pending or a resolver that stored the answer has yet
      to notify. */
  lemma {:induction false} NoWakeUpIsLost(steps: seq<Step>)
    requires Orderly(EMPTY_WORLD, steps)
    ensures
      var w := After(EMPTY_WORLD, steps);
      && (forall a :: a in w.awaits && w.awaits[a].phase.Waiting? ==>
            w.awaits[a].key in w.waiters && w.waiters[w.awaits[a].key] == a)
      && (forall key :: key in w.waiters ==> IsPending(w.db, key) || NotifierComing(w, key))
  {
    RunKeeps(steps);
    var w := After(EMPTY_WORLD, steps);
    assert forall a :: a in w.awaits ==> AwaitOk(w, a);
    assert forall key :: key in w.waiters ==> WaiterOk(w, key);
  }

  /** When every resolver is done, whoever still waits does so for an unanswered request. */
  lemma {:induction false} QuietWaitersAreUnanswered(steps: seq<Step>, a: nat)
    requires Orderly(EMPTY_WORLD, steps)
    requires
      var w := After(EMPTY_WORLD, steps);
      && a in w.awaits && w.awaits[a].phase.Waiting?
      && forall r :: r in w.resolvers ==> !w.resolvers[r].phase.Stored?
    ensures var w := After(EMPTY_WORLD, steps); IsPending(w.db, w.awaits[a].key)
  {
    NoWakeUpIsLost(steps);
  }

  /** A decision is only ever stored for a request somebody is registered for. */
  lemma {:induction false} OnlyAwaitedRequestsAreDecided(steps: seq<Step>, r: nat, now: Timestamp)
    requires Orderly(EMPTY_WORLD, steps)
    requires r in After(EMPTY_WORLD, steps).resolvers
    ensures
      var w, key := After(EMPTY_WORLD, steps), After(EMPTY_WORLD, steps).resolvers[r].key;
      IsPending(w.db, key) && !IsPending(Next(w, StoreDecision(r, now)).db, key) ==> key in w.waiters
  {
    hide WorldOk, Next, IsPending;
    RunKeeps(steps);
    DecidedWasAwaited(After(EMPTY_WORLD, steps), r, now);
  }

  lemma DecidedWasAwaited(w: World, r: nat, now: Timestamp)
    requires WorldOk(w) && r in w.resolvers
    ensures IsPending(w.db, w.resolvers[r].key) && w.resolvers[r].phase.Cleared? ==> w.resolvers[r].key in w.waiters
    ensures !w.resolvers[r].phase.Cleared? ==> Next(w, StoreDecision(r, now)) == w
  {
    hide StoreOk, AwaitsOk, WaitersOk, Unshared, Perform, ResolvePermission;
    assert ResolverOk(w, w.resolvers[r]);
  }

  /** The notification delivers: from any reachable state, the notify step of a resolver
      that stored an answer wakes whoever waits for it, with that answer. */
  lemma {:induction false} NotifyWakes(steps: seq<Step>, r: nat, a: nat)
    requires Orderly(EMPTY_WORLD, steps)
    requires
      var w := After(EMPTY_WORLD, steps);
      && r in w.resolvers && w.resolvers[r].phase.Stored?
      && a in w.awaits && w.awaits[a] == Await(w.resolvers[r].key, Waiting)
    ensures
      var w := After(EMPTY_WORLD, steps);
      && a in Next(w, Notify(r)).awaits
      && Next(w, Notify(r)).awaits[a].phase == Got(w.resolvers[r].phase.response)
      && w.resolvers[r].key !in Next(w, Notify(r)).waiters
  {
    hide WorldOk, Next;
    RunKeeps(steps);
    OkNotifyWakes(After(EMPTY_WORLD, steps), r, a);
  }

  lemma OkNotifyWakes(w: World, r: nat, a: nat)
    requires WorldOk(w)
    requires r in w.resolvers && w.resolvers[r].phase.Stored?
    requires a in w.awaits && w.awaits[a] == Await(w.resolvers[r].key, Waiting)
    ensures a in Next(w, Notify(r)).awaits && Next(w, Notify(r)).awaits[a].phase == Got(w.resolvers[r].phase.response)
    ensures w.resolvers[r].key !in Next(w, Notify(r)).waiters
  {
    hide StoreOk, WaitersOk, Unshared;
    assert AwaitOk(w, a) && ResolverOk(w, w.resolvers[r]);
  }

  /** One await per request is enough for the no-overlap condition. */
  lemma {:induction false} FreshRequestIsAlone(steps: seq<Step>, key: Key)
    requires Orderly(EMPTY_WORLD, steps)
    requires forall a :: a in After(EMPTY_WORLD, steps).awaits ==> After(EMPTY_WORLD, steps).awaits[a].key != key
    ensures Alone(After(EMPTY_WORLD, steps), key)
  {
    RunKeeps(steps);
    var w := After(EMPTY_WORLD, steps);
    assert key in w.waiters ==> WaiterOk(w, key);
  }

  // ---- The bus and the service as the program runs them -----------------

  /** The waiters map of `TaskEventBus`, with the receiving ends its waiters hold. */
  class TaskEventBus {
    var waiters: map<Key, nat>
    var awaits: map<nat, Await>
    var published: seq<Event>

    ghost function WithStore(db: Db): World
      reads this
    {
      World(db, waiters, awaits, map[])
    }

    constructor ()
      ensures waiters == map[] && awaits == map[] && published == []
    {
      waiters, awaits, published := map[], map[], [];
    }

    method Publish(event: Event)
      modifies this`published
      ensures published == old(published) + [event]
    {
      published := published + [event];
    }

    method HasWaiter(key: Key) returns (found: bool)
      ensures found <==> key in waiters
    {
      found := key in waiters;
    }

    method RegisterWaiter(a: nat)
      requires a in awaits && awaits[a].phase.Checked?
      modifies this`waiters, this`awaits
      ensures forall db :: WithStore(db) == Next(old(WithStore(db)), Register(a))
    {
      var key := awaits[a].key;
      if key in waiters && waiters[key] in awaits && awaits[waiters[key]].phase.Waiting? {
        awaits := awaits[waiters[key] := awaits[waiters[key]].(phase := Failed)];
      }
      waiters := waiters[key := a];
      awaits := awaits[a := Await(key, Waiting)];
    }

    method NotifyPermissionResolution(task: nat, response: PermissionResponse)
      modifies this`waiters, this`awaits
      ensures forall db :: WithStore(db) == Wake(old(WithStore(db)), Key(task, response.requestId), response)
    {
      var key := Key(task, response.requestId);
      if key in waiters {
        var a := waiters[key];
        waiters := waiters - {key};
        if a in awaits && awaits[a].phase.Waiting? {
          awaits := awaits[a := awaits[a].(phase := Got(response))];
        }
      }
    }
  }

  datatype ServiceError = NotSupported | StorePayload | FromStore(error: StoreError)

  /** A resolver left to itself. */
  function ResolveAlone(w: World, key: Key, decision: Decision, reason: Option<string>, now: Timestamp): World {
    Next(Next(Next(Next(Next(w, BeginResolve(0, key, decision, reason)), ReadRequest(0)), CheckWaiter(0)), StoreDecision(0, now)), Notify(0))
  }

  lemma ResolveAloneIs(w: World, key: Key, decision: Decision, reason: Option<string>, now: Timestamp)
    requires w.resolvers == map[]
    ensures
      var w' := ResolveAlone(w, key, decision, reason, now);
      var reply := ResolvePermission(w.db, key.task, key.requestId, decision, reason, now);
      && w'.resolvers.Keys == {0}
      && (if !Known(w.db, key) || (IsPending(w.db, key) && key !in w.waiters) then
            w'.(resolvers := map[]) == w && w'.resolvers[0].phase.Rejected?
          else if reply.result.Err? || AsDecision(reply.result.value.event.payload).None? then
            w'.(resolvers := map[]) == w.(db := reply.db) && w'.resolvers[0].phase.Rejected?
          else
            var response := AsDecision(reply.result.value.event.payload).value;
            && w'.(resolvers := map[]) == Wake(w.(db := reply.db), Key(key.task, response.requestId), response)
            && w'.resolvers[0].phase == Replied(response))
  {
    hide ResolvePermission, Perform, Known, IsPending, Wake;
    var x := Resolver(key, decision, reason, Started);
    var read := Next(Next(w, BeginResolve(0, key, decision, reason)), ReadRequest(0));
    assert read.(resolvers := map[]) == w;
    if Known(w.db, key) && !(IsPending(w.db, key) && key !in w.waiters) {
      var cleared := Next(read, CheckWaiter(0));
      assert cleared == w.(resolvers := map[0 := x.(phase := Cleared)]);
      LoneDecision(w, cleared, x.(phase := Cleared), now);
    }
  }

  lemma LoneDecision(w: World, cleared: World, x: Resolver, now: Timestamp)
    requires w.resolvers == map[] && cleared == w.(resolvers := map[0 := x]) && x.phase.Cleared?
    ensures
      var w' := Next(Next(cleared, StoreDecision(0, now)), Notify(0));
      var reply := ResolvePermission(w.db, x.key.task, x.key.requestId, x.decision, x.reason, now);
      && w'.resolvers.Keys == {0}
      && (if reply.result.Err? || AsDecision(reply.result.value.event.payload).None? then
            w'.(resolvers := map[]) == w.(db := reply.db) && w'.resolvers[0].phase.Rejected?
          else
            var response := AsDecision(reply.result.value.event.payload).value;
            && w'.(resolvers := map[]) == Wake(w.(db := reply.db), Key(x.key.task, response.requestId), response)
            && w'.resolvers[0].phase == Replied(response))
  {
    hide ResolvePermission, Perform, Known, IsPending;
  }

  class TaskEventService {
    const store: TaskStore
    const bus: TaskEventBus

    constructor (store: TaskStore, bus: TaskEventBus)
      ensures this.store == store && this.bus == bus
    {
      this.store, this.bus := store, bus;
    }

    /** Checks the request and registers, up to the point where the caller is suspended. */
    method AwaitPermissionDecision(a: nat, key: Key)
      requires a !in bus.awaits
      modifies bus`waiters, bus`awaits
      ensures
        var db := store.Contents();
        bus.WithStore(db) == Next(Next(old(bus.WithStore(db)), BeginAwait(a, key)), Register(a))
    {
      if key.task >= |store.entries| || key.requestId !in store.permissions || store.permissions[key.requestId].taskId != key.task {
        bus.awaits := bus.awaits[a := Await(key, Failed)];
        return;
      }
      var request := store.permissions[key.requestId];
      if !request.status.Pending? {
        bus.awaits := bus.awaits[a := Await(key, if request.response.Some? then Got(request.response.value) else Failed)];
        return;
      }
      bus.awaits := bus.awaits[a := Await(key, Checked)];
      bus.RegisterWaiter(a);
    }

    /** Answers a request by the resolver's steps, in that order, and sends the decision
        event on the channel a second time when it is new. */
    method ResolvePermissionResponse(key: Key, decision: Decision, reason: Option<string>, now: Timestamp)
      returns (r: Result<Resolution, ServiceError>)
      modifies store, bus
      ensures
        var w' := ResolveAlone(old(bus.WithStore(store.Contents())), key, decision, reason, now);
        && bus.WithStore(store.Contents()) == w'.(resolvers := map[])
        && (r.Ok? <==> 0 in w'.resolvers && w'.resolvers[0].phase.Replied?)
        && (r.Ok? ==> AsDecision(r.value.event.payload) == Some(w'.resolvers[0].phase.response))
      ensures
        var db := old(store.Contents());
        var reply := ResolvePermission(db, key.task, key.requestId, decision, reason, now);
        r == if !Known(db, key) then Err(FromStore(if key.task < |db.entries| then PermissionRequestNotFound else TaskNotFound))
             else if IsPending(db, key) && key !in old(bus.waiters) then Err(NotSupported)
             else if reply.result.Err? then Err(FromStore(reply.result.error))
             else if AsDecision(reply.result.value.event.payload).None? then Err(StorePayload)
             else Ok(reply.result.value)
      ensures bus.published == old(bus.published) + (if r.Ok? && !r.value.duplicated then [r.value.event] else [])
    {
      hide ResolveAlone, ResolvePermission, Wake;
      ghost var w := bus.WithStore(store.Contents());
      ResolveAloneIs(w, key, decision, reason, now);
      if key.task >= |store.entries| {
        return Err(FromStore(TaskNotFound));
      }
      if key.requestId !in store.permissions || store.permissions[key.requestId].taskId != key.task {
        return Err(FromStore(PermissionRequestNotFound));
      }
      if store.permissions[key.requestId].status.Pending? {
        var found := bus.HasWaiter(key);
        if !found {
          return Err(NotSupported);
        }
      }
      var resolution := store.ResolvePermissionRequest(key.task, key.requestId, decision, reason, now);
      if resolution.Err? {
        return Err(FromStore(resolution.error));
      }
      var event := resolution.value.event;
      var decided := AsDecision(event.payload);
      if decided.None? {
        return Err(StorePayload);
      }
      if !resolution.value.duplicated {
        bus.Publish(event);
      }
      bus.NotifyPermissionResolution(key.task, decided.value);
      r := Ok(resolution.value);
    }
  }
}
