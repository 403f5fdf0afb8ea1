/**
 Streams whose task's events reach the channel in any order. A writer publishes after its
 commit, so two writers may publish in the order they like; what the tail then forwards.
 */
module OutOfOrder {
  import opened Lifecycle
  import opened Store
  import opened StoreInvariants
  import opened EventStreams

  /** A step of the stream's world, or the publication of any committed event. */
  datatype AnyStep = Ordered(step: Step) | PublishAny(t: nat, k: nat)

  function NextAny(w: World, step: AnyStep): World
    requires w.stream.task < |w.logs| == |w.published|
  {
    match step
    case Ordered(step) => Next(w, step)
    case PublishAny(t, k) => if t < |w.logs| && k < |w.logs[t]| then w.(bus := w.bus + [w.logs[t][k]]) else w
  }

  ghost predicate IsCommitted(w: World, e: Event) {
    e.taskId < |w.logs| && 1 <= e.sequence <= |w.logs[e.taskId]| && e == w.logs[e.taskId][e.sequence - 1]
  }

  /** The channel carries committed events, in whatever order. */
  ghost predicate WorldIsSane(w: World) {
    && w.stream.task < |w.logs| == |w.published|
    && (forall t :: 0 <= t < |w.logs| ==> LogOk(w.logs[t], t) && w.published[t] <= |w.logs[t]|)
    && (forall i :: 0 <= i < |w.bus| ==> IsCommitted(w, w.bus[i]))
  }

  predicate BeforeReplay(p: Phase) {
    p.Opening? || p.StatusRead? || p.Subscribed?
  }

  /** What has been delivered is the log between the cursor and the high-water mark. */
  ghost predicate IsFaithful(w: World)
    requires w.stream.task < |w.logs|
  {
    && InStep(w.stream, w.logs[w.stream.task])
    && (BeforeReplay(w.stream.phase) ==> w.stream.highest == w.stream.cursor)
  }

  /** The tail takes an event of its task that is not the next one behind its mark. */
  ghost predicate IsAhead(w: World, step: AnyStep) {
    var s := w.stream;
    && step == Ordered(Receive)
    && s.phase == Tailing([]) && s.position < |w.bus|
    && w.bus[s.position].taskId == s.task
    && w.bus[s.position].sequence > s.highest + 1
  }

  // ---- One step ---------------------------------------------------------

  lemma CommitKeepsSane(w: World, t: nat, eventType: EventType, payload: Payload, createdAt: int)
    requires WorldIsSane(w)
    ensures WorldIsSane(Next(w, Commit(t, eventType, payload, createdAt)))
  {
    hide HasEnded;
    if t < |w.logs| && (StatusOf(eventType).Some? ==> !HasEnded(w.logs[t])) {
      AppendKeepsLogOk(w.logs[t], t, eventType, payload, createdAt);
      var w' := Next(w, Commit(t, eventType, payload, createdAt));
      hide LogOk;
      forall i | 0 <= i < |w'.bus|
        ensures IsCommitted(w', w'.bus[i])
      {
        assert IsCommitted(w, w.bus[i]);
      }
    }
  }

  lemma SendKeepsSane(w: World, w': World, e: Event)
    requires WorldIsSane(w) && IsCommitted(w, e)
    requires w'.logs == w.logs && w'.stream == w.stream && w'.bus == w.bus + [e]
    requires |w'.published| == |w.published| && forall t :: 0 <= t < |w.logs| ==> w'.published[t] <= |w.logs[t]|
    ensures WorldIsSane(w')
  {
    hide LogOk;
    forall i | 0 <= i < |w'.bus|
      ensures IsCommitted(w', w'.bus[i])
    {
      assert i < |w.bus| ==> IsCommitted(w, w.bus[i]);
    }
  }

  lemma StepKeepsSane(w: World, step: AnyStep)
    requires WorldIsSane(w)
    ensures WorldIsSane(NextAny(w, step)) && NextAny(w, step).stream.task == w.stream.task
  {
    match step
    case PublishAny(t, k) =>
      if t < |w.logs| && k < |w.logs[t]| {
        assert LogOk(w.logs[t], t);
        SendKeepsSane(w, NextAny(w, step), w.logs[t][k]);
      }
    case Ordered(Commit(t, eventType, payload, createdAt)) =>
      CommitKeepsSane(w, t, eventType, payload, createdAt);
    case Ordered(Publish(t)) =>
      if t < |w.logs| && w.published[t] < |w.logs[t]| {
        assert LogOk(w.logs[t], t);
        SendKeepsSane(w, NextAny(w, step), w.logs[t][w.published[t]]);
      }
    case Ordered(Republish(t, k)) =>
      if t < |w.logs| && k < w.published[t] && k < |w.logs[t]| {
        assert LogOk(w.logs[t], t);
        SendKeepsSane(w, NextAny(w, step), w.logs[t][k]);
      }
    case Ordered(_) =>
      hide LogOk, HasEnded, EventsAfter;
      forall i | 0 <= i < |w.bus|
        ensures IsCommitted(NextAny(w, step), w.bus[i])
      {
        assert IsCommitted(w, w.bus[i]);
      }
  }

  lemma GrowthKeepsFaithful(w: World, w': World)
    requires WorldIsSane(w) && WorldIsSane(w') && IsFaithful(w) && w'.stream == w.stream
    requires w.logs[w.stream.task] <= w'.logs[w.stream.task]
    ensures IsFaithful(w')
  {
    var log, log' := w.logs[w.stream.task], w'.logs[w.stream.task];
    hide WorldIsSane;
    assert forall a, b :: 0 <= a <= b <= |log| ==> log'[a..b] == log[a..b];
  }

  lemma LogOfSane(w: World)
    requires WorldIsSane(w)
    ensures LogOk(w.logs[w.stream.task], w.stream.task)
  {
  }

  /** Everything stored behind a mark is the stretch of the log that starts there. */
  lemma StoredBehindIsSlice(log: Log, t: nat, mark: nat)
    requires LogOk(log, t)
    ensures
      var stored := EventsAfter(log, mark);
      && stored == Slice(log, mark, mark + |stored|)
      && (stored != [] ==> mark + |stored| <= |log|)
  {
    EventsAfterIsSuffix(log, t, mark);
  }

  lemma ReplayKeepsFaithful(w: World)
    requires WorldIsSane(w) && IsFaithful(w)
    ensures IsFaithful(Next(w, ReadReplay))
  {
    LogOfSane(w);
    hide WorldIsSane, LogOk, HasEnded, EventsAfter, ShouldTail, Slice;
    StoredBehindIsSlice(w.logs[w.stream.task], w.stream.task, w.stream.cursor);
  }

  lemma LagKeepsFaithful(w: World, to: nat)
    requires WorldIsSane(w) && IsFaithful(w)
    ensures IsFaithful(Next(w, Lag(to)))
  {
    LogOfSane(w);
    hide WorldIsSane, LogOk, HasEnded, EventsAfter, ShouldTail, Slice;
    StoredBehindIsSlice(w.logs[w.stream.task], w.stream.task, w.stream.highest);
  }

  lemma SendingKeepsFaithful(w: World, step: Step)
    requires WorldIsSane(w) && IsFaithful(w) && (step.SendReplay? || step.SendBatch? || step.FinishReplay?)
    ensures IsFaithful(Next(w, step))
  {
    var s, log := w.stream, w.logs[w.stream.task];
    assert LogOk(log, s.task);
    hide WorldIsSane, HasEnded, EventsAfter;
    if Backlog(s.phase) != [] {
      assert Backlog(s.phase)[0] == log[s.highest];
      SliceStep(log, s.cursor, s.highest);
    }
  }

  /** Receiving keeps the stream faithful exactly when the event is not ahead of it. */
  lemma ReceiveKeepsFaithfulExactly(w: World)
    requires WorldIsSane(w) && IsFaithful(w)
    ensures IsFaithful(Next(w, Receive)) <==> !IsAhead(w, Ordered(Receive))
  {
    var s, log := w.stream, w.logs[w.stream.task];
    if s.phase == Tailing([]) && s.position < |w.bus| {
      var e := w.bus[s.position];
      assert IsCommitted(w, e);
      hide WorldIsSane, HasEnded, EventsAfter;
      if e.taskId == s.task && e.sequence > s.highest {
        if e.sequence == s.highest + 1 {
          SliceStep(log, s.cursor, s.highest);
        } else {
          assert |Slice(log, s.cursor, e.sequence)| == e.sequence - s.cursor > |s.delivered| + 1;
        }
      }
    }
  }

  lemma StepKeepsFaithfulExactly(w: World, step: AnyStep)
    requires WorldIsSane(w) && IsFaithful(w)
    ensures NextAny(w, step).stream.task < |NextAny(w, step).logs|
    ensures IsFaithful(NextAny(w, step)) <==> !IsAhead(w, step)
  {
    StepKeepsSane(w, step);
    var w' := NextAny(w, step);
    match step
    case PublishAny(_, _) => GrowthKeepsFaithful(w, w');
    case Ordered(Commit(_, _, _, _)) => GrowthKeepsFaithful(w, w');
    case Ordered(Publish(_)) => GrowthKeepsFaithful(w, w');
    case Ordered(Republish(_, _)) => GrowthKeepsFaithful(w, w');
    case Ordered(ReadReplay) => ReplayKeepsFaithful(w);
    case Ordered(Lag(to)) => LagKeepsFaithful(w, to);
    case Ordered(SendReplay) => SendingKeepsFaithful(w, SendReplay);
    case Ordered(SendBatch) => SendingKeepsFaithful(w, SendBatch);
    case Ordered(FinishReplay) => SendingKeepsFaithful(w, FinishReplay);
    case Ordered(Receive) => ReceiveKeepsFaithfulExactly(w);
    case Ordered(_) => hide WorldIsSane, HasEnded;
  }

  // ---- Every run --------------------------------------------------------

  function AfterAny(w: World, steps: seq<AnyStep>): (w': World)
    requires WorldIsSane(w)
    ensures WorldIsSane(w') && w'.stream.task == w.stream.task
  {
    if steps == [] then w
    else
      var before, step := AfterAny(w, steps[..|steps| - 1]), steps[|steps| - 1];
      StepKeepsSane(before, step);
      NextAny(before, step)
  }

  ghost predicate FaithfulAfter(w: World, steps: seq<AnyStep>)
    requires WorldIsSane(w)
  {
    IsFaithful(AfterAny(w, steps))
  }

  /** The last step is ahead of the state it is taken in. */
  ghost predicate EndsAhead(w: World, steps: seq<AnyStep>)
    requires WorldIsSane(w)
  {
    steps != [] && IsAhead(AfterAny(w, steps[..|steps| - 1]), steps[|steps| - 1])
  }

  ghost predicate FaithfulThroughout(w: World, steps: seq<AnyStep>)
    requires WorldIsSane(w)
  {
    forall i :: 0 <= i <= |steps| ==> FaithfulAfter(w, steps[..i])
  }

  ghost predicate NeverAhead(w: World, steps: seq<AnyStep>)
    requires WorldIsSane(w)
  {
    forall i :: 0 <= i <= |steps| ==> !EndsAhead(w, steps[..i])
  }

  lemma {:induction false} ThroughoutOneMore(w: World, steps: seq<AnyStep>)
    requires WorldIsSane(w) && steps != []
    ensures
      var init := steps[..|steps| - 1];
      && (FaithfulThroughout(w, steps) <==> FaithfulThroughout(w, init) && FaithfulAfter(w, steps))
      && (NeverAhead(w, steps) <==> NeverAhead(w, init) && !EndsAhead(w, steps))
      && (FaithfulThroughout(w, init) ==> FaithfulAfter(w, init))
  {
    hide WorldIsSane, FaithfulAfter, EndsAhead;
    var init := steps[..|steps| - 1];
    assert forall i :: 0 <= i <= |init| ==> init[..i] == steps[..i];
    assert steps[..|steps|] == steps && init[..|init|] == init;
  }

  /** Over every run with publications in any order, lag included, a stream delivers
      exactly the log between its cursor and its mark throughout if and only if the tail
      never takes an event of its task that skips one: a test its loop does not make. */
  lemma {:induction false} FaithfulExactlyUnlessAhead(w: World, steps: seq<AnyStep>)
    requires WorldIsSane(w) && IsFaithful(w)
    ensures FaithfulThroughout(w, steps) <==> NeverAhead(w, steps)
  {
    if steps == [] {
      assert steps[..0] == [];
    } else {
      hide WorldIsSane, IsFaithful, IsAhead, FaithfulThroughout, NeverAhead, NextAny;
      var n := |steps| - 1;
      FaithfulExactlyUnlessAhead(w, steps[..n]);
      ThroughoutOneMore(w, steps);
      StepIsAfter(w, steps);
      if FaithfulAfter(w, steps[..n]) {
        StepKeepsFaithfulExactly(AfterAny(w, steps[..n]), steps[n]);
      }
    }
  }

  lemma {:induction false} StepIsAfter(w: World, steps: seq<AnyStep>)
    requires WorldIsSane(w) && steps != []
    ensures
      var before := AfterAny(w, steps[..|steps| - 1]);
      && before.stream.task < |before.logs| == |before.published|
      && AfterAny(w, steps) == NextAny(before, steps[|steps| - 1])
  {
  }

  // ---- The channel a tail drains ----------------------------------------

  function Receives(n: nat): seq<AnyStep> {
    seq(n, i => Ordered(Receive))
  }

  lemma ReceivingIsOnEvent(w: World, first: nat)
    requires WorldIsSane(w) && w.stream.phase == Tailing([]) && w.stream.position < |w.bus|
    ensures
      var s, e, w' := w.stream, w.bus[w.stream.position], NextAny(w, Ordered(Receive));
      && w'.bus == w.bus
      && w'.stream.(position := first) == OnEvent(s.(position := first), e)
      && (!w'.stream.phase.Ended? ==> w'.stream.phase == Tailing([]) && w'.stream.position == s.position + 1)
  {
    hide WorldIsSane;
  }

  lemma EndedStays(w: World)
    requires WorldIsSane(w) && w.stream.phase.Ended?
    ensures NextAny(w, Ordered(Receive)) == w
  {
    hide WorldIsSane;
  }

  lemma {:induction false} DrainingIsReceiving(w: World, n: nat)
    requires WorldIsSane(w) && w.stream.phase == Tailing([]) && w.stream.position + n <= |w.bus|
    ensures
      var s, w' := w.stream, AfterAny(w, Receives(n));
      && w'.bus == w.bus
      && w'.stream.(position := s.position) == ReceiveAll(s, w.bus[s.position..s.position + n])
      && (w'.stream.phase.Ended? || (w'.stream.phase == Tailing([]) && w'.stream.position == s.position + n))
  {
    hide WorldIsSane, NextAny, OnEvent;
    var p := w.stream.position;
    if n == 0 {
      assert w.bus[p..p + 0] == [];
    } else {
      DrainingIsReceiving(w, n - 1);
      assert Receives(n)[..n - 1] == Receives(n - 1);
      StepIsAfter(w, Receives(n));
      hide AfterAny;
      var events, w1 := w.bus[p..p + n], AfterAny(w, Receives(n - 1));
      assert events[..n - 1] == w.bus[p..p + n - 1] && events[n - 1] == w.bus[p + n - 1];
      if w1.stream.phase.Ended? {
        EndedStays(w1);
      } else {
        ReceivingIsOnEvent(w1, p);
      }
    }
  }

  /** A tail that drains n events without lag adds, up to the event that ends it, a stretch
      without gaps if and only if that part of the channel is in commit order behind its mark. */
  lemma DrainedTailIsGaplessExactly(w: World, n: nat) returns (k: nat)
    requires WorldIsSane(w) && w.stream.phase == Tailing([]) && w.stream.position + n <= |w.bus|
    ensures k <= n
    ensures
      var s, s' := w.stream, AfterAny(w, Receives(n)).stream;
      var numbers := Numbers(w.bus[s.position..s.position + n][..k], s.task);
      var added := Forwarded(s.highest, numbers);
      && (s'.phase.Ended? || k == n)
      && s.delivered <= s'.delivered
      && Numbers(s'.delivered, s.task) == Numbers(s.delivered, s.task) + added
      && (Gapless(s.highest, added) <==> InOrder(s.highest, numbers))
  {
    hide WorldIsSane, AfterAny;
    var s := w.stream;
    DrainingIsReceiving(w, n);
    k := TailForwardsByNumber(s, w.bus[s.position..s.position + n]);
    GaplessExactlyWhenInOrder(s.highest, Numbers(w.bus[s.position..s.position + n][..k], s.task));
  }

  // ---- Publications in commit order -------------------------------------

  function InOrderSteps(steps: seq<Step>): seq<AnyStep> {
    seq(|steps|, i requires 0 <= i < |steps| => Ordered(steps[i]))
  }

  lemma {:induction false} InOrderRunIsRun(w: World, steps: seq<Step>)
    requires WorldOk(w) && WorldIsSane(w)
    ensures AfterAny(w, InOrderSteps(steps)) == After(w, steps)
  {
    hide WorldOk, WorldIsSane;
    if steps != [] {
      var n := |steps| - 1;
      InOrderRunIsRun(w, steps[..n]);
      assert InOrderSteps(steps)[..n] == InOrderSteps(steps[..n]);
      StepIsAfter(w, InOrderSteps(steps));
    }
  }

  /** When first publications reach the channel in commit order the tail never skips. */
  lemma {:induction false} OrderedPublicationsAreNeverAhead(w: World, steps: seq<Step>)
    requires Initial(w) && WorldIsSane(w)
    ensures IsFaithful(w) && NeverAhead(w, InOrderSteps(steps))
  {
    InitialIsOk(w);
    var all := InOrderSteps(steps);
    forall i | 0 <= i <= |all|
      ensures FaithfulAfter(w, all[..i])
    {
      assert all[..i] == InOrderSteps(steps[..i]);
      InOrderRunIsRun(w, steps[..i]);
      OkIsFaithful(After(w, steps[..i]));
    }
    assert AfterAny(w, all[..0]) == w;
    FaithfulExactlyUnlessAhead(w, all);
  }

  lemma OkIsFaithful(w: World)
    requires WorldOk(w)
    ensures IsFaithful(w)
  {
    hide BusOk;
  }

  // ---- A run that skips an event ----------------------------------------

  const QUEUED := Event(0, 1, TaskQueued, EmptyObject, 0)
  const FIRST_OUTPUT := Event(0, 2, ProcessStdout, EmptyObject, 0)
  const SECOND_OUTPUT := Event(0, 3, ProcessStdout, EmptyObject, 0)

  /** A tail that has delivered the first event of its task. */
  const TAILING := World([[QUEUED]], [1], [QUEUED], Stream(0, 0, Tailing([]), 1, [QUEUED], 1, 1, 1))

  lemma TailingIsSane()
    ensures WorldIsSane(TAILING) && IsFaithful(TAILING) && !HasEnded([QUEUED])
  {
    assert [QUEUED][..0] == [];
    HistoryOfAppend([], QUEUED);
    assert [] + [QUEUED] == [QUEUED];
    assert LogOk([QUEUED], 0);
  }

  /** Two outputs are committed and published the other way round: the tail delivers the
      second and never the first. */
  lemma SwappedPublicationsSkip()
    ensures WorldIsSane(TAILING)
    ensures
      var outputs := [Ordered(Commit(0, ProcessStdout, EmptyObject, 0)), Ordered(Commit(0, ProcessStdout, EmptyObject, 0))];
      var swapped := [PublishAny(0, 2), PublishAny(0, 1), Ordered(Receive), Ordered(Receive)];
      var w := AfterAny(TAILING, outputs + swapped);
      && w.logs == [[QUEUED, FIRST_OUTPUT, SECOND_OUTPUT]]
      && w.stream.phase == Tailing([]) && w.stream.position == |w.bus|
      && w.stream.delivered == [QUEUED, SECOND_OUTPUT]
  {
    TailingIsSane();
    hide AfterAny, WorldIsSane, HasEnded;
    var commit := Ordered(Commit(0, ProcessStdout, EmptyObject, 0));
    AfterNothing();
    AfterNext([], commit);
    var s1 := [] + [commit];
    assert [QUEUED] + [FIRST_OUTPUT] == [QUEUED, FIRST_OUTPUT];
    AfterNext(s1, commit);
    var s2 := s1 + [commit];
    assert [QUEUED, FIRST_OUTPUT] + [SECOND_OUTPUT] == [QUEUED, FIRST_OUTPUT, SECOND_OUTPUT];
    AfterNext(s2, PublishAny(0, 2));
    var s3 := s2 + [PublishAny(0, 2)];
    AfterNext(s3, PublishAny(0, 1));
    var s4 := s3 + [PublishAny(0, 1)];
    assert AfterAny(TAILING, s4).bus == [QUEUED, SECOND_OUTPUT, FIRST_OUTPUT];
    AfterNext(s4, Ordered(Receive));
    var s5 := s4 + [Ordered(Receive)];
    AfterNext(s5, Ordered(Receive));
    var s6 := s5 + [Ordered(Receive)];
    assert [QUEUED] + [SECOND_OUTPUT] == [QUEUED, SECOND_OUTPUT];
    assert s6 == [commit, commit] + [PublishAny(0, 2), PublishAny(0, 1), Ordered(Receive), Ordered(Receive)];
  }

  lemma AfterNothing()
    ensures WorldIsSane(TAILING) && AfterAny(TAILING, []) == TAILING
  {
    TailingIsSane();
  }

  lemma {:induction false} AfterNext(steps: seq<AnyStep>, step: AnyStep)
    ensures WorldIsSane(TAILING)
    ensures
      var before := AfterAny(TAILING, steps);
      && before.stream.task < |before.logs| == |before.published|
      && AfterAny(TAILING, steps + [step]) == NextAny(before, step)
  {
    TailingIsSane();
    var longer := steps + [step];
    assert longer[..|longer| - 1] == steps;
    StepIsAfter(TAILING, longer);
  }
}
