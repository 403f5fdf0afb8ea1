/**
 When a stream closes by itself: exactly which streams can still do so, and a run that
 leaves one open for ever past its task's end.
 */
module StreamEnds {
  import opened Lifecycle
  import opened Store
  import opened StoreInvariants
  import opened EventStreams

  /** The stream is past the test that would have noticed its task's end. Before the
      hand-over that means: the status was read before the end, and the end lies at or
      before the cursor or is followed by another event. */
  ghost predicate MissesEnd(w: World)
    requires w.stream.task < |w.logs|
  {
    var s, log := w.stream, w.logs[w.stream.task];
    match s.phase
    case Opening => false
    case StatusRead(terminal) => !terminal && EndIsHidden(log, s.cursor)
    case Subscribed(terminal) => !terminal && EndIsHidden(log, s.cursor)
    case Replaying(rest, shouldTail) => shouldTail && EndedBy(log, s.highest + |rest|)
    case Tailing(_) => EndedBy(log, s.highest)
    case Ended(end) => !end.Finished?
  }

  ghost predicate EndIsHidden(log: Log, cursor: nat) {
    EndedBy(log, |log|) && (cursor >= |log| || !log[|log| - 1].eventType.IsTerminal())
  }

  /** Some continuation closes the stream by itself. */
  ghost predicate CanFinish(w: World)
    requires WorldOk(w)
  {
    exists steps :: After(w, steps).stream.phase == Ended(Finished)
  }

  // ---- A missed end is missed for good ----------------------------------

  /** Behind a terminal event there is no other. */
  lemma NoSecondEnd(log: Log, t: nat, n: nat)
    requires LogOk(log, t) && n < |log| && EndedBy(log, n)
    ensures !log[n].eventType.IsTerminal()
  {
    var k :| 0 <= k < |log| && k < n && log[k].eventType.IsTerminal();
  }

  lemma EndedByMore(log: Log, a: int, b: int)
    requires EndedBy(log, a) && a <= b
    ensures EndedBy(log, b)
  {
    var k :| 0 <= k < |log| && k < a && log[k].eventType.IsTerminal();
    assert k < b;
  }

  lemma GrowthKeepsMiss(w: World, w': World)
    requires WorldOk(w) && WorldOk(w') && MissesEnd(w) && w'.stream == w.stream && |w'.logs| == |w.logs|
    requires w.logs[w.stream.task] <= w'.logs[w.stream.task]
    ensures MissesEnd(w')
  {
    var s, log, log' := w.stream, w.logs[w.stream.task], w'.logs[w.stream.task];
    LogOfWorld(w');
    hide WorldOk;
    EndedByGrows(log, log', |log|);
    EndedByGrows(log, log', s.highest);
    EndedByGrows(log, log', s.highest + |Backlog(s.phase)|);
    if EndedBy(log, |log|) && |log| < |log'| {
      EndedByMore(log', |log|, |log'| - 1);
      EndedByMore(log', |log|, |log'|);
      NoSecondEnd(log', s.task, |log'| - 1);
    }
  }

  lemma LogOfWorld(w: World)
    requires WorldOk(w)
    ensures LogOk(w.logs[w.stream.task], w.stream.task)
    ensures |w.published| == |w.logs|
  {
  }

  lemma StepInPlace(w: World)
    requires WorldOk(w)
    ensures InStep(w.stream, w.logs[w.stream.task]) && PhaseOk(w.stream, w.logs[w.stream.task], w.bus)
  {
  }

  lemma ReplayKeepsMiss(w: World)
    requires WorldOk(w) && MissesEnd(w)
    ensures MissesEnd(Next(w, ReadReplay))
  {
    LogOfWorld(w);
    StepInPlace(w);
    hide WorldOk, EventsAfter, HasEnded, CaughtUp;
    var s, log := w.stream, w.logs[w.stream.task];
    if s.phase.Subscribed? {
      EventsAfterIsSuffix(log, s.task, s.cursor);
      EndedByMore(log, |log|, if s.cursor <= |log| then |log| else s.cursor);
    }
  }

  lemma SendingKeepsMiss(w: World, step: Step)
    requires WorldOk(w) && MissesEnd(w) && (step.SendReplay? || step.SendBatch? || step.FinishReplay?)
    ensures MissesEnd(Next(w, step))
  {
    LogOfWorld(w);
    StepInPlace(w);
    hide WorldOk, EventsAfter, HasEnded, CaughtUp;
    var s, log := w.stream, w.logs[w.stream.task];
    var backlog := Backlog(s.phase);
    if backlog != [] {
      assert backlog[0] == log[s.highest];
      if s.phase.Tailing? {
        NoSecondEnd(log, s.task, s.highest);
        EndedByMore(log, s.highest, s.highest + 1);
      }
    }
  }

  lemma ReceiveKeepsMiss(w: World)
    requires WorldOk(w) && MissesEnd(w)
    ensures MissesEnd(Next(w, Receive))
  {
    LogOfWorld(w);
    var s, log := w.stream, w.logs[w.stream.task];
    if s.phase == Tailing([]) && s.position < |w.bus| {
      var e := w.bus[s.position];
      if e.taskId == s.task && e.sequence > s.highest {
        NewEventIsNext(w, s.position);
        hide WorldOk;
        NoSecondEnd(log, s.task, s.highest);
        EndedByMore(log, s.highest, s.highest + 1);
      }
    }
  }

  lemma StepKeepsMiss(w: World, step: Step)
    requires WorldOk(w) && MissesEnd(w)
    ensures WorldOk(Next(w, step)) && MissesEnd(Next(w, step))
  {
    StepKeeps(w, step);
    LogOfWorld(w);
    match step {
      case Commit(_, _, _, _) =>
        hide WorldOk, MissesEnd, HasEnded;
        GrowthKeepsMiss(w, Next(w, step));
      case Publish(_) =>
        hide WorldOk, MissesEnd;
        GrowthKeepsMiss(w, Next(w, step));
      case Republish(_, _) =>
        hide WorldOk, MissesEnd;
        GrowthKeepsMiss(w, Next(w, step));
      case ReadReplay => ReplayKeepsMiss(w);
      case SendReplay => SendingKeepsMiss(w, step);
      case SendBatch => SendingKeepsMiss(w, step);
      case FinishReplay => SendingKeepsMiss(w, step);
      case Receive => ReceiveKeepsMiss(w);
      case _ => hide WorldOk, EventsAfter, HasEnded;
    }
  }

  lemma {:induction false} MissedForGood(w: World, steps: seq<Step>)
    requires WorldOk(w) && MissesEnd(w)
    ensures MissesEnd(After(w, steps)) && After(w, steps).stream.phase != Ended(Finished)
  {
    if steps != [] {
      hide WorldOk, Next;
      MissedForGood(w, steps[..|steps| - 1]);
      StepKeepsMiss(After(w, steps[..|steps| - 1]), steps[|steps| - 1]);
    }
  }

  // ---- Any other stream can still close ---------------------------------

  lemma IsSized(w: World)
    requires WorldOk(w)
    ensures w.stream.task < |w.logs| == |w.published|
  {
  }

  lemma {:induction false} AfterOneFirst(w: World, step: Step, steps: seq<Step>)
    requires WorldOk(w) && WorldOk(Next(w, step))
    ensures After(w, [step] + steps) == After(Next(w, step), steps)
  {
    hide WorldOk, Next;
    IsSized(w);
    var all := [step] + steps;
    if steps == [] {
      assert all == [step] && all[..0] == [];
      assert After(w, all[..0]) == w;
    } else {
      var n := |steps| - 1;
      AfterOneFirst(w, step, steps[..n]);
      assert all[..|all| - 1] == [step] + steps[..n];
      assert all[|all| - 1] == steps[n];
    }
  }

  lemma StepTowardsFinish(w: World, step: Step)
    requires WorldOk(w) && WorldOk(Next(w, step)) && CanFinish(Next(w, step))
    ensures CanFinish(w)
  {
    hide WorldOk, Next, After;
    IsSized(w);
    var steps :| After(Next(w, step), steps).stream.phase == Ended(Finished);
    AfterOneFirst(w, step, steps);
  }

  lemma HasFinished(w: World)
    requires WorldOk(w) && w.stream.phase == Ended(Finished)
    ensures CanFinish(w)
  {
    assert After(w, []) == w;
  }

  /** One event out of the backlog of lag recovery. */
  lemma BatchStep(w: World)
    requires WorldOk(w) && w.stream.phase.Tailing? && w.stream.phase.batch != [] && !MissesEnd(w)
    ensures
      var s, s' := w.stream, Next(w, SendBatch).stream;
      || s'.phase == Ended(Finished)
      || (s'.phase == Tailing(s.phase.batch[1..]) && s'.highest == s.highest + 1 && !EndedBy(w.logs[s.task], s'.highest))
  {
    StepInPlace(w);
    hide WorldOk, HasEnded, CaughtUp;
    var s, log := w.stream, w.logs[w.stream.task];
    assert s.phase.batch[0] == log[s.highest];
  }

  lemma {:induction false} BatchCanFinish(w: World)
    requires WorldOk(w) && w.stream.phase.Tailing? && !MissesEnd(w)
    requires EndedBy(w.logs[w.stream.task], w.stream.highest + |w.stream.phase.batch|)
    ensures CanFinish(w)
    decreases |w.stream.phase.batch|
  {
    assert w.stream.phase.batch != [];
    BatchStep(w);
    StepKeeps(w, SendBatch);
    SendingChangesStreamOnly(w);
    hide WorldOk, Next, CanFinish;
    var w' := Next(w, SendBatch);
    if w'.stream.phase == Ended(Finished) {
      HasFinished(w');
    } else {
      BatchCanFinish(w');
    }
    StepTowardsFinish(w, SendBatch);
  }

  lemma SendingChangesStreamOnly(w: World)
    requires WorldOk(w)
    ensures Next(w, SendBatch).logs == w.logs && Next(w, SendBatch).stream.task == w.stream.task
  {
    hide WorldOk, HasEnded;
  }

  /** With the log ended, and an event on the channel to lag behind. */
  lemma LagCanFinish(w: World)
    requires WorldOk(w) && w.stream.phase == Tailing([]) && !MissesEnd(w)
    requires EndedBy(w.logs[w.stream.task], |w.logs[w.stream.task]|) && w.stream.position < |w.bus|
    ensures CanFinish(w)
  {
    LagLeadsToBatch(w);
    StepKeeps(w, Lag(|w.bus|));
    hide WorldOk, CanFinish, Next;
    BatchCanFinish(Next(w, Lag(|w.bus|)));
    StepTowardsFinish(w, Lag(|w.bus|));
  }

  lemma LagLeadsToBatch(w: World)
    requires WorldOk(w) && w.stream.phase == Tailing([]) && !MissesEnd(w)
    requires EndedBy(w.logs[w.stream.task], |w.logs[w.stream.task]|) && w.stream.position < |w.bus|
    ensures
      var w' := Next(w, Lag(|w.bus|));
      && w'.stream.task < |w'.logs|
      && w'.stream.phase.Tailing? && !MissesEnd(w')
      && EndedBy(w'.logs[w'.stream.task], w'.stream.highest + |w'.stream.phase.batch|)
  {
    var s, log := w.stream, w.logs[w.stream.task];
    LogOfWorld(w);
    hide WorldOk, EventsAfter, HasEnded;
    if s.highest > |log| {
      EndedByMore(log, |log|, s.highest);
    }
    EventsAfterIsSuffix(log, s.task, s.highest);
  }

  /** A drained tail that has not come to the end of an ended log awaits a publication. */
  lemma DrainedAwaitsPublication(w: World)
    requires WorldOk(w) && w.stream.phase == Tailing([]) && !MissesEnd(w)
    requires EndedBy(w.logs[w.stream.task], |w.logs[w.stream.task]|) && w.stream.position == |w.bus|
    ensures w.published[w.stream.task] < |w.logs[w.stream.task]|
  {
    var s, log := w.stream, w.logs[w.stream.task];
    if s.highest >= |log| {
      EndedByMore(log, |log|, s.highest);
    }
    PublishedIsReceived(w);
  }

  lemma PublishedIsReceived(w: World)
    requires WorldOk(w) && w.stream.phase == Tailing([]) && w.stream.position == |w.bus|
    ensures w.published[w.stream.task] <= w.stream.highest
  {
    var t := w.stream.task;
    if w.published[t] > 0 {
      assert SentBefore(w.bus, t, w.published[t], |w.bus|);
    }
  }

  lemma EndedLogCanFinish(w: World)
    requires WorldOk(w) && w.stream.phase == Tailing([]) && !MissesEnd(w)
    requires EndedBy(w.logs[w.stream.task], |w.logs[w.stream.task]|)
    ensures CanFinish(w)
  {
    assert w.stream.position <= |w.bus|;
    if w.stream.position < |w.bus| {
      LagCanFinish(w);
    } else {
      var t := w.stream.task;
      DrainedAwaitsPublication(w);
      StepKeeps(w, Publish(t));
      LogOfWorld(w);
      hide WorldOk, CanFinish;
      LagCanFinish(Next(w, Publish(t)));
      StepTowardsFinish(w, Publish(t));
    }
  }

  lemma CommitAppends(w: World, eventType: EventType)
    requires WorldOk(w) && !EndedBy(w.logs[w.stream.task], |w.logs[w.stream.task]|)
    ensures
      var t := w.stream.task;
      var log, w' := w.logs[t], Next(w, Commit(t, eventType, EmptyObject, 0));
      && WorldOk(w')
      && w'.stream == w.stream && |w'.logs| == |w.logs|
      && w'.logs[t] == log + [Event(t, |log| + 1, eventType, EmptyObject, 0)]
  {
    var t := w.stream.task;
    LogOfWorld(w);
    EndedMeans(w.logs[t], t);
    StepKeeps(w, Commit(t, eventType, EmptyObject, 0));
  }

  lemma EndedByOfAppend(log: Log, e: Event, n: int)
    requires !EndedBy(log, |log|)
    ensures EndedBy(log + [e], n) <==> e.eventType.IsTerminal() && n > |log|
  {
    var log' := log + [e];
    assert forall k :: 0 <= k < |log| ==> log'[k] == log[k];
    assert log'[|log|] == e;
    forall k | 0 <= k < |log|
      ensures !log'[k].eventType.IsTerminal()
    {
      assert log[k] == log'[k] && k < |log|;
    }
  }

  /** The task goes on as far as the client's cursor, then ends. */
  lemma {:induction false} RunningLogCanFinish(w: World)
    requires WorldOk(w) && w.stream.phase == Tailing([])
    requires !EndedBy(w.logs[w.stream.task], |w.logs[w.stream.task]|)
    ensures CanFinish(w)
    decreases w.stream.highest - |w.logs[w.stream.task]|
  {
    var t := w.stream.task;
    var log := w.logs[t];
    var eventType := if |log| < w.stream.highest then ProcessStdout else TaskCancelled;
    var e := Event(t, |log| + 1, eventType, EmptyObject, 0);
    CommitAppends(w, eventType);
    hide WorldOk, CanFinish, Next;
    var w' := Next(w, Commit(t, eventType, EmptyObject, 0));
    EndedByOfAppend(log, e, |log| + 1);
    EndedByOfAppend(log, e, w.stream.highest);
    if |log| < w.stream.highest {
      RunningLogCanFinish(w');
    } else {
      EndedLogCanFinish(w');
    }
    StepTowardsFinish(w, Commit(t, eventType, EmptyObject, 0));
  }

  lemma {:induction false} TailCanFinish(w: World)
    requires WorldOk(w) && w.stream.phase.Tailing? && !MissesEnd(w)
    ensures CanFinish(w)
    decreases |w.stream.phase.batch|
  {
    var log := w.logs[w.stream.task];
    if w.stream.phase.batch != [] {
      BatchStep(w);
      StepKeeps(w, SendBatch);
      SendingChangesStreamOnly(w);
      hide WorldOk, Next, CanFinish;
      if Next(w, SendBatch).stream.phase == Ended(Finished) {
        HasFinished(Next(w, SendBatch));
      } else {
        TailCanFinish(Next(w, SendBatch));
      }
      StepTowardsFinish(w, SendBatch);
    } else if EndedBy(log, |log|) {
      EndedLogCanFinish(w);
    } else {
      RunningLogCanFinish(w);
    }
  }

  lemma {:induction false} ReplayCanFinish(w: World)
    requires WorldOk(w) && w.stream.phase.Replaying? && !MissesEnd(w)
    ensures CanFinish(w)
    decreases |w.stream.phase.rest|
  {
    var step := if w.stream.phase.rest != [] then SendReplay else FinishReplay;
    ReplayStep(w, step);
    StepKeeps(w, step);
    hide WorldOk, Next, CanFinish;
    var w' := Next(w, step);
    if step.SendReplay? {
      ReplayCanFinish(w');
    } else if w'.stream.phase.Tailing? {
      TailCanFinish(w');
    } else {
      HasFinished(w');
    }
    StepTowardsFinish(w, step);
  }

  lemma ReplayStep(w: World, step: Step)
    requires WorldOk(w) && w.stream.phase.Replaying? && !MissesEnd(w)
    requires step == if w.stream.phase.rest != [] then SendReplay else FinishReplay
    ensures
      var s, w' := w.stream, Next(w, step);
      && w'.stream.task < |w'.logs|
      && (step.SendReplay? ==> w'.stream.phase == Replaying(s.phase.rest[1..], s.phase.shouldTail) && !MissesEnd(w'))
      && (step.FinishReplay? ==> w'.stream.phase == Ended(Finished) || (w'.stream.phase.Tailing? && !MissesEnd(w')))
  {
    StepInPlace(w);
    hide WorldOk, HasEnded, CaughtUp;
    if w.stream.phase.rest != [] {
      assert w.stream.phase.rest[0] == w.logs[w.stream.task][w.stream.highest];
    }
  }

  /** The steps up to the replay. */
  lemma OpeningStep(w: World, step: Step)
    requires WorldOk(w) && !MissesEnd(w)
    requires
      var p := w.stream.phase;
      (p.Opening? && step.ReadStatus?) || (p.StatusRead? && step.Subscribe?) || (p.Subscribed? && step.ReadReplay?)
    ensures
      var p, w' := w.stream.phase, Next(w, step);
      && w'.stream.task < |w'.logs|
      && !MissesEnd(w')
      && (if p.Opening? then w'.stream.phase.StatusRead? else if p.StatusRead? then w'.stream.phase.Subscribed? else w'.stream.phase.Replaying?)
  {
    var s, log := w.stream, w.logs[w.stream.task];
    LogOfWorld(w);
    StepInPlace(w);
    hide WorldOk, EventsAfter, HasEnded, CaughtUp;
    EndedMeans(log, s.task);
    EventsAfterIsSuffix(log, s.task, s.cursor);
    if EndedBy(log, if s.cursor <= |log| then |log| else s.cursor) {
      var k :| 0 <= k < |log| && log[k].eventType.IsTerminal();
      assert EndedBy(log, |log|);
    }
  }

  lemma {:induction false} OpeningCanFinish(w: World)
    requires WorldOk(w) && !MissesEnd(w)
    requires w.stream.phase.Opening? || w.stream.phase.StatusRead? || w.stream.phase.Subscribed?
    ensures CanFinish(w)
    decreases if w.stream.phase.Opening? then 2 else if w.stream.phase.StatusRead? then 1 else 0
  {
    var p := w.stream.phase;
    var step := if p.Opening? then ReadStatus else if p.StatusRead? then Subscribe else ReadReplay;
    OpeningStep(w, step);
    StepKeeps(w, step);
    hide WorldOk, Next, CanFinish;
    if p.Subscribed? {
      ReplayCanFinish(Next(w, step));
    } else {
      OpeningCanFinish(Next(w, step));
    }
    StepTowardsFinish(w, step);
  }

  /** A stream that has not ended can still close by itself if and only if it has not
      missed its task's end. */
  lemma ClosesExactlyUnlessMissed(w: World)
    requires WorldOk(w) && !w.stream.phase.Ended?
    ensures CanFinish(w) <==> !MissesEnd(w)
  {
    if MissesEnd(w) {
      forall steps | true
        ensures After(w, steps).stream.phase != Ended(Finished)
      {
        MissedForGood(w, steps);
      }
    } else {
      match w.stream.phase
      case Replaying(_, _) => ReplayCanFinish(w);
      case Tailing(_) => TailCanFinish(w);
      case _ => OpeningCanFinish(w);
    }
  }

  // ---- A stream left open -----------------------------------------------

  /** A queued task, and a client that asks for its whole log. */
  const AT_FIRST := World([[QUEUED]], [0], [], Stream(0, 0, Opening, 0, [], 0, 0, 0))
  const QUEUED := Event(0, 1, TaskQueued, EmptyObject, 0)
  const CANCELLED := Event(0, 2, TaskCancelled, EmptyObject, 0)
  const LATE_OUTPUT := Event(0, 3, ProcessStdout, EmptyObject, 0)

  /** The task is cancelled, and output appended behind that, between the status read and
      the replay. */
  const MISSING_STEPS: seq<Step> := [
    ReadStatus, Commit(0, TaskCancelled, EmptyObject, 0), Commit(0, ProcessStdout, EmptyObject, 0),
    Subscribe, ReadReplay, SendReplay, SendReplay, SendReplay, FinishReplay]

  lemma FirstIsOk()
    ensures Initial(AT_FIRST) && WorldOk(AT_FIRST)
    ensures !HasEnded([QUEUED])
  {
    assert [QUEUED][..0] == [];
    HistoryOfAppend([], QUEUED);
    assert [] + [QUEUED] == [QUEUED];
  }

  lemma {:induction false} RunOneMore(steps: seq<Step>, step: Step)
    ensures WorldOk(AT_FIRST)
    ensures After(AT_FIRST, steps).stream.task < |After(AT_FIRST, steps).logs| == |After(AT_FIRST, steps).published|
    ensures After(AT_FIRST, steps + [step]) == Next(After(AT_FIRST, steps), step)
  {
    FirstIsOk();
    LogOfWorld(After(AT_FIRST, steps));
    hide WorldOk, Next;
    var longer := steps + [step];
    assert longer[..|longer| - 1] == steps;
  }

  /** The end comes between the status read and the replay. */
  lemma {:induction false} EndComesUnnoticed() returns (steps: seq<Step>)
    ensures WorldOk(AT_FIRST) && steps == MISSING_STEPS[..4]
    ensures After(AT_FIRST, steps) ==
      World([[QUEUED, CANCELLED, LATE_OUTPUT]], [0], [], Stream(0, 0, Subscribed(false), 0, [], 0, 1, 0))
  {
    FirstIsOk();
    hide After, WorldOk, HasEnded, EventsAfter;
    steps := [];
    assert After(AT_FIRST, []) == AT_FIRST by {
      NoSteps();
    }
    RunOneMore(steps, ReadStatus);
    steps := steps + [ReadStatus];
    RunOneMore(steps, Commit(0, TaskCancelled, EmptyObject, 0));
    steps := steps + [Commit(0, TaskCancelled, EmptyObject, 0)];
    assert [QUEUED] + [CANCELLED] == [QUEUED, CANCELLED];
    RunOneMore(steps, Commit(0, ProcessStdout, EmptyObject, 0));
    steps := steps + [Commit(0, ProcessStdout, EmptyObject, 0)];
    assert [QUEUED, CANCELLED] + [LATE_OUTPUT] == [QUEUED, CANCELLED, LATE_OUTPUT];
    RunOneMore(steps, Subscribe);
    steps := steps + [Subscribe];
  }

  lemma NoSteps()
    ensures WorldOk(AT_FIRST) && After(AT_FIRST, []) == AT_FIRST
  {
    FirstIsOk();
  }

  /** Three events replayed, and on to the tail. */
  lemma ReplayOfThree(w: World)
    requires w == World([[QUEUED, CANCELLED, LATE_OUTPUT]], [0], [], Stream(0, 0, Subscribed(false), 0, [], 0, 1, 0))
    ensures
      var sent := Next(Next(Next(Next(w, ReadReplay), SendReplay), SendReplay), SendReplay);
      Next(sent, FinishReplay) == w.(stream := Stream(0, 0, Tailing([]), 3, w.logs[0], 0, 1, 3))
  {
    hide HasEnded, EventsAfter;
    var log := [QUEUED, CANCELLED, LATE_OUTPUT];
    EventsAfterIsSuffix(log, 0, 0);
    assert log[0..] == log && log[1..] == [CANCELLED, LATE_OUTPUT] && log[1..][1..] == [LATE_OUTPUT];
    assert Next(w, ReadReplay).stream == Stream(0, 0, Replaying(log, true), 0, [], 0, 1, 3);
    assert [QUEUED] + [CANCELLED] + [LATE_OUTPUT] == log;
  }

  /** The steps lead to a stream that tails a log whose end it has delivered, and that no
      continuation closes. */
  lemma {:induction false} MissedEndStaysOpen() returns (steps: seq<Step>)
    ensures Initial(AT_FIRST) && WorldOk(AT_FIRST) && steps == MISSING_STEPS
    ensures
      var w := After(AT_FIRST, steps);
      && w.logs == [[QUEUED, CANCELLED, LATE_OUTPUT]]
      && w.stream.phase == Tailing([])
      && w.stream.delivered == w.logs[0]
      && !CanFinish(w)
  {
    FirstIsOk();
    hide After, WorldOk, Next, CanFinish;
    steps := EndComesUnnoticed();
    ReplayOfThree(After(AT_FIRST, steps));
    RunOneMore(steps, ReadReplay);
    steps := steps + [ReadReplay];
    RunOneMore(steps, SendReplay);
    steps := steps + [SendReplay];
    RunOneMore(steps, SendReplay);
    steps := steps + [SendReplay];
    RunOneMore(steps, SendReplay);
    steps := steps + [SendReplay];
    RunOneMore(steps, FinishReplay);
    steps := steps + [FinishReplay];
    var w := After(AT_FIRST, steps);
    var log := [QUEUED, CANCELLED, LATE_OUTPUT];
    assert log[1].eventType.IsTerminal() && EndedBy(log, 3);
    ClosesExactlyUnlessMissed(w);
  }
}
