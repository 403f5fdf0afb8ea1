/** The tail loop against the protocol: everything it does for one received message is a run of the stream's own steps. */
module Tails {
  import opened Store
  import opened EventStreams

  ghost predicate AreTailSteps(steps: seq<Step>) {
    forall i :: 0 <= i < |steps| ==>
      var step := steps[i];
      step == Receive || step.Lag? || step == SendBatch || step == LoseClient || step == CloseBus || step == FailStore
  }

  lemma {:induction false} AfterFirst(w: World, first: Step, rest: seq<Step>)
    requires WorldOk(w)
    ensures WorldOk(Next(w, first))
    ensures After(w, [first] + rest) == After(Next(w, first), rest)
  {
    hide WorldOk, Next;
    StepKeeps(w, first);
    var steps := [first] + rest;
    if rest == [] {
      assert steps == [first] && steps[..0] == [];
    } else {
      var n := |rest| - 1;
      AfterFirst(w, first, rest[..n]);
      assert steps[..|steps| - 1] == [first] + rest[..n];
    }
  }

  lemma WorldIsSized(w: World)
    requires WorldOk(w)
    ensures w.stream.task < |w.logs| == |w.published|
  {
  }

  lemma StreamAfterFirst(w: World, first: Step)
    requires WorldOk(w) && AreTailSteps([first])
    ensures Next(w, first).stream == StreamStep(w, first)
    ensures Next(w, first).bus == w.bus && Next(w, first).logs == w.logs
  {
    assert [first][0] == first;
  }

  lemma OneStep(w: World, step: Step)
    requires WorldOk(w) && AreTailSteps([step])
    ensures WorldOk(Next(w, step)) && After(w, [step]) == Next(w, step) && Next(w, step).stream == StreamStep(w, step)
  {
    hide WorldOk, Next;
    AfterFirst(w, step, []);
    assert [step] + [] == [step];
    StreamAfterFirst(w, step);
  }

  /** The step that offers the client the next stored row: it may turn out to be gone. */
  lemma OfferIsStep(w: World, room: nat) returns (step: Step)
    requires w.stream.task < |w.logs| && w.stream.phase.Tailing? && w.stream.phase.batch != []
    ensures AreTailSteps([step]) && StreamStep(w, step) == Offered(w.stream, OnStored(w.stream), room)
    ensures
      var s' := StreamStep(w, step);
      s'.phase.Tailing? ==> |s'.phase.batch| < |w.stream.phase.batch|
  {
    var s' := OnStored(w.stream);
    step := if |s'.delivered| > |w.stream.delivered| && |w.stream.delivered| >= room then LoseClient else SendBatch;
  }

  lemma MoreTailSteps(first: Step, rest: seq<Step>)
    requires AreTailSteps([first]) && AreTailSteps(rest)
    ensures AreTailSteps([first] + rest)
  {
    assert [first][0] == first;
  }

  /** Sending the rows read after lag, one by one, until one ends the stream or the client is gone. */
  lemma {:induction false} StoredAreSent(w: World, room: nat) returns (steps: seq<Step>)
    requires WorldOk(w) && w.stream.phase.Tailing?
    ensures AreTailSteps(steps) && After(w, steps).stream == SendStored(w.stream, room)
    decreases |w.stream.phase.batch|
  {
    WorldIsSized(w);
    hide WorldOk, Next, StreamStep, OnStored, Offered, AreTailSteps;
    if w.stream.phase.batch == [] {
      steps := [];
      NoSteps();
    } else {
      var first := OfferIsStep(w, room);
      OneStep(w, first);
      var w1 := Next(w, first);
      var rest := [];
      NoSteps();
      if w1.stream.phase.Tailing? {
        rest := StoredAreSent(w1, room);
      }
      AfterFirst(w, first, rest);
      MoreTailSteps(first, rest);
      steps := [first] + rest;
    }
  }

  lemma NoSteps()
    ensures AreTailSteps([])
  {
  }

  lemma {:induction false} SendingIgnoresPosition(s: Stream, room: nat, position: nat)
    ensures SendStored(s.(position := position), room) == SendStored(s, room).(position := position)
    decreases if s.phase.Tailing? then |s.phase.batch| else 0
  {
    if s.phase.Tailing? && s.phase.batch != [] {
      SendingIgnoresPosition(Offered(s, OnStored(s), room), room, position);
    }
  }

  /** What the channel may hand the loop: the next message on the bus, or, after lag, what the store then returns. */
  ghost predicate IsOffered(w: World, r: Received, to: nat) {
    match r
    case Got(e) => w.stream.position < |w.bus| && w.bus[w.stream.position] == e
    case Lagged(stored) =>
      w.stream.position < to <= |w.bus| && w.stream.task < |w.logs| && stored == EventsAfter(w.logs[w.stream.task], w.stream.highest)
    case _ => true
  }

  /** Whatever the loop receives, what it then sends, and how it ends, is what a run of the
      protocol's steps sends and ends with. */
  lemma {:induction false} LoopFollowsProtocol(w: World, r: Received, to: nat, room: nat) returns (steps: seq<Step>)
    requires WorldOk(w) && w.stream.phase == Tailing([]) && IsOffered(w, r, to)
    ensures AreTailSteps(steps)
    ensures After(w, steps).stream.(position := w.stream.position) == OnReceived(w.stream, r, room).(position := w.stream.position)
  {
    hide WorldOk, Next, After, StreamStep, OnReceived, AreTailSteps, IsOffered;
    if r.Lagged? {
      steps := LagFollowsProtocol(w, r.stored, to, room);
    } else {
      WorldIsSized(w);
      var step := MessageIsStep(w, r, to, room);
      OneStep(w, step);
      steps := [step];
    }
  }

  lemma MessageIsStep(w: World, r: Received, to: nat, room: nat) returns (step: Step)
    requires w.stream.task < |w.logs| && w.stream.phase == Tailing([]) && IsOffered(w, r, to) && !r.Lagged?
    ensures AreTailSteps([step])
    ensures StreamStep(w, step).(position := w.stream.position) == OnReceived(w.stream, r, room).(position := w.stream.position)
  {
    match r
    case LaggedUnreadable => step := FailStore;
    case Closed => step := CloseBus;
    case Got(e) =>
      var s' := OnEvent(w.stream, e);
      step := if |s'.delivered| > |w.stream.delivered| && |w.stream.delivered| >= room then LoseClient else Receive;
  }

  lemma {:induction false} LagFollowsProtocol(w: World, stored: Log, to: nat, room: nat) returns (steps: seq<Step>)
    requires WorldOk(w) && w.stream.phase == Tailing([]) && IsOffered(w, Lagged(stored), to)
    ensures AreTailSteps(steps)
    ensures After(w, steps).stream.(position := w.stream.position) == OnReceived(w.stream, Lagged(stored), room).(position := w.stream.position)
  {
    WorldIsSized(w);
    LagReads(w, stored, to);
    hide WorldOk, Next, After, StreamStep, SendStored, AreTailSteps;
    OneStep(w, Lag(to));
    var rest := StoredAreSent(Next(w, Lag(to)), room);
    AfterFirst(w, Lag(to), rest);
    MoreTailSteps(Lag(to), rest);
    steps := [Lag(to)] + rest;
    SendingIgnoresPosition(w.stream.(phase := Tailing(stored)), room, to);
  }

  lemma LagReads(w: World, stored: Log, to: nat)
    requires w.stream.task < |w.logs| && w.stream.phase == Tailing([]) && IsOffered(w, Lagged(stored), to)
    ensures AreTailSteps([Lag(to)]) && StreamStep(w, Lag(to)) == w.stream.(phase := Tailing(stored), position := to)
  {
  }
}
