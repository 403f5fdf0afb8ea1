/**
 Streaming a task's events: subscribe, replay the stored log, then follow the
 broadcast channel, recovering from lag by reading the log again. Commits,
 publications, repeated publications and dropped buffers interleave freely with
 the stream's own steps.
 */
module EventStreams {
  import opened Results
  import opened Lifecycle
  import opened Store
  import opened StoreInvariants

  /** Why a stream stopped. */
  datatype End = Finished | ClientLost | BusClosed | StoreFailed

  datatype Phase =
    | Opening
    | StatusRead(terminal: bool)
    | Subscribed(terminal: bool)
    | Replaying(rest: Log, shouldTail: bool)
    | Tailing(batch: Log)
    | Ended(end: End)

  /** `position` is the receiver's place in the channel. `statusAt` and `replayedAt`
      are the lengths the log had at the status read and at the replay; the program
      does not keep them. */
  datatype Stream = Stream(
    task: nat, cursor: nat, phase: Phase, highest: int, delivered: Log, position: nat, statusAt: nat, replayedAt: nat)

  /** `published[t]` counts the events of task t that have reached the channel for the
      first time; `bus` is everything ever sent on the channel. */
  datatype World = World(logs: seq<Log>, published: seq<nat>, bus: Log, stream: Stream)

  datatype Step =
    | Commit(t: nat, eventType: EventType, payload: Payload, createdAt: int)
    | Publish(t: nat)
    | Republish(t: nat, k: nat)
    | ReadStatus
    | Subscribe
    | ReadReplay
    | SendReplay
    | FinishReplay
    | Receive
    | Lag(to: nat)
    | SendBatch
    | Heartbeat
    | LoseClient
    | CloseBus
    | FailStore

  /** The status of a task is terminal when its last lifecycle event is. */
  predicate HasEnded(log: Log) {
    var h := History(log);
    h != [] && h[|h| - 1].IsTerminal()
  }

  function ShouldTail(terminal: bool, replay: Log): bool {
    !terminal && !(replay != [] && replay[|replay| - 1].eventType.IsTerminal())
  }

  /** One event sent to the client. */
  function Deliver(s: Stream, e: Event): Stream {
    s.(highest := e.sequence, delivered := s.delivered + [e])
  }

  /** What the tail loop does with an event from the channel. */
  function OnEvent(s: Stream, e: Event): Stream {
    if e.taskId != s.task || e.sequence <= s.highest then s
    else Deliver(s, e).(phase := if e.eventType.IsTerminal() then Ended(Finished) else s.phase)
  }

  /** What lag recovery does with the next stored event. */
  function OnStored(s: Stream): Stream
    requires s.phase.Tailing? && s.phase.batch != []
  {
    var e, s' := s.phase.batch[0], s.(phase := Tailing(s.phase.batch[1..]));
    if e.sequence <= s.highest then s'
    else Deliver(s', e).(phase := if e.eventType.IsTerminal() then Ended(Finished) else s'.phase)
  }

  function StreamStep(w: World, step: Step): Stream
    requires w.stream.task < |w.logs|
  {
    var s := w.stream;
    var log := w.logs[s.task];
    match step
    case ReadStatus => if s.phase.Opening? then s.(phase := StatusRead(HasEnded(log)), statusAt := |log|) else s
    case Subscribe => if s.phase.StatusRead? then s.(phase := Subscribed(s.phase.terminal), position := |w.bus|) else s
    case ReadReplay =>
      if s.phase.Subscribed? then
        var replay := EventsAfter(log, s.cursor);
        s.(phase := Replaying(replay, ShouldTail(s.phase.terminal, replay)), replayedAt := |log|)
      else s
    case SendReplay =>
      if s.phase.Replaying? && s.phase.rest != [] then
        Deliver(s, s.phase.rest[0]).(phase := Replaying(s.phase.rest[1..], s.phase.shouldTail))
      else s
    case FinishReplay =>
      if s.phase.Replaying? && s.phase.rest == [] then s.(phase := if s.phase.shouldTail then Tailing([]) else Ended(Finished))
      else s
    case Receive =>
      if s.phase == Tailing([]) && s.position < |w.bus| then OnEvent(s, w.bus[s.position]).(position := s.position + 1) else s
    case Lag(to) =>
      if s.phase == Tailing([]) && s.position < to <= |w.bus| then
        s.(phase := Tailing(EventsAfter(log, s.highest)), position := to)
      else s
    case SendBatch => if s.phase.Tailing? && s.phase.batch != [] then OnStored(s) else s
    case LoseClient => if s.phase.Replaying? || s.phase.Tailing? then s.(phase := Ended(ClientLost)) else s
    case CloseBus => if s.phase.Tailing? then s.(phase := Ended(BusClosed)) else s
    case FailStore => if s.phase.Tailing? then s.(phase := Ended(StoreFailed)) else s
    case _ => s
  }

  function Next(w: World, step: Step): World
    requires w.stream.task < |w.logs| == |w.published|
  {
    match step
    case Commit(t, eventType, payload, createdAt) =>
      if t < |w.logs| && (StatusOf(eventType).Some? ==> !HasEnded(w.logs[t])) then
        w.(logs := w.logs[t := w.logs[t] + [Event(t, |w.logs[t]| + 1, eventType, payload, createdAt)]])
      else w
    case Publish(t) =>
      if t < |w.logs| && w.published[t] < |w.logs[t]| then
        w.(published := w.published[t := w.published[t] + 1], bus := w.bus + [w.logs[t][w.published[t]]])
      else w
    case Republish(t, k) =>
      if t < |w.logs| && k < w.published[t] && k < |w.logs[t]| then w.(bus := w.bus + [w.logs[t][k]]) else w
    case _ => w.(stream := StreamStep(w, step))
  }

  /** Where a stream on `task` may start: any logs, any published prefix, any channel
      history those prefixes allow. */
  ghost predicate Initial(w: World) {
    && BusOk(w)
    && w.stream.task < |w.logs|
    && w.stream.phase.Opening?
    && w.stream.highest == w.stream.cursor
    && w.stream.delivered == []
  }

  // ---- The channel ------------------------------------------------------

  /** The channel carries published events only, every published event, and an event
      never before the one it follows in its log. */
  ghost predicate BusOk(w: World) {
    && |w.published| == |w.logs|
    && (forall t :: 0 <= t < |w.logs| ==> LogOk(w.logs[t], t) && w.published[t] <= |w.logs[t]|)
    && (forall i :: 0 <= i < |w.bus| ==> IsPublished(w, w.bus[i]))
    && (forall t, n :: 0 <= t < |w.logs| && 1 <= n <= w.published[t] ==> SentBefore(w.bus, t, n, |w.bus|))
    && (forall i :: 0 <= i < |w.bus| && w.bus[i].sequence > 1 ==> SentBefore(w.bus, w.bus[i].taskId, w.bus[i].sequence - 1, i))
  }

  /** Numbered, with no lifecycle event after a terminal one. */
  ghost predicate LogOk(log: Log, t: nat) {
    && Numbered(log, t)
    && QuietAfterEnd(log)
  }

  ghost predicate QuietAfterEnd(log: Log) {
    forall i, j :: 0 <= i < j < |log| && log[i].eventType.IsTerminal() ==> StatusOf(log[j].eventType).None?
  }

  ghost predicate IsPublished(w: World, e: Event) {
    && e.taskId < |w.logs| == |w.published|
    && 1 <= e.sequence <= w.published[e.taskId]
    && e.sequence <= |w.logs[e.taskId]|
    && e == w.logs[e.taskId][e.sequence - 1]
  }

  /** Event n of task t was sent before place i. */
  ghost predicate SentBefore(bus: Log, t: nat, n: int, i: nat) {
    exists j :: 0 <= j < i && j < |bus| && bus[j].taskId == t && bus[j].sequence == n
  }

  // ---- The stream -------------------------------------------------------

  /** The log entries numbered above a, up to b. */
  function Slice(log: Log, a: int, b: int): Log {
    if 0 <= a <= b <= |log| then log[a..b] else []
  }

  /** Stored events still to be sent. */
  function Backlog(p: Phase): Log {
    match p
    case Replaying(rest, _) => rest
    case Tailing(batch) => batch
    case _ => []
  }

  /** Some terminal event is numbered n or less. */
  ghost predicate EndedBy(log: Log, n: int) {
    exists k :: 0 <= k < |log| && k < n && log[k].eventType.IsTerminal()
  }

  /** Delivered is exactly the log between the cursor and the high-water mark, and
      the backlog carries on from there. */
  ghost predicate InStep(s: Stream, log: Log) {
    && s.cursor <= s.highest
    && (s.highest > s.cursor ==> s.highest <= |log|)
    && s.delivered == Slice(log, s.cursor, s.highest)
    && (Backlog(s.phase) != [] ==> s.highest + |Backlog(s.phase)| <= |log|)
    && Backlog(s.phase) == Slice(log, s.highest, s.highest + |Backlog(s.phase)|)
  }

  /** Nothing the receiver has gone past is still missing. */
  ghost predicate CaughtUp(s: Stream, bus: Log) {
    && s.position <= |bus|
    && forall i :: 0 <= i < s.position && bus[i].taskId == s.task ==> bus[i].sequence <= s.highest + |Backlog(s.phase)|
  }

  ghost predicate PhaseOk(s: Stream, log: Log, bus: Log) {
    match s.phase
    case Opening => s.highest == s.cursor
    case StatusRead(terminal) => s.highest == s.cursor && ReadOk(s, log, terminal)
    case Subscribed(terminal) => s.highest == s.cursor && s.position <= |bus| && ReadOk(s, log, terminal)
    case Replaying(rest, shouldTail) =>
      && CaughtUp(s, bus)
      && s.statusAt <= s.replayedAt <= |log|
      && s.highest + |rest| == (if s.cursor <= s.replayedAt then s.replayedAt else s.cursor)
      && (if shouldTail then EndedBy(log, s.highest + |rest|) ==> MissedEnd(s, log) else EndedBy(log, s.highest + |rest|))
    case Tailing(batch) =>
      && CaughtUp(s, bus)
      && s.statusAt <= s.replayedAt <= |log|
      && (EndedBy(log, s.highest) ==> MissedEnd(s, log))
    case Ended(end) => end.Finished? ==> EndedBy(log, s.highest)
  }

  ghost predicate ReadOk(s: Stream, log: Log, terminal: bool) {
    s.statusAt <= |log| && (terminal <==> EndedBy(log, s.statusAt))
  }

  /** The task ended after the status read, at or before the cursor or followed by
      other events in the replay, so neither test of the hand-over notices. */
  ghost predicate MissedEnd(s: Stream, log: Log) {
    exists k :: s.statusAt <= k < |log| && log[k].eventType.IsTerminal() && (k < s.cursor || k + 1 < s.replayedAt)
  }

  ghost predicate StreamOk(s: Stream, log: Log, bus: Log) {
    InStep(s, log) && PhaseOk(s, log, bus)
  }

  ghost predicate WorldOk(w: World) {
    BusOk(w) && w.stream.task < |w.logs| && StreamOk(w.stream, w.logs[w.stream.task], w.bus)
  }

  // ---- Logs and their ends ----------------------------------------------

  /** Only the last lifecycle event of such a log can be terminal. */
  lemma EndedByLast(log: Log, t: nat)
    requires LogOk(log, t) && log != []
    ensures LogOk(log[..|log| - 1], t)
    ensures
      var last := log[|log| - 1].eventType;
      EndedBy(log, |log|) <==> if StatusOf(last).None? then EndedBy(log[..|log| - 1], |log| - 1) else last.IsTerminal()
  {
    var n := |log| - 1;
    var init := log[..n];
    assert forall k :: 0 <= k < n ==> init[k] == log[k];
    if EndedBy(init, n) {
      var k :| 0 <= k < n && init[k].eventType.IsTerminal();
      assert log[k].eventType.IsTerminal();
    }
    assert log[n].eventType.IsTerminal() ==> EndedBy(log, |log|);
  }

  lemma {:induction false} EndedMeans(log: Log, t: nat)
    requires LogOk(log, t)
    ensures HasEnded(log) <==> EndedBy(log, |log|)
  {
    if log != [] {
      hide LogOk, EndedBy;
      EndedByLast(log, t);
      EndedMeans(log[..|log| - 1], t);
    }
  }

  lemma AppendKeepsLogOk(log: Log, t: nat, eventType: EventType, payload: Payload, createdAt: int)
    requires LogOk(log, t)
    requires StatusOf(eventType).Some? ==> !HasEnded(log)
    ensures LogOk(log + [Event(t, |log| + 1, eventType, payload, createdAt)], t)
  {
    EndedMeans(log, t);
  }

  lemma SentBeforeGrows(bus: Log, e: Event, t: nat, n: int, i: nat)
    requires SentBefore(bus, t, n, i)
    ensures SentBefore(bus + [e], t, n, i)
  {
    var j :| 0 <= j < i && j < |bus| && bus[j].taskId == t && bus[j].sequence == n;
    assert (bus + [e])[j] == bus[j];
  }

  // ---- World steps ------------------------------------------------------

  lemma CommitKeepsBus(w: World, t: nat, eventType: EventType, payload: Payload, createdAt: int)
    requires BusOk(w) && w.stream.task < |w.logs|
    ensures BusOk(Next(w, Commit(t, eventType, payload, createdAt)))
  {
    if t < |w.logs| && (StatusOf(eventType).Some? ==> !HasEnded(w.logs[t])) {
      AppendKeepsLogOk(w.logs[t], t, eventType, payload, createdAt);
      var w' := Next(w, Commit(t, eventType, payload, createdAt));
      forall i | 0 <= i < |w'.bus|
        ensures IsPublished(w', w'.bus[i])
      {
        assert IsPublished(w, w.bus[i]);
      }
    }
  }

  /** Sending an event that is published, and whose predecessor has been sent. */
  lemma SendKeepsBus(w: World, w': World, e: Event)
    requires BusOk(w)
    requires w'.logs == w.logs && |w'.published| == |w.published| && w'.bus == w.bus + [e]
    requires IsPublished(w', e)
    requires forall t :: 0 <= t < |w.logs| ==>
      && w.published[t] <= w'.published[t] <= |w.logs[t]|
      && (w'.published[t] == w.published[t] || (t == e.taskId && w'.published[t] == e.sequence == w.published[t] + 1))
    requires e.sequence > 1 ==> e.sequence - 1 <= w.published[e.taskId]
    ensures BusOk(w')
  {
    forall i | 0 <= i < |w'.bus|
      ensures IsPublished(w', w'.bus[i])
    {
      if i < |w.bus| {
        assert w'.bus[i] == w.bus[i] && IsPublished(w, w.bus[i]);
      }
    }
    forall t, n | 0 <= t < |w'.logs| && 1 <= n <= w'.published[t]
      ensures SentBefore(w'.bus, t, n, |w'.bus|)
    {
      if n <= w.published[t] {
        SentBeforeGrows(w.bus, e, t, n, |w.bus|);
      } else {
        assert w'.bus[|w.bus|] == e;
      }
    }
    forall i | 0 <= i < |w'.bus| && w'.bus[i].sequence > 1
      ensures SentBefore(w'.bus, w'.bus[i].taskId, w'.bus[i].sequence - 1, i)
    {
      if i < |w.bus| {
        assert w'.bus[i] == w.bus[i];
        SentBeforeGrows(w.bus, e, w.bus[i].taskId, w.bus[i].sequence - 1, i);
      } else {
        SentBeforeGrows(w.bus, e, e.taskId, e.sequence - 1, |w.bus|);
      }
    }
  }

  lemma PublishKeepsBus(w: World, t: nat)
    requires BusOk(w) && w.stream.task < |w.logs|
    ensures BusOk(Next(w, Publish(t)))
  {
    if t < |w.logs| && w.published[t] < |w.logs[t]| {
      assert LogOk(w.logs[t], t);
      SendKeepsBus(w, Next(w, Publish(t)), w.logs[t][w.published[t]]);
    }
  }

  lemma RepublishKeepsBus(w: World, t: nat, k: nat)
    requires BusOk(w) && w.stream.task < |w.logs|
    ensures BusOk(Next(w, Republish(t, k)))
  {
    if t < |w.logs| && k < w.published[t] && k < |w.logs[t]| {
      assert LogOk(w.logs[t], t);
      SendKeepsBus(w, Next(w, Republish(t, k)), w.logs[t][k]);
    }
  }

  /** Nothing that happens around a stream disturbs it. */
  lemma GrowthKeepsStream(s: Stream, log: Log, log': Log, bus: Log, bus': Log)
    requires StreamOk(s, log, bus)
    requires log <= log' && bus <= bus'
    ensures StreamOk(s, log', bus')
  {
    assert forall k :: 0 <= k < |log| ==> log'[k] == log[k];
    assert forall i :: 0 <= i < |bus| ==> bus'[i] == bus[i];
    assert forall a, b :: 0 <= a <= b <= |log| ==> log'[a..b] == log[a..b];
    GrowthKeepsPhase(s, log, log', bus, bus');
  }

  lemma EndedByGrows(log: Log, log': Log, n: int)
    requires log <= log'
    ensures EndedBy(log, n) ==> EndedBy(log', n)
    ensures EndedBy(log', n) && !EndedBy(log, n) ==> exists k :: |log| <= k < |log'| && k < n && log'[k].eventType.IsTerminal()
  {
    assert forall k :: 0 <= k < |log| ==> log'[k] == log[k];
  }

  lemma MissGrows(s: Stream, log: Log, log': Log)
    requires log <= log' && MissedEnd(s, log)
    ensures MissedEnd(s, log')
  {
    var k :| s.statusAt <= k < |log| && log[k].eventType.IsTerminal() && (k < s.cursor || k + 1 < s.replayedAt);
    assert log'[k].eventType.IsTerminal();
  }

  /** An end that comes at or before the cursor, after the status was read. */
  lemma NewEndIsMissed(s: Stream, log: Log, log': Log, n: int)
    requires log <= log' && s.statusAt <= |log|
    requires EndedBy(log', n) && !EndedBy(log, n) && (n > |log| ==> n <= s.cursor)
    ensures MissedEnd(s, log')
  {
    EndedByGrows(log, log', n);
    var k :| |log| <= k < |log'| && k < n && log'[k].eventType.IsTerminal();
    assert s.statusAt <= k && k < s.cursor;
  }

  lemma GrowthKeepsPhase(s: Stream, log: Log, log': Log, bus: Log, bus': Log)
    requires InStep(s, log) && PhaseOk(s, log, bus)
    requires log <= log' && bus <= bus'
    ensures PhaseOk(s, log', bus')
  {
    hide EndedBy, MissedEnd, Slice;
    assert forall i :: 0 <= i < |bus| ==> bus'[i] == bus[i];
    var n := s.highest + |Backlog(s.phase)|;
    EndedStays(log, log', s.statusAt);
    EndedStays(log, log', s.highest);
    EndedStays(log, log', n);
    if MissedEnd(s, log) {
      MissGrows(s, log, log');
    }
    if (s.phase.Replaying? || s.phase.Tailing?) && EndedBy(log', n) && !EndedBy(log, n) {
      NewEndIsMissed(s, log, log', n);
    }
    if s.phase.Tailing? && EndedBy(log', s.highest) && !EndedBy(log, s.highest) {
      NewEndIsMissed(s, log, log', s.highest);
    }
  }

  lemma EndedStays(log: Log, log': Log, n: int)
    requires log <= log'
    ensures EndedBy(log, n) ==> EndedBy(log', n)
    ensures n <= |log| ==> (EndedBy(log, n) <==> EndedBy(log', n))
  {
    EndedByGrows(log, log', n);
  }

  // ---- Stream steps -----------------------------------------------------

  lemma ReadReplayKeeps(w: World)
    requires WorldOk(w)
    ensures StreamOk(StreamStep(w, ReadReplay), w.logs[w.stream.task], w.bus)
  {
    hide BusOk, HasEnded, ShouldTail, EventsAfter, EndedBy;
    var s := w.stream;
    var log := w.logs[s.task];
    if s.phase.Subscribed? {
      BusStaysBehind(w);
      EventsAfterIsSuffix(log, s.task, s.cursor);
      HandOver(s, log, s.phase.terminal);
      var s' := StreamStep(w, ReadReplay);
      assert s'.highest + |s'.phase.rest| == if s.cursor <= |log| then |log| else s.cursor;
    }
  }

  /** Nothing is on the channel that is not in the log. */
  lemma BusStaysBehind(w: World)
    requires BusOk(w) && w.stream.task < |w.logs|
    ensures LogOk(w.logs[w.stream.task], w.stream.task)
    ensures forall i :: 0 <= i < |w.bus| && w.bus[i].taskId == w.stream.task ==> w.bus[i].sequence <= |w.logs[w.stream.task]|
  {
    forall i | 0 <= i < |w.bus| && w.bus[i].taskId == w.stream.task
      ensures w.bus[i].sequence <= |w.logs[w.stream.task]|
    {
      assert IsPublished(w, w.bus[i]);
    }
  }

  /** What the hand-over decides, against what the log says. */
  lemma HandOver(s: Stream, log: Log, terminal: bool)
    requires LogOk(log, s.task) && ReadOk(s, log, terminal)
    ensures
      var replay := EventsAfter(log, s.cursor);
      var horizon := if s.cursor <= |log| then |log| else s.cursor;
      && (!ShouldTail(terminal, replay) ==> EndedBy(log, horizon))
      && (ShouldTail(terminal, replay) && EndedBy(log, horizon) ==> MissedEnd(s.(replayedAt := |log|), log))
  {
    EventsAfterIsSuffix(log, s.task, s.cursor);
    var replay := EventsAfter(log, s.cursor);
    var horizon := if s.cursor <= |log| then |log| else s.cursor;
    assert replay != [] ==> replay[|replay| - 1] == log[|log| - 1];
    if terminal {
      var k :| 0 <= k < |log| && k < s.statusAt && log[k].eventType.IsTerminal();
      assert k < horizon;
    } else if ShouldTail(terminal, replay) && EndedBy(log, horizon) {
      var k :| 0 <= k < |log| && k < horizon && log[k].eventType.IsTerminal();
      assert k >= s.statusAt;
    }
  }

  lemma SliceStep(log: Log, a: int, b: int)
    requires 0 <= a <= b < |log|
    ensures Slice(log, a, b + 1) == Slice(log, a, b) + [log[b]]
  {
  }

  lemma SendReplayKeeps(w: World)
    requires WorldOk(w)
    ensures StreamOk(StreamStep(w, SendReplay), w.logs[w.stream.task], w.bus)
  {
    var s := w.stream;
    var log := w.logs[s.task];
    if s.phase.Replaying? && s.phase.rest != [] {
      assert LogOk(log, s.task);
      assert s.phase.rest[0] == log[s.highest];
      SliceStep(log, s.cursor, s.highest);
    }
  }

  /** A new event from the channel is always the next one of the log. */
  lemma NewEventIsNext(w: World, i: nat)
    requires BusOk(w) && w.stream.task < |w.logs| && w.stream.highest >= 0
    requires i < |w.bus| && w.bus[i].taskId == w.stream.task && w.bus[i].sequence > w.stream.highest
    requires forall j :: 0 <= j < i && w.bus[j].taskId == w.stream.task ==> w.bus[j].sequence <= w.stream.highest
    ensures
      var s, log := w.stream, w.logs[w.stream.task];
      s.highest < |log| && w.bus[i].sequence == s.highest + 1 && w.bus[i] == log[s.highest]
  {
    var e := w.bus[i];
    assert IsPublished(w, e);
    if e.sequence > 1 {
      var j :| 0 <= j < i && j < |w.bus| && w.bus[j].taskId == w.stream.task && w.bus[j].sequence == e.sequence - 1;
      assert e.sequence - 1 <= w.stream.highest;
    }
  }

  lemma ReceiveKeeps(w: World)
    requires WorldOk(w)
    ensures StreamOk(StreamStep(w, Receive), w.logs[w.stream.task], w.bus)
  {
    hide BusOk;
    var s := w.stream;
    var log := w.logs[s.task];
    if s.phase == Tailing([]) && s.position < |w.bus| {
      var e := w.bus[s.position];
      if e.taskId == s.task && e.sequence > s.highest {
        NewEventIsNext(w, s.position);
        SliceStep(log, s.cursor, s.highest);
        OneMoreDelivered(s, log, e);
      }
    }
  }

  /** Delivering the next log entry live: an end is noticed at once. */
  lemma OneMoreDelivered(s: Stream, log: Log, e: Event)
    requires 0 <= s.highest < |log| && e == log[s.highest]
    requires EndedBy(log, s.highest) ==> MissedEnd(s, log)
    ensures e.eventType.IsTerminal() ==> EndedBy(log, s.highest + 1)
    ensures !e.eventType.IsTerminal() && EndedBy(log, s.highest + 1) ==> MissedEnd(s, log)
  {
    if !e.eventType.IsTerminal() && EndedBy(log, s.highest + 1) {
      var k :| 0 <= k < |log| && k < s.highest + 1 && log[k].eventType.IsTerminal();
      assert k < s.highest;
    }
  }

  lemma LagKeeps(w: World, to: nat)
    requires WorldOk(w)
    ensures StreamOk(StreamStep(w, Lag(to)), w.logs[w.stream.task], w.bus)
  {
    hide BusOk, EventsAfter, HasEnded;
    var s := w.stream;
    if s.phase == Tailing([]) && s.position < to <= |w.bus| {
      BusStaysBehind(w);
      EventsAfterIsSuffix(w.logs[s.task], s.task, s.highest);
    }
  }

  lemma SendBatchKeeps(w: World)
    requires WorldOk(w)
    ensures StreamOk(StreamStep(w, SendBatch), w.logs[w.stream.task], w.bus)
  {
    var s := w.stream;
    var log := w.logs[s.task];
    if s.phase.Tailing? && s.phase.batch != [] {
      assert LogOk(log, s.task);
      assert s.phase.batch[0] == log[s.highest];
      SliceStep(log, s.cursor, s.highest);
      OneMoreDelivered(s, log, s.phase.batch[0]);
    }
  }

  lemma ReadStatusKeeps(w: World)
    requires WorldOk(w)
    ensures StreamOk(StreamStep(w, ReadStatus), w.logs[w.stream.task], w.bus)
  {
    EndedMeans(w.logs[w.stream.task], w.stream.task);
  }

  lemma StreamStepKeeps(w: World, step: Step)
    requires WorldOk(w)
    ensures StreamOk(StreamStep(w, step), w.logs[w.stream.task], w.bus)
    ensures StreamStep(w, step).task == w.stream.task && StreamStep(w, step).cursor == w.stream.cursor
  {
    hide BusOk;
    match step
    case ReadStatus => ReadStatusKeeps(w);
    case ReadReplay => ReadReplayKeeps(w);
    case SendReplay => SendReplayKeeps(w);
    case Receive => ReceiveKeeps(w);
    case Lag(to) => LagKeeps(w, to);
    case SendBatch => SendBatchKeeps(w);
    case _ =>
  }

  lemma StepKeeps(w: World, step: Step)
    requires WorldOk(w)
    ensures WorldOk(Next(w, step))
    ensures Next(w, step).stream.task == w.stream.task && Next(w, step).stream.cursor == w.stream.cursor
    ensures |Next(w, step).logs| == |w.logs| && forall t :: 0 <= t < |w.logs| ==> w.logs[t] <= Next(w, step).logs[t]
  {
    hide StreamOk, BusOk, StreamStep, HasEnded;
    BusIsSized(w);
    var w' := Next(w, step);
    match step
    case Commit(t, eventType, payload, createdAt) =>
      CommitKeepsBus(w, t, eventType, payload, createdAt);
      GrowthKeepsStream(w.stream, w.logs[w.stream.task], w'.logs[w.stream.task], w.bus, w'.bus);
    case Publish(t) =>
      PublishKeepsBus(w, t);
      GrowthKeepsStream(w.stream, w.logs[w.stream.task], w'.logs[w.stream.task], w.bus, w'.bus);
    case Republish(t, k) =>
      RepublishKeepsBus(w, t, k);
      GrowthKeepsStream(w.stream, w.logs[w.stream.task], w'.logs[w.stream.task], w.bus, w'.bus);
    case _ =>
      StreamStepKeeps(w, step);
      SameWorldKeepsBus(w, w');
  }

  lemma BusIsSized(w: World)
    requires BusOk(w)
    ensures |w.published| == |w.logs|
  {
  }

  lemma SameWorldKeepsBus(w: World, w': World)
    requires BusOk(w) && w' == w.(stream := w'.stream)
    ensures BusOk(w')
  {
    forall i | 0 <= i < |w'.bus|
      ensures IsPublished(w', w'.bus[i])
    {
      assert IsPublished(w, w.bus[i]);
    }
  }

  // ---- Every run --------------------------------------------------------

  function After(w: World, steps: seq<Step>): (w': World)
    requires WorldOk(w)
    ensures WorldOk(w')
    ensures w'.stream.task == w.stream.task && w'.stream.cursor == w.stream.cursor && |w'.logs| == |w.logs|
  {
    if steps == [] then w
    else
      var before, step := After(w, steps[..|steps| - 1]), steps[|steps| - 1];
      StepKeeps(before, step);
      Next(before, step)
  }

  lemma InitialIsOk(w: World)
    requires Initial(w)
    ensures WorldOk(w)
  {
  }

  lemma {:induction false} LogsGrow(w: World, steps: seq<Step>, t: nat)
    requires WorldOk(w) && t < |w.logs|
    ensures w.logs[t] <= After(w, steps).logs[t]
  {
    hide WorldOk, Next;
    if steps != [] {
      var n := |steps| - 1;
      LogsGrow(w, steps[..n], t);
      StepKeeps(After(w, steps[..n]), steps[n]);
    }
  }

  /** For every interleaving, what a stream has delivered is exactly the log entries
      numbered above its cursor and up to its high-water mark: in order, with no gap
      and no duplicate. */
  lemma {:induction false} StreamIsFaithful(w: World, steps: seq<Step>)
    requires Initial(w)
    ensures WorldOk(w)
    ensures
      var s := After(w, steps).stream;
      var log := After(w, steps).logs[w.stream.task];
      && s.task == w.stream.task && s.cursor == w.stream.cursor <= s.highest
      && s.delivered == Slice(log, s.cursor, s.highest)
      && (s.delivered != [] ==> |s.delivered| == s.highest - s.cursor)
      && (forall i :: 0 <= i < |s.delivered| ==> s.delivered[i].sequence == s.cursor + 1 + i && s.delivered[i].taskId == s.task)
  {
    InitialIsOk(w);
    var w' := After(w, steps);
    assert LogOk(w'.logs[w.stream.task], w.stream.task);
  }

  /** An open stream that has received everything published has delivered the whole
      log behind its cursor. */
  lemma {:induction false} DrainedStreamIsComplete(w: World, steps: seq<Step>)
    requires Initial(w)
    ensures WorldOk(w)
    ensures
      var w' := After(w, steps);
      var s, log := w'.stream, w'.logs[w.stream.task];
      s.phase == Tailing([]) && s.position == |w'.bus| && w'.published[w.stream.task] == |log| ==>
        s.delivered == if s.cursor <= |log| then log[s.cursor..] else []
  {
    InitialIsOk(w);
    var w' := After(w, steps);
    var s, log := w'.stream, w'.logs[w.stream.task];
    if s.phase == Tailing([]) && s.position == |w'.bus| && w'.published[s.task] == |log| && log != [] {
      assert SentBefore(w'.bus, s.task, |log|, |w'.bus|);
      assert |log| <= s.highest;
    }
  }

  /** What ends a stream: an event or the end of the replay, a client that goes away once it
      is being sent to, or, while tailing, a closed channel or an unreadable store. */
  lemma EndsForItsReason(w: World, step: Step)
    requires w.stream.task < |w.logs| && !w.stream.phase.Ended?
    ensures
      var phase, phase' := w.stream.phase, StreamStep(w, step).phase;
      && (phase' == Ended(Finished) ==> step == FinishReplay || step == Receive || step == SendBatch)
      && (phase' == Ended(ClientLost) <==> step == LoseClient && (phase.Replaying? || phase.Tailing?))
      && (phase' == Ended(BusClosed) <==> step == CloseBus && phase.Tailing?)
      && (phase' == Ended(StoreFailed) <==> step == FailStore && phase.Tailing?)
  {
  }

  /** If a stream ends by itself, the task's log has a terminal event, and it was
      delivered or lies at or before the cursor. */
  lemma {:induction false} StreamNeverEndsEarly(w: World, steps: seq<Step>)
    requires Initial(w)
    ensures WorldOk(w)
    ensures
      var s, log := After(w, steps).stream, After(w, steps).logs[w.stream.task];
      s.phase == Ended(Finished) ==>
        exists k :: 0 <= k < |log| && log[k].eventType.IsTerminal() && (k < s.cursor || log[k] in s.delivered)
  {
    InitialIsOk(w);
    EndWasSeen(After(w, steps));
  }

  lemma EndWasSeen(w: World)
    requires WorldOk(w)
    ensures
      var s, log := w.stream, w.logs[w.stream.task];
      s.phase == Ended(Finished) ==>
        exists k :: 0 <= k < |log| && log[k].eventType.IsTerminal() && (k < s.cursor || log[k] in s.delivered)
  {
    hide BusOk;
    var s, log := w.stream, w.logs[w.stream.task];
    if s.phase == Ended(Finished) {
      var k :| 0 <= k < |log| && k < s.highest && log[k].eventType.IsTerminal();
      if k >= s.cursor {
        assert s.delivered[k - s.cursor] == log[k];
      }
    }
  }

  /** A stream that stays open past its task's end missed it at the hand-over: the end
      came after the status read, and lay at or before the cursor or was followed by
      another event in the replay. */
  lemma {:induction false} OpenStreamPastEndMissedIt(w: World, steps: seq<Step>)
    requires Initial(w)
    ensures WorldOk(w)
    ensures
      var s := After(w, steps).stream;
      var log := After(w, steps).logs[w.stream.task];
      s.phase.Tailing? && EndedBy(log, s.highest) ==> MissedEnd(s, log)
  {
    InitialIsOk(w);
  }

  /** The hand-over goes on to tail a log that already holds its end exactly when the
      status was read before that end and the last replayed event, if any, is another. */
  lemma HandOverMissesEndExactly(s: Stream, log: Log)
    requires LogOk(log, s.task) && s.statusAt <= |log|
    requires EndedBy(log, |log|)
    ensures
      ShouldTail(EndedBy(log, s.statusAt), EventsAfter(log, s.cursor)) <==>
        && !EndedBy(log, s.statusAt)
        && (s.cursor >= |log| || !log[|log| - 1].eventType.IsTerminal())
  {
    EventsAfterIsSuffix(log, s.task, s.cursor);
  }

  // ---- The store behind the logs ----------------------------------------

  lemma OpenPathHasNoEnd(log: Log, next: TaskStatus)
    requires IsPath(History(log) + [next])
    ensures forall i :: 0 <= i < |log| ==> !log[i].eventType.IsTerminal()
  {
    hide IsPath, History;
    var history := History(log) + [next];
    forall i | 0 <= i < |log|
      ensures !log[i].eventType.IsTerminal()
    {
      if log[i].eventType.IsTerminal() {
        var s := StatusOf(log[i].eventType).value;
        HistoryMembers(log, s);
        var k :| 0 <= k < |History(log)| && History(log)[k] == s;
        assert history[k] == s;
        PathsAreShort(history);
      }
    }
  }

  /** In a log whose lifecycle events form a path, none follows a terminal one. */
  lemma {:induction false} PathEndsOnce(log: Log)
    requires History(log) == [] || IsPath(History(log))
    ensures QuietAfterEnd(log)
  {
    if log != [] {
      var n := |log| - 1;
      var init, status := log[..n], StatusOf(log[n].eventType);
      PathPrefix(History(init), status);
      PathEndsOnce(init);
      assert forall i :: 0 <= i < n ==> init[i] == log[i];
      if status.Some? {
        OpenPathHasNoEnd(init, status.value);
      }
    }
  }

  lemma PathPrefix(history: seq<TaskStatus>, status: Option<TaskStatus>)
    requires var h := history + (if status.Some? then [status.value] else []); h == [] || IsPath(h)
    ensures history == [] || IsPath(history)
  {
    if status.None? {
      assert history + [] == history;
    } else if history != [] {
      var h := history + [status.value];
      assert forall i :: 0 <= i < |history| ==> h[i] == history[i];
    }
  }

  /** Every log of a store in good order can be streamed, and a task's status is terminal
      exactly when its log holds a terminal event. */
  lemma StoreLogsCanBeStreamed(db: Db, t: nat)
    requires StoreOk(db) && t < |db.entries|
    ensures LogOk(db.entries[t].log, t)
    ensures HasEnded(db.entries[t].log) <==> db.entries[t].task.status.IsTerminal()
  {
    hide PermissionsOk, LocksExclusive;
    assert Sourced(db.entries[t], t);
    PathEndsOnce(db.entries[t].log);
  }

  /** The commits that add the entries of `log'` behind the first n. */
  function CommitsOf(log': Log, t: nat, n: nat): seq<Step>
    requires n <= |log'|
  {
    if n == |log'| then []
    else
      var e := log'[|log'| - 1];
      CommitsOf(log'[..|log'| - 1], t, n) + [Commit(t, e.eventType, e.payload, e.createdAt)]
  }

  /** Whatever a store does to a log between two moments, some run of commits does it here. */
  lemma {:induction false} GrowthIsARunOfCommits(w: World, t: nat, log': Log)
    requires WorldOk(w) && t < |w.logs|
    requires w.logs[t] <= log' && LogOk(log', t)
    ensures After(w, CommitsOf(log', t, |w.logs[t]|)) == w.(logs := w.logs[t := log'])
    decreases |log'|
  {
    hide WorldOk;
    if log' == w.logs[t] {
      assert CommitsOf(log', t, |w.logs[t]|) == [];
    } else {
      var n := |log'| - 1;
      var init, e := log'[..n], log'[n];
      GrowthIsARunOfCommits(w, t, init);
      var steps, all := CommitsOf(init, t, |w.logs[t]|), CommitsOf(log', t, |w.logs[t]|);
      assert all == steps + [Commit(t, e.eventType, e.payload, e.createdAt)];
      assert all[..|all| - 1] == steps;
      EndedMeans(init, t);
      assert StatusOf(e.eventType).Some? ==> !HasEnded(init);
      assert init + [e] == log';
    }
  }

  // ---- Why publications must come in commit order -----------------------

  function Top(start: int, forwarded: seq<int>): int {
    if forwarded == [] then start else forwarded[|forwarded| - 1]
  }

  /** The numbers a tail with the given high-water mark forwards, out of those the channel carries. */
  function Forwarded(start: int, numbers: seq<int>): seq<int> {
    if numbers == [] then []
    else
      var before, n := Forwarded(start, numbers[..|numbers| - 1]), numbers[|numbers| - 1];
      if n > Top(start, before) then before + [n] else before
  }

  ghost predicate Gapless(start: int, numbers: seq<int>) {
    forall i :: 0 <= i < |numbers| ==> numbers[i] == start + i + 1
  }

  /** Behind the mark, no number is sent before its predecessor has been. */
  ghost predicate InOrder(start: int, numbers: seq<int>) {
    forall i :: 0 <= i < |numbers| ==> IsPreceded(start, numbers, i)
  }

  ghost predicate IsPreceded(start: int, numbers: seq<int>, i: nat)
    requires i < |numbers|
  {
    numbers[i] > start + 1 ==> numbers[i] - 1 in numbers[..i]
  }

  lemma InOrderOfAppend(start: int, init: seq<int>, n: int)
    ensures InOrder(start, init + [n]) <==> InOrder(start, init) && (n > start + 1 ==> n - 1 in init)
  {
    var numbers := init + [n];
    forall i | 0 <= i < |init|
      ensures IsPreceded(start, numbers, i) <==> IsPreceded(start, init, i)
    {
      assert numbers[..i] == init[..i];
    }
    assert numbers[..|init|] == init;
    assert IsPreceded(start, numbers, |init|) <==> (n > start + 1 ==> n - 1 in init);
  }

  lemma GaplessOfAppend(start: int, before: seq<int>, n: int)
    ensures Gapless(start, before + [n]) <==> Gapless(start, before) && n == start + |before| + 1
  {
    assert forall i :: 0 <= i < |before| ==> (before + [n])[i] == before[i];
    assert (before + [n])[|before|] == n;
  }

  /** Behind the mark, `numbers` mentions exactly the next n. */
  ghost predicate Covers(start: int, numbers: seq<int>, n: nat) {
    (forall m :: m in numbers ==> m <= start + n) && (forall m :: start < m <= start + n ==> m in numbers)
  }

  lemma CoversOfAppend(start: int, init: seq<int>, k: nat, n: int)
    requires Covers(start, init, k)
    ensures n <= start + k ==> Covers(start, init + [n], k)
    ensures n == start + k + 1 ==> Covers(start, init + [n], k + 1)
    ensures n > start + k + 1 ==> n - 1 !in init
    ensures start + 1 < n <= start + k + 1 ==> n - 1 in init
  {
  }

  /** From any high-water mark, a tail forwards a task's events without a gap if and only
      if, behind the mark, first publications reach the channel in commit order; repeats
      are harmless. */
  lemma {:induction false} GaplessExactlyWhenInOrder(start: int, numbers: seq<int>)
    ensures Gapless(start, Forwarded(start, numbers)) <==> InOrder(start, numbers)
    ensures Gapless(start, Forwarded(start, numbers)) ==> Covers(start, numbers, |Forwarded(start, numbers)|)
  {
    hide InOrder, Covers;
    if numbers == [] {
      EmptyIsInOrder(start);
    } else {
      var init, n := numbers[..|numbers| - 1], numbers[|numbers| - 1];
      assert numbers == init + [n];
      GaplessExactlyWhenInOrder(start, init);
      InOrderOfAppend(start, init, n);
      var before := Forwarded(start, init);
      GaplessOfAppend(start, before, n);
      if Gapless(start, before) {
        assert Top(start, before) == start + |before|;
        CoversOfAppend(start, init, |before|, n);
      }
    }
  }

  lemma EmptyIsInOrder(start: int)
    ensures InOrder(start, []) && Covers(start, [], 0)
  {
  }

  /** The tail loop on events from the channel, until it ends. */
  function ReceiveAll(s: Stream, events: Log): Stream {
    if events == [] then s
    else
      var before := ReceiveAll(s, events[..|events| - 1]);
      if before.phase.Ended? then before else OnEvent(before, events[|events| - 1])
  }

  /** The numbers of a task's events. */
  function Numbers(events: Log, task: nat): seq<int> {
    if events == [] then []
    else
      var last := events[|events| - 1];
      Numbers(events[..|events| - 1], task) + (if last.taskId == task then [last.sequence] else [])
  }

  lemma NumbersOfAppend(events: Log, e: Event, task: nat)
    ensures Numbers(events + [e], task) == Numbers(events, task) + (if e.taskId == task then [e.sequence] else [])
  {
    assert (events + [e])[..|events|] == events;
  }

  lemma ForwardedOfAppend(start: int, numbers: seq<int>, n: int)
    ensures
      var before := Forwarded(start, numbers);
      Forwarded(start, numbers + [n]) == if n > Top(start, before) then before + [n] else before
  {
    assert (numbers + [n])[..|numbers|] == numbers;
  }

  /** Forwarding by number is what the tail loop does with the channel, whatever else it
      carries: what it has added is what it forwards of the events up to the one that
      ended it, or of all of them. */
  lemma {:induction false} TailForwardsByNumber(s: Stream, events: Log) returns (k: nat)
    requires !s.phase.Ended?
    ensures k <= |events|
    ensures
      var s', forwarded := ReceiveAll(s, events), Forwarded(s.highest, Numbers(events[..k], s.task));
      && s'.task == s.task
      && (s'.phase.Ended? || k == |events|)
      && s.delivered <= s'.delivered
      && Numbers(s'.delivered, s.task) == Numbers(s.delivered, s.task) + forwarded
      && s'.highest == Top(s.highest, forwarded)
  {
    hide OnEvent, Forwarded, Numbers, Top;
    if events == [] {
      k := 0;
      NothingIsForwarded(s);
    } else {
      var n := |events| - 1;
      k := TailForwardsByNumber(s, events[..n]);
      var before := ReceiveAll(s, events[..n]);
      assert events[..n][..k] == events[..k];
      if !before.phase.Ended? {
        k := n + 1;
        assert events[..k] == events[..n] + [events[n]] && events[..n][..n] == events[..n];
        NumbersOfAppend(events[..n], events[n], s.task);
        OneMoreForwarded(s, before, events[n], Numbers(events[..n], s.task));
      }
    }
  }

  lemma NothingIsForwarded(s: Stream)
    ensures Forwarded(s.highest, Numbers([], s.task)) == [] && Top(s.highest, []) == s.highest
  {
  }

  lemma OneMoreForwarded(s: Stream, before: Stream, e: Event, numbers: seq<int>)
    requires before.task == s.task && before.highest == Top(s.highest, Forwarded(s.highest, numbers))
    requires s.delivered <= before.delivered
    requires Numbers(before.delivered, s.task) == Numbers(s.delivered, s.task) + Forwarded(s.highest, numbers)
    ensures
      var s' := OnEvent(before, e);
      var forwarded := Forwarded(s.highest, numbers + (if e.taskId == s.task then [e.sequence] else []));
      && s'.task == s.task
      && s.delivered <= s'.delivered
      && Numbers(s'.delivered, s.task) == Numbers(s.delivered, s.task) + forwarded
      && s'.highest == Top(s.highest, forwarded)
  {
    hide Numbers;
    if e.taskId == s.task {
      ForwardedOfAppend(s.highest, numbers, e.sequence);
      NumbersOfAppend(before.delivered, e, s.task);
    } else {
      assert numbers + [] == numbers;
    }
  }

  // ---- The tail loop as the program runs it -----------------------------

  /** What one `recv` on the channel answers; lag comes with the rows the store then returns, if it can. */
  datatype Received = Got(event: Event) | Lagged(stored: Log) | LaggedUnreadable | Closed

  /** A step that sends to the client, who is gone once it has taken `room` events. */
  function Offered(s: Stream, s': Stream, room: nat): Stream {
    if |s'.delivered| > |s.delivered| && |s.delivered| >= room then s.(phase := Ended(ClientLost)) else s'
  }

  function SendStored(s: Stream, room: nat): Stream
    decreases if s.phase.Tailing? then |s.phase.batch| else 0
  {
    if s.phase.Tailing? && s.phase.batch != [] then SendStored(Offered(s, OnStored(s), room), room) else s
  }

  function OnReceived(s: Stream, r: Received, room: nat): Stream {
    match r
    case Got(e) => Offered(s, OnEvent(s, e), room)
    case Lagged(stored) => SendStored(s.(phase := Tailing(stored)), room)
    case LaggedUnreadable => s.(phase := Ended(StoreFailed))
    case Closed => s.(phase := Ended(BusClosed))
  }

  function Follow(s: Stream, feed: seq<Received>, room: nat): Stream
    decreases |feed|
  {
    if feed == [] || s.phase.Ended? then s else Follow(OnReceived(s, feed[0], room), feed[1..], room)
  }

  /** Handing an event to the client: refused once it is gone. */
  method Send(delivered: Log, event: Event, room: nat) returns (sent: bool, delivered': Log)
    ensures sent <==> |delivered| < room
    ensures delivered' == if sent then delivered + [event] else delivered
  {
    sent := |delivered| < room;
    delivered' := if sent then delivered + [event] else delivered;
  }

  method TailLoop(start: Stream, feed: seq<Received>, room: nat) returns (delivered: Log, end: Option<End>)
    requires start.phase == Tailing([])
    ensures
      var s := Follow(start, feed, room);
      delivered == s.delivered && end == if s.phase.Ended? then Some(s.phase.end) else None
  {
    hide Follow, SendStored;
    var highest := start.highest;
    delivered, end := start.delivered, None;
    FollowSteps(start, feed, room);
    var i := 0;
    while i < |feed| && end.None?
      invariant 0 <= i <= |feed|
      invariant end.None? ==>
        Follow(start, feed, room) == Follow(start.(highest := highest, delivered := delivered), feed[i..], room)
      invariant end.Some? ==>
        Follow(start, feed, room).delivered == delivered && Follow(start, feed, room).phase == Ended(end.value)
      decreases |feed| - i
    {
      ghost var before := start.(highest := highest, delivered := delivered);
      FollowSteps(before, feed[i..], room);
      assert feed[i..][0] == feed[i] && feed[i..][1..] == feed[i + 1..];
      FollowSteps(OnReceived(before, feed[i], room), feed[i + 1..], room);
      match feed[i] {
      case Got(event) =>
        if event.taskId == start.task && event.sequence > highest {
          var sent;
          sent, delivered := Send(delivered, event, room);
          if !sent {
            end := Some(ClientLost);
          } else {
            highest := event.sequence;
            if event.eventType.IsTerminal() {
              end := Some(Finished);
            }
          }
        }
      case Lagged(stored) =>
        ghost var lagging := before.(phase := Tailing(stored));
        SendSteps(lagging, room);
        var j := 0;
        while j < |stored| && end.None?
          invariant 0 <= j <= |stored|
          invariant end.None? ==>
            SendStored(lagging, room) ==
            SendStored(start.(highest := highest, delivered := delivered, phase := Tailing(stored[j..])), room)
          invariant end.Some? ==>
            SendStored(lagging, room).delivered == delivered && SendStored(lagging, room).phase == Ended(end.value)
        {
          ghost var s := start.(highest := highest, delivered := delivered, phase := Tailing(stored[j..]));
          SendSteps(s, room);
          SendSteps(Offered(s, OnStored(s), room), room);
          assert stored[j..][0] == stored[j] && stored[j..][1..] == stored[j + 1..];
          if stored[j].sequence > highest {
            var sent;
            sent, delivered := Send(delivered, stored[j], room);
            if !sent {
              end := Some(ClientLost);
            } else {
              highest := stored[j].sequence;
              if stored[j].eventType.IsTerminal() {
                end := Some(Finished);
              }
            }
          }
          j := j + 1;
        }
        SendSteps(start.(highest := highest, delivered := delivered, phase := Tailing(stored[j..])), room);
      case LaggedUnreadable =>
        end := Some(StoreFailed);
      case Closed =>
        end := Some(BusClosed);
      }
      i := i + 1;
    }
    FollowSteps(start.(highest := highest, delivered := delivered), feed[i..], room);
  }

  lemma FollowSteps(s: Stream, feed: seq<Received>, room: nat)
    ensures Follow(s, feed, room) ==
            if feed == [] || s.phase.Ended? then s else Follow(OnReceived(s, feed[0], room), feed[1..], room)
  {
  }

  lemma SendSteps(s: Stream, room: nat)
    ensures SendStored(s, room) ==
            if s.phase.Tailing? && s.phase.batch != [] then SendStored(Offered(s, OnStored(s), room), room) else s
  {
  }
}
