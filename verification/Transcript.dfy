/**
 The console's copy of a task's events: a cursor and a list kept in order, fed by
 event streams that may be cut, resumed, repeated or reordered.
 */
module Transcripts {
  import opened Results
  import opened Ordering
  import opened Store
  import opened StoreInvariants
  import EventStreams

  function Number(e: Event): int {
    e.sequence
  }

  // ---- Applying an event ------------------------------------------------

  /** `retain`: everything not numbered n, in order. */
  function Without(events: Log, n: int): Log {
    if events == [] then []
    else
      var last := events[|events| - 1];
      Without(events[..|events| - 1], n) + (if last.sequence != n then [last] else [])
  }

  /** Behind every event with a number no greater. */
  function Insert(events: Log, e: Event): Log {
    if events == [] || events[|events| - 1].sequence <= e.sequence then events + [e]
    else Insert(events[..|events| - 1], e) + [events[|events| - 1]]
  }

  /** `sort_by_key` on the sequence, which keeps equal keys in their order. */
  function SortBySequence(events: Log): Log {
    if events == [] then [] else Insert(SortBySequence(events[..|events| - 1]), events[|events| - 1])
  }

  function Apply(events: Log, next: Event): Log {
    SortBySequence(Without(events, next.sequence) + [next])
  }

  function ApplyAll(events: Log, feed: Log): Log {
    if feed == [] then events else Apply(ApplyAll(events, feed[..|feed| - 1]), feed[|feed| - 1])
  }

  function Observe(latest: Option<int>, e: Event): Option<int> {
    Some(if latest.Some? && latest.value > e.sequence then latest.value else e.sequence)
  }

  // ---- Sorting ----------------------------------------------------------

  ghost predicate Ordered(events: Log) {
    StrictlyOrdered(Number, events)
  }

  lemma {:induction false} InsertSorts(events: Log, e: Event)
    requires Ordered(events) && forall x :: x in events ==> x.sequence != e.sequence
    ensures Ordered(Insert(events, e))
    ensures forall x :: x in Insert(events, e) <==> x in events || x == e
  {
    if events != [] && events[|events| - 1].sequence > e.sequence {
      var init, last := events[..|events| - 1], events[|events| - 1];
      InsertSorts(init, e);
      assert forall x :: x in events <==> x in init || x == last;
      assert forall x :: x in init ==> Number(x) < Number(last);
    }
  }

  lemma {:induction false} SortedStays(events: Log)
    requires Ordered(events)
    ensures SortBySequence(events) == events
  {
    if events != [] {
      var init, last := events[..|events| - 1], events[|events| - 1];
      SortedStays(init);
      assert init != [] ==> Number(init[|init| - 1]) < Number(last);
    }
  }

  lemma {:induction false} WithoutMeans(events: Log, n: int)
    ensures forall x :: x in Without(events, n) <==> x in events && x.sequence != n
    ensures Ordered(events) ==> Ordered(Without(events, n))
  {
    if events != [] {
      var init, last := events[..|events| - 1], events[|events| - 1];
      WithoutMeans(init, n);
      assert forall x :: x in events <==> x in init || x == last;
      if Ordered(events) {
        assert forall x :: x in init ==> Number(x) < Number(last);
      }
    }
  }

  /** On a list in order: the new event takes the place of any with its number, nothing
      else changes, and the list is in order again. */
  lemma ApplyMeans(events: Log, next: Event)
    requires Ordered(events)
    ensures Ordered(Apply(events, next))
    ensures forall x :: x in Apply(events, next) <==> x == next || (x in events && x.sequence != next.sequence)
  {
    var kept := Without(events, next.sequence);
    WithoutMeans(events, next.sequence);
    SortedStays(kept);
    assert (kept + [next])[..|kept|] == kept;
    InsertSorts(kept, next);
  }

  // ---- Any delivery -----------------------------------------------------

  /** The last event with its number in a feed. */
  ghost predicate LastOfItsNumber(feed: Log, e: Event) {
    exists i :: 0 <= i < |feed| && feed[i] == e && forall j :: i < j < |feed| ==> feed[j].sequence != e.sequence
  }

  lemma LastOfAppend(feed: Log, next: Event, e: Event)
    ensures LastOfItsNumber(feed + [next], e) <==> e == next || (LastOfItsNumber(feed, e) && e.sequence != next.sequence)
  {
    var feed' := feed + [next];
    if e == next {
      assert feed'[|feed|] == e;
    }
    if LastOfItsNumber(feed, e) && e.sequence != next.sequence {
      var i :| 0 <= i < |feed| && feed[i] == e && forall j :: i < j < |feed| ==> feed[j].sequence != e.sequence;
      assert feed'[i] == e;
    }
    if LastOfItsNumber(feed', e) && e != next {
      var i :| 0 <= i < |feed'| && feed'[i] == e && forall j :: i < j < |feed'| ==> feed'[j].sequence != e.sequence;
      assert feed[i] == e && feed'[|feed|] == next;
      assert forall j :: i < j < |feed| ==> feed[j] == feed'[j];
    }
  }

  /** Whatever arrives, the list is in strict order and holds, for every number that
      arrived, the event that arrived last with it; and nothing else. */
  lemma {:induction false} FoldMeans(feed: Log)
    ensures Ordered(ApplyAll([], feed))
    ensures forall e :: e in ApplyAll([], feed) <==> LastOfItsNumber(feed, e)
  {
    if feed != [] {
      var init, last := feed[..|feed| - 1], feed[|feed| - 1];
      assert init + [last] == feed;
      FoldMeans(init);
      ApplyMeans(ApplyAll([], init), last);
      forall e
        ensures e in ApplyAll([], feed) <==> LastOfItsNumber(feed, e)
      {
        LastOfAppend(init, last, e);
      }
    }
  }

  /** Events with one number are one event, as in a log. */
  ghost predicate Consistent(feed: Log) {
    forall x, y :: x in feed && y in feed && x.sequence == y.sequence ==> x == y
  }

  lemma {:induction false} ConsistentFold(feed: Log)
    requires Consistent(feed)
    ensures forall e :: e in ApplyAll([], feed) <==> e in feed
    ensures Ordered(ApplyAll([], feed))
  {
    if feed != [] {
      var init, last := feed[..|feed| - 1], feed[|feed| - 1];
      assert init + [last] == feed;
      ConsistentFold(init);
      ApplyMeans(ApplyAll([], init), last);
    }
  }

  lemma LogIsConsistent(log: Log, id: nat, feed: Log)
    requires Numbered(log, id) && forall e :: e in feed ==> e in log
    ensures Consistent(feed)
  {
  }

  /** Two deliveries of the same log events, however repeated and reordered, leave the
      same strictly ordered list. */
  lemma DeliveryOrderDoesNotMatter(log: Log, id: nat, feed: Log, feed': Log)
    requires Numbered(log, id)
    requires forall e :: e in feed ==> e in log
    requires forall e :: e in feed <==> e in feed'
    ensures ApplyAll([], feed) == ApplyAll([], feed')
    ensures Ordered(ApplyAll([], feed))
  {
    LogIsConsistent(log, id, feed);
    LogIsConsistent(log, id, feed');
    ConsistentFold(feed);
    ConsistentFold(feed');
    SameMembersSameList(Number, ApplyAll([], feed), ApplyAll([], feed'));
  }

  lemma LogIsOrdered(log: Log, id: nat)
    requires Numbered(log, id)
    ensures Ordered(log)
  {
  }

  /** Hearing every event of a log at least once reproduces the log. */
  lemma FullDeliveryRestoresTheLog(log: Log, id: nat, feed: Log)
    requires Numbered(log, id) && forall e :: e in feed <==> e in log
    ensures ApplyAll([], feed) == log
  {
    LogIsConsistent(log, id, feed);
    ConsistentFold(feed);
    LogIsOrdered(log, id);
    SameMembersSameList(Number, ApplyAll([], feed), log);
  }

  // ---- Cut and resumed sessions -----------------------------------------

  datatype Client = Client(events: Log, latest: Option<int>)

  function Hear(c: Client, e: Event): Client {
    Client(Apply(c.events, e), Observe(c.latest, e))
  }

  function HearAll(c: Client, feed: Log): Client {
    if feed == [] then c else Hear(HearAll(c, feed[..|feed| - 1]), feed[|feed| - 1])
  }

  /** The list and the cursor of a client that has heard a feed: the cursor is the
      highest number heard. */
  lemma {:induction false} HearAllMeans(feed: Log)
    ensures
      var c := HearAll(Client([], None), feed);
      && c.events == ApplyAll([], feed)
      && (c.latest.None? <==> feed == [])
      && (c.latest.Some? ==> (exists e :: e in feed && e.sequence == c.latest.value) && forall e :: e in feed ==> e.sequence <= c.latest.value)
  {
    hide Apply;
    if feed != [] {
      var init, last := feed[..|feed| - 1], feed[|feed| - 1];
      HearAllMeans(init);
      assert init + [last] == feed;
      assert forall e :: e in feed <==> e in init || e == last;
    }
  }

  /** The cursor the client asks the next stream to start behind. */
  function Cursor(c: Client): int {
    if c.latest.Some? then c.latest.value else 0
  }

  /** The client holds exactly the log up to its cursor. */
  ghost predicate HoldsPrefix(c: Client, log: Log) {
    && 0 <= Cursor(c) <= |log|
    && c.events == log[..Cursor(c)]
  }

  lemma HearNext(c: Client, log: Log, id: nat)
    requires Numbered(log, id) && HoldsPrefix(c, log) && Cursor(c) < |log|
    ensures HoldsPrefix(Hear(c, log[Cursor(c)]), log) && Cursor(Hear(c, log[Cursor(c)])) == Cursor(c) + 1
  {
    var n := Cursor(c);
    var next := log[n];
    LogIsOrdered(log, id);
    ApplyMeans(c.events, next);
    assert log[..n + 1] == log[..n] + [next];
    assert Ordered(log[..n + 1]);
    assert forall x :: x in log[..n + 1] <==> x in log[..n] || x == next;
    SameMembersSameList(Number, Apply(c.events, next), log[..n + 1]);
  }

  lemma HearAllOfAppend(c: Client, feed: Log, e: Event)
    ensures HearAll(c, feed + [e]) == Hear(HearAll(c, feed), e)
  {
    assert (feed + [e])[..|feed|] == feed;
  }

  lemma HearNothing(c: Client)
    ensures HearAll(c, []) == c
  {
  }

  lemma {:induction false} HearSlice(c: Client, log: Log, id: nat, feed: Log)
    requires Numbered(log, id) && HoldsPrefix(c, log)
    requires Cursor(c) + |feed| <= |log| && feed == log[Cursor(c)..Cursor(c) + |feed|]
    ensures HoldsPrefix(HearAll(c, feed), log) && Cursor(HearAll(c, feed)) == Cursor(c) + |feed|
    decreases |feed|
  {
    hide Hear, HearAll, Numbered;
    if feed == [] {
      HearNothing(c);
    } else {
      var init, last := feed[..|feed| - 1], feed[|feed| - 1];
      HearSlice(c, log, id, init);
      HearAllOfAppend(c, init, last);
      assert feed == init + [last];
      HearNext(HearAll(c, init), log, id);
    }
  }

  /** One connection: the world it starts in, what then happens, and how many of the
      delivered events reach the client before the connection is cut. */
  datatype Session = Session(start: EventStreams.World, steps: seq<EventStreams.Step>, received: nat)

  /** The session streams `task` from the client's cursor, over a log that has grown
      from the one the client knew. */
  ghost predicate Continues(s: Session, c: Client, task: nat, log: Log) {
    && EventStreams.Initial(s.start)
    && s.start.stream.task == task
    && s.start.stream.cursor == Cursor(c)
    && log <= s.start.logs[task]
  }

  function LogAfter(s: Session): Log
    requires EventStreams.Initial(s.start)
  {
    EventStreams.InitialIsOk(s.start);
    EventStreams.After(s.start, s.steps).logs[s.start.stream.task]
  }

  function Received(s: Session): Log
    requires EventStreams.Initial(s.start)
  {
    EventStreams.InitialIsOk(s.start);
    var delivered := EventStreams.After(s.start, s.steps).stream.delivered;
    if s.received <= |delivered| then delivered[..s.received] else delivered
  }

  ghost predicate AllInitial(sessions: seq<Session>) {
    forall i :: 0 <= i < |sessions| ==> EventStreams.Initial(sessions[i].start)
  }

  /** The client after the sessions. */
  ghost function ClientAfter(sessions: seq<Session>): Client
    requires AllInitial(sessions)
  {
    if sessions == [] then Client([], None)
    else HearAll(ClientAfter(sessions[..|sessions| - 1]), Received(sessions[|sessions| - 1]))
  }

  /** The log as the last session left it. */
  ghost function LastLog(sessions: seq<Session>): Log
    requires AllInitial(sessions)
  {
    if sessions == [] then [] else LogAfter(sessions[|sessions| - 1])
  }

  /** Each session resumes where the client stands, on the log as it has grown since. */
  ghost predicate Resumed(sessions: seq<Session>, task: nat)
    requires AllInitial(sessions)
  {
    sessions != [] ==>
      var before := sessions[..|sessions| - 1];
      Resumed(before, task) && Continues(sessions[|sessions| - 1], ClientAfter(before), task, LastLog(before))
  }

  lemma SessionKeeps(s: Session, c: Client, task: nat, log: Log)
    requires HoldsPrefix(c, log) && Continues(s, c, task, log)
    ensures HoldsPrefix(HearAll(c, Received(s)), LogAfter(s))
    ensures log <= LogAfter(s) && Numbered(LogAfter(s), task)
  {
    hide HearAll, Numbered, EventStreams.After;
    StreamOfSession(s);
    EventStreams.LogsGrow(s.start, s.steps, task);
    var log', feed := LogAfter(s), Received(s);
    assert HoldsPrefix(c, log');
    HearSlice(c, log', task, feed);
  }

  /** What reaches the client is a stretch of the log behind its cursor. */
  lemma StreamOfSession(s: Session)
    requires EventStreams.Initial(s.start)
    ensures EventStreams.WorldOk(s.start)
    ensures
      var cursor, log, feed := s.start.stream.cursor, LogAfter(s), Received(s);
      && Numbered(log, s.start.stream.task)
      && (feed != [] ==> cursor + |feed| <= |log| && feed == log[cursor..cursor + |feed|])
  {
    EventStreams.InitialIsOk(s.start);
    EventStreams.StreamIsFaithful(s.start, s.steps);
    var w := EventStreams.After(s.start, s.steps);
    assert EventStreams.LogOk(w.logs[s.start.stream.task], s.start.stream.task);
  }

  /** Across any number of cut and resumed sessions the client holds exactly the log up
      to its cursor. */
  lemma {:induction false} ClientHoldsThePrefix(sessions: seq<Session>, task: nat)
    requires AllInitial(sessions) && Resumed(sessions, task)
    ensures HoldsPrefix(ClientAfter(sessions), LastLog(sessions))
  {
    hide HearAll, HoldsPrefix, Continues;
    if sessions == [] {
      NewClientHoldsNothing();
    } else {
      var before := sessions[..|sessions| - 1];
      ClientHoldsThePrefix(before, task);
      SessionKeeps(sessions[|sessions| - 1], ClientAfter(before), task, LastLog(before));
    }
  }

  lemma NewClientHoldsNothing()
    ensures HoldsPrefix(Client([], None), [])
  {
  }

  // ---- The console's own form -------------------------------------------

  class EventCursor {
    var latestSequence: Option<int>

    constructor ()
      ensures latestSequence == None
    {
      latestSequence := None;
    }

    method ObserveEvent(event: Event)
      modifies this
      ensures latestSequence == Observe(old(latestSequence), event)
    {
      if latestSequence.None? || latestSequence.value < event.sequence {
        latestSequence := Some(event.sequence);
      }
    }
  }

  class EventList {
    var events: Log

    constructor ()
      ensures events == []
    {
      events := [];
    }

    /** Retain, push, sort. */
    method ApplySseEvent(next: Event)
      modifies this
      ensures events == Apply(old(events), next)
    {
      var kept, i := [], 0;
      while i < |events|
        invariant 0 <= i <= |events| && events == old(events)
        invariant kept == Without(events[..i], next.sequence)
      {
        assert events[..i + 1][..i] == events[..i];
        if events[i].sequence != next.sequence {
          kept := kept + [events[i]];
        }
        i := i + 1;
      }
      assert events[..i] == events;
      events := SortBySequence(kept + [next]);
    }
  }
}
