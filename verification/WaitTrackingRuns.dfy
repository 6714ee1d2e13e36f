/** What the wait tracker promises between stops and starts of tracking, and in time. */
module WaitTrackingRuns {
  import opened Wrappers
  import opened WaitTracking
  import opened WaitTrackingTheorems

  // ---------------------------------------------------------------- after stopTracking

  ghost predicate NeverBegins(events: seq<Event>) {
    forall e :: e in events ==> !e.BeginTracking?
  }

  /** No timer is live in any run from here until tracking is started anew. */
  ghost predicate StaysQuiet(s: State) {
    forall events: seq<Event> | IsRun(s, events) && NeverBegins(events) :: After(s, events).timers == map[]
  }

  lemma {:induction false} NoIntervalNoTimer(s: State, events: seq<Event>)
    requires s.timers == map[] && s.intervals == {} && IsRun(s, events) && NeverBegins(events)
    ensures After(s, events).timers == map[] && After(s, events).intervals == {}
    decreases |events|
  {
    if events != [] {
      assert !events[0].BeginTracking?;
      NoIntervalNoTimer(Next(s, events[0]), events[1..]);
    }
  }

  /** After `stopTracking` no timer is live until the next `startTracking`, if and only if the stop
      leaves no interval behind: it clears only the one of the latest start. */
  lemma QuietAfterStopIff(s: State)
    requires TimersOk(s)
    ensures StaysQuiet(StopTracking(s)) <==> StopTracking(s).intervals == {}
  {
    var stopped := StopTracking(s);
    EndTrackingLeavesNoTimers(s);
    if stopped.intervals == {} {
      forall events: seq<Event> | IsRun(stopped, events) && NeverBegins(events)
        ensures After(stopped, events).timers == map[]
      {
        NoIntervalNoTimer(stopped, events);
      }
    } else {
      var events := LeftoverPolls(stopped);
      assert IsRun(stopped, events) && NeverBegins(events) && After(stopped, events).timers != map[];
    }
  }

  /** An interval that is left polls, and arms an execution that begins to wait. */
  lemma LeftoverPolls(s: State) returns (events: seq<Event>)
    requires s.intervals != {}
    ensures IsRun(s, events) && NeverBegins(events) && After(s, events).timers != map[]
  {
    var id := FreshId(s.rows.Keys + s.waiting.Keys);
    var wait := Wait(id, s.now);
    var s1 := Next(s, wait);
    var ids := ReportOf(s1);
    assert s1.rows[id].till <= s1.now + LOOK_AHEAD;
    PollArmsReported(s1.(lastPoll := s1.now), ids, id);
    events := [wait, PollAgain(ids)];
    hide Polled;
    TwoSteps(s, wait, PollAgain(ids));
  }

  lemma TwoSteps(s: State, a: Event, b: Event)
    requires Enabled(s, a) && Enabled(Next(s, a), b)
    ensures IsRun(s, [a, b]) && After(s, [a, b]) == Next(Next(s, a), b)
  {
    hide Enabled, Next;
    assert [a, b][1..] == [b] && [b][1..] == [];
    assert IsRun(Next(s, a), [b]) && After(Next(s, a), [b]) == Next(Next(s, a), b);
  }

  /** What the database reports can be listed. */
  lemma ReportOf(s: State) returns (ids: seq<string>)
    ensures Reports(s, ids)
  {
    ids := Listing(set id | id in s.rows && s.rows[id].till <= s.now + LOOK_AHEAD);
  }

  lemma {:induction false} Listing(ids: set<string>) returns (list: seq<string>)
    ensures (forall id :: id in list <==> id in ids) && forall i, j :: 0 <= i < j < |list| ==> list[i] != list[j]
    decreases ids
  {
    list := [];
    if ids != {} {
      var id :| id in ids;
      var rest := Listing(ids - {id});
      list := rest + [id];
    }
  }

  /** There is always an id not in use. */
  lemma FreshId(used: set<string>) returns (id: string)
    ensures id !in used
  {
    var longest := Longest(used);
    id := seq(longest + 1, i => 'a');
  }

  lemma {:induction false} Longest(ids: set<string>) returns (n: nat)
    ensures forall id :: id in ids ==> |id| <= n
    decreases ids
  {
    n := 0;
    if ids != {} {
      var id :| id in ids;
      var m := Longest(ids - {id});
      n := if |id| < m then m else |id|;
    }
  }

  // ---------------------------------------------------------------- how an interval is left behind

  /** At most the interval of the latest start is running. */
  ghost predicate OneInterval(s: State) {
    && s.intervals <= (if s.mainTimer.Some? then {s.mainTimer.value} else {})
    && forall i :: i in s.intervals ==> i < s.nextInterval
  }

  lemma {:induction false} PollKeepsIntervals(s: State, ids: seq<string>)
    requires forall id :: id in ids ==> id in s.rows
    ensures var r := Poll(s, ids);
            r.intervals == s.intervals && r.mainTimer == s.mainTimer && r.nextInterval == s.nextInterval
            && r.lastPoll == s.lastPoll && r.now == s.now
  {
    if ids != [] {
      PollKeepsIntervals(s, ids[..|ids| - 1]);
    }
  }

  /** Exactly a start of tracking while an interval runs leaves two of them. */
  lemma NextKeepsOneIntervalIff(s: State, e: Event)
    requires OneInterval(s) && Enabled(s, e)
    ensures OneInterval(Next(s, e)) <==> !(e.BeginTracking? && s.intervals != {})
  {
    match e
    case BeginTracking(ids) =>
      PollKeepsIntervals(Began(s).(lastPoll := s.now), ids);
      hide Poll;
      if s.intervals != {} {
        var i :| i in s.intervals;
        assert i in Next(s, e).intervals && i != s.nextInterval;
      }
    case PollAgain(ids) =>
      PollKeepsIntervals(s.(lastPoll := s.now), ids);
      hide Poll;
    case Tick(ms) =>
    case FireTimer(timer) =>
    case StopOne(id) =>
    case EndTracking =>
    case Wait(id, till) =>
    case Clear(id) =>
  }

  /** Tracking is never started while an interval runs. */
  ghost predicate Alternates(s: State, events: seq<Event>)
    requires IsRun(s, events)
    decreases |events|
  {
    events == [] || (!(events[0].BeginTracking? && s.intervals != {}) && Alternates(Next(s, events[0]), events[1..]))
  }

  lemma {:induction false} RunKeepsOneInterval(s: State, events: seq<Event>)
    requires OneInterval(s) && TimersOk(s) && IsRun(s, events) && Alternates(s, events)
    ensures OneInterval(After(s, events)) && TimersOk(After(s, events))
    decreases |events|
  {
    hide OneInterval, TimersOk, Next;
    if events != [] {
      NextKeepsOneIntervalIff(s, events[0]);
      NextKeepsTimers(s, events[0]);
      RunKeepsOneInterval(Next(s, events[0]), events[1..]);
    }
  }

  /** Over every run in which starts and stops of tracking alternate: after a stop, no timer is live until
      the next start. */
  lemma QuietBetweenTracking(events: seq<Event>, later: seq<Event>)
    requires IsRun(Initial(), events) && Alternates(Initial(), events)
    requires IsRun(StopTracking(After(Initial(), events)), later) && NeverBegins(later)
    ensures After(StopTracking(After(Initial(), events)), later).timers == map[]
  {
    var s := After(Initial(), events);
    RunKeepsOneInterval(Initial(), events);
    QuietAfterStopIff(s);
    hide IsRun, After, TimersOk;
    assert StopTracking(s).intervals == {};
  }

  /** Tracking started twice and stopped once: an execution that begins to wait afterwards gets a timer. */
  lemma StartedTwice(id: string)
    ensures var events := [BeginTracking([]), BeginTracking([]), EndTracking, Wait(id, 5), PollAgain([id])];
            IsRun(Initial(), events) && After(Initial(), events).timers != map[]
  {
    var s0 := Initial();
    var s1 := s0.(intervals := {0}, mainTimer := Some(0), nextInterval := 1);
    var s2 := s1.(intervals := {0, 1}, mainTimer := Some(1), nextInterval := 2);
    var s3 := s2.(intervals := {0});
    assert Next(s0, BeginTracking([])) == s1;
    assert Next(s1, BeginTracking([])) == s2;
    assert {0, 1} - {1} == {0} && Next(s2, EndTracking) == s3;
    var s4 := Next(s3, Wait(id, 5));
    PollArmsReported(s4.(lastPoll := s4.now), [id], id);
    hide Next, Polled, Poll;
    FiveSteps(s0, BeginTracking([]), BeginTracking([]), EndTracking, Wait(id, 5), PollAgain([id]));
  }

  lemma FiveSteps(s: State, a: Event, b: Event, c: Event, d: Event, e: Event)
    requires Enabled(s, a) && Enabled(Next(s, a), b) && Enabled(Next(Next(s, a), b), c)
    requires Enabled(Next(Next(Next(s, a), b), c), d) && Enabled(Next(Next(Next(Next(s, a), b), c), d), e)
    ensures IsRun(s, [a, b, c, d, e])
    ensures After(s, [a, b, c, d, e]) == Next(Next(Next(Next(Next(s, a), b), c), d), e)
  {
    hide Enabled, Next;
    FourSteps(Next(s, a), b, c, d, e);
    assert [a, b, c, d, e][1..] == [b, c, d, e];
  }

  // ---------------------------------------------------------------- in time

  /** While an interval runs, no more time passes between two polls than an interval has. */
  ghost predicate Punctual(s: State, events: seq<Event>)
    requires IsRun(s, events)
    decreases |events|
  {
    events == [] ||
    ((events[0].Tick? && s.intervals != {} ==> s.now + events[0].ms <= s.lastPoll + POLL_INTERVAL)
     && Punctual(Next(s, events[0]), events[1..]))
  }

  ghost predicate OnTime(s: State) {
    s.intervals != {} && s.lastPoll <= s.now <= s.lastPoll + POLL_INTERVAL
  }

  /** The moment from which an execution that waits can be noticed. */
  function Noticeable(s: State, id: string, start: nat): nat
    requires id in s.rows
  {
    if s.rows[id].since < start then start else s.rows[id].since
  }

  /** The entry of `id` has its timer, which is due exactly in time unless the time was too short to be
      noticed; without an entry, the row is new since the last poll, or beyond its look-ahead. */
  ghost predicate Served(s: State, id: string, start: nat) {
    && (id in s.waiting ==> s.waiting[id] in s.timers)
    && (id in s.rows && id !in s.pending ==>
          var row := s.rows[id];
          if id in s.waiting then
            s.timers[s.waiting[id]].due == row.till || row.till <= Noticeable(s, id, start) + POLL_INTERVAL
          else
            row.since >= s.lastPoll || row.till > s.lastPoll + LOOK_AHEAD)
  }

  lemma {:induction false} PollFrame(s: State, ids: seq<string>, id: string)
    requires (forall i :: i in ids ==> i in s.rows) && (id in s.waiting || id !in ids)
    requires id in s.waiting ==> s.waiting[id] in s.timers && s.waiting[id] < s.nextTimer
    ensures var r := Poll(s, ids);
            && (id in r.waiting <==> id in s.waiting)
            && (id in s.waiting ==> r.waiting[id] == s.waiting[id] && r.waiting[id] in r.timers
                                    && r.timers[r.waiting[id]] == s.timers[s.waiting[id]])
  {
    if ids != [] {
      PollFrame(s, ids[..|ids| - 1], id);
      PollArms(s, ids[..|ids| - 1]);
    }
  }

  lemma PollServes(s: State, ids: seq<string>, id: string, start: nat)
    requires TimersOk(s) && StartsOk(s) && Served(s, id, start) && OnTime(s) && Reports(s, ids)
    requires forall i :: i in ids ==> i !in s.pending
    ensures Served(Polled(s, ids), id, start)
  {
    var s1 := s.(lastPoll := s.now);
    PollKeepsIntervals(s1, ids);
    PollArms(s1, ids);
    if id in s.waiting || id !in ids {
      PollFrame(s1, ids, id);
    } else {
      PollArmsReported(s1, ids, id);
    }
    hide Poll, TimersOk, StartsOk;
  }

  /** Only a timer of its own, and only a removal of its own, touch the entry of an execution. */
  lemma NextServes(s: State, e: Event, id: string, start: nat)
    requires TimersOk(s) && StartsOk(s) && Served(s, id, start) && OnTime(s) && Enabled(s, e)
    requires !Races(s, e) && !e.EndTracking? && e != StopOne(id)
    ensures Served(Next(s, e), id, start)
  {
    hide Polled, Fire, StopExecution;
    match e
    case BeginTracking(ids) =>
      FewerKeepTimers(s, Began(s));
      FewerKeepStarts(s, Began(s));
      PollServes(Began(s), ids, id, start);
    case PollAgain(ids) => PollServes(s, ids, id, start);
    case FireTimer(timer) => FireServes(s, timer, id, start);
    case StopOne(other) => StopServes(s, other, id, start);
    case Tick(ms) => hide TimersOk, StartsOk;
    case Wait(other, till) => hide HistoryOk;
    case Clear(other) => hide HistoryOk;
  }

  lemma FireServes(s: State, timer: nat, id: string, start: nat)
    requires TimersOk(s) && Served(s, id, start) && timer in s.timers
    ensures Served(Fire(s, timer), id, start)
  {
    assert TimerOk(s, timer);
  }

  lemma StopServes(s: State, other: string, id: string, start: nat)
    requires TimersOk(s) && Served(s, id, start) && other != id
    ensures Served(StopExecution(s, other), id, start)
  {
  }

  lemma NextOnTime(s: State, e: Event)
    requires OnTime(s) && Enabled(s, e) && !e.EndTracking?
    requires e.Tick? ==> s.now + e.ms <= s.lastPoll + POLL_INTERVAL
    ensures OnTime(Next(s, e)) && s.now <= Next(s, e).now
  {
    match e
    case BeginTracking(ids) => PollKeepsIntervals(Began(s).(lastPoll := s.now), ids); hide Poll;
    case PollAgain(ids) => PollKeepsIntervals(s.(lastPoll := s.now), ids); hide Poll;
    case FireTimer(timer) =>
    case StopOne(other) =>
    case Tick(ms) =>
    case Wait(other, till) =>
    case Clear(other) =>
  }

  lemma {:induction false} RunServes(s: State, events: seq<Event>, id: string, start: nat)
    requires TimersOk(s) && StartsOk(s) && Served(s, id, start) && OnTime(s)
    requires IsRun(s, events) && NeverRaces(s, events) && Punctual(s, events)
    requires EndTracking !in events && StopOne(id) !in events
    ensures var r := After(s, events); TimersOk(r) && StartsOk(r) && Served(r, id, start) && OnTime(r)
    decreases |events|
  {
    hide TimersOk, StartsOk, Served, OnTime, Next, Races;
    if events != [] {
      assert events[0] in events;
      OnTimeRuns(s);
      NextServes(s, events[0], id, start);
      NextOnTime(s, events[0]);
      NextKeepsTimers(s, events[0]);
      NextKeepsStartsIff(s, events[0]);
      RunServes(Next(s, events[0]), events[1..], id, start);
    }
  }

  lemma OnTimeRuns(s: State)
    requires OnTime(s)
    ensures s.intervals != {}
  {
  }

  /** A timer is due exactly when its row is, unless it was set too late for that. */
  ghost predicate DueOk(s: State) {
    forall t :: t in s.timers ==> s.timers[t].due == s.timers[t].row.till || s.timers[t].row.till <= s.now
  }

  lemma {:induction false} PollKeepsDue(s: State, ids: seq<string>)
    requires DueOk(s) && forall id :: id in ids ==> id in s.rows
    ensures DueOk(Poll(s, ids)) && Poll(s, ids).now == s.now
  {
    if ids != [] {
      PollKeepsDue(s, ids[..|ids| - 1]);
    }
  }

  lemma NextKeepsDue(s: State, e: Event)
    requires DueOk(s) && Enabled(s, e)
    ensures DueOk(Next(s, e))
  {
    match e
    case BeginTracking(ids) => PollKeepsDue(Began(s).(lastPoll := s.now), ids); hide Poll;
    case PollAgain(ids) => PollKeepsDue(s.(lastPoll := s.now), ids); hide Poll;
    case FireTimer(timer) =>
    case StopOne(other) =>
    case EndTracking =>
    case Tick(ms) =>
    case Wait(other, till) =>
    case Clear(other) =>
  }

  lemma {:induction false} RunKeepsDue(s: State, events: seq<Event>)
    requires DueOk(s) && IsRun(s, events)
    ensures DueOk(After(s, events))
    decreases |events|
  {
    hide DueOk, Next;
    if events != [] {
      NextKeepsDue(s, events[0]);
      RunKeepsDue(Next(s, events[0]), events[1..]);
    }
  }

  /** Tracking begins: what waits in an entry has its timer, the rest is polled. */
  lemma BeginServes(s: State, ids: seq<string>, id: string)
    requires TimersOk(s) && StartsOk(s) && DueOk(s) && Enabled(s, BeginTracking(ids)) && !Races(s, BeginTracking(ids))
    requires id in s.waiting ==> s.waiting[id] in s.timers
    ensures Served(StartTracking(s, ids), id, s.now) && OnTime(StartTracking(s, ids))
  {
    var s1 := Began(s).(lastPoll := s.now);
    PollKeepsIntervals(s1, ids);
    PollArms(s1, ids);
    if id in s.waiting || id !in ids {
      PollFrame(s1, ids, id);
    } else {
      PollArmsReported(s1, ids, id);
    }
    hide Poll;
    if id in s.waiting {
      assert TimerOk(s, s.waiting[id]);
    }
  }

  /** From ten seconds before its time, an execution that was to wait for longer than a poll interval has
      a live timer that is due exactly at its time, as long as it has not been started. */
  ghost predicate InTime(r: State, id: string, start: nat) {
    id in r.rows && id !in r.pending ==>
      var row, from := r.rows[id], Noticeable(r, id, start) + POLL_INTERVAL;
      row.till > from && r.now > from && r.now + LOOK_AHEAD - POLL_INTERVAL >= row.till ==>
        id in r.waiting && r.waiting[id] in r.timers && r.timers[r.waiting[id]] == Timer(id, row.till, row)
  }

  /** Waiting executions are not missed.  Tracking begins at some point of a run, and then
      there is no race, no late poll, no stop of tracking or of this execution. */
  lemma WaitsAreServed(before: seq<Event>, ids: seq<string>, events: seq<Event>, id: string)
    requires IsRun(Initial(), before) && NeverRaces(Initial(), before)
    requires var s := After(Initial(), before);
             && Enabled(s, BeginTracking(ids)) && !Races(s, BeginTracking(ids)) && !Stale(s, id)
             && IsRun(StartTracking(s, ids), events)
             && NeverRaces(StartTracking(s, ids), events) && Punctual(StartTracking(s, ids), events)
    requires EndTracking !in events && StopOne(id) !in events
    ensures var s := After(Initial(), before);
            InTime(After(StartTracking(s, ids), events), id, s.now)
  {
    var s := After(Initial(), before);
    var s1 := StartTracking(s, ids);
    RunKeepsTimers(Initial(), before);
    RunKeepsStarts(Initial(), before);
    RunKeepsDue(Initial(), before);
    StaleOrArmed(s, id);
    BeginServes(s, ids, id);
    NextKeepsTimers(s, BeginTracking(ids));
    NextKeepsStartsIff(s, BeginTracking(ids));
    RunServes(s1, events, id, s.now);
    ServedInTime(After(s1, events), id, s.now);
  }

  lemma StaleOrArmed(s: State, id: string)
    requires TimersOk(s) && !Stale(s, id)
    ensures id in s.waiting ==> s.waiting[id] in s.timers
  {
  }

  lemma ServedInTime(r: State, id: string, start: nat)
    requires TimersOk(r) && StartsOk(r) && Served(r, id, start) && OnTime(r)
    ensures InTime(r, id, start)
  {
    if id in r.waiting && r.waiting[id] in r.timers {
      assert TimerOk(r, r.waiting[id]);
    }
  }
}
