/** What the wait tracker keeps, over every run. */
module WaitTrackingTheorems {
  import opened Wrappers
  import opened WaitTracking

  // ---------------------------------------------------------------- timers and entries

  /** A live timer is the one in the entry of its execution, and is not due before its row. */
  ghost predicate TimerOk(s: State, timer: nat)
    requires timer in s.timers
  {
    var t := s.timers[timer];
    timer < s.nextTimer && t.id in s.waiting && s.waiting[t.id] == timer && t.due >= t.row.till
  }

  /** Live timers belong one to one to some of the entries. */
  ghost predicate TimersOk(s: State) {
    && (forall timer :: timer in s.timers ==> TimerOk(s, timer))
    && (forall id :: id in s.waiting ==> s.waiting[id] < s.nextTimer)
    && (forall id :: id in s.waiting && s.waiting[id] in s.timers ==> s.timers[s.waiting[id]].id == id)
  }

  /** Every entry has its timer. */
  ghost predicate AllArmed(s: State) {
    forall id :: id in s.waiting ==> s.waiting[id] in s.timers
  }

  lemma ArmKeepsTimers(s: State, id: string)
    requires TimersOk(s) && id in s.rows
    ensures TimersOk(Arm(s, id)) && (AllArmed(s) ==> AllArmed(Arm(s, id)))
  {
    var s' := Arm(s, id);
    forall t | t in s'.timers ensures TimerOk(s', t) { if t in s.timers { assert TimerOk(s, t); } }
  }

  lemma {:induction false} PollKeepsTimers(s: State, ids: seq<string>)
    requires TimersOk(s) && forall id :: id in ids ==> id in s.rows
    ensures TimersOk(Poll(s, ids)) && (AllArmed(s) ==> AllArmed(Poll(s, ids)))
  {
    hide TimersOk, AllArmed;
    if ids != [] {
      PollKeepsTimers(s, ids[..|ids| - 1]);
      ArmKeepsTimers(Poll(s, ids[..|ids| - 1]), ids[|ids| - 1]);
    }
  }

  /** Dropping timers, or an entry with its timer, keeps the rest in step. */
  lemma FewerKeepTimers(s: State, s': State)
    requires TimersOk(s) && s'.nextTimer == s.nextTimer
    requires forall t :: t in s'.timers ==> t in s.timers && s'.timers[t] == s.timers[t]
    requires forall id :: id in s'.waiting ==> id in s.waiting && s'.waiting[id] == s.waiting[id]
    requires forall t :: t in s'.timers ==> s'.timers[t].id in s'.waiting
    ensures TimersOk(s')
  {
    forall t | t in s'.timers ensures TimerOk(s', t) { assert TimerOk(s, t); }
  }

  /** Ending tracking leaves no live timer, and every entry. */
  lemma EndTrackingLeavesNoTimers(s: State)
    requires TimersOk(s)
    ensures StopTracking(s).timers == map[] && StopTracking(s).waiting == s.waiting
  {
    forall t | t in s.timers ensures t in (set id | id in s.waiting :: s.waiting[id]) { assert TimerOk(s, t); }
  }

  lemma RemoveKeepsTimers(s: State, id: string)
    requires TimersOk(s) && id in s.waiting
    ensures forall t :: t in s.timers && t != s.waiting[id] ==> s.timers[t].id in s.waiting && s.timers[t].id != id
    ensures forall i :: i in s.waiting && i != id && s.waiting[i] in s.timers ==> s.waiting[i] != s.waiting[id]
  {
    forall t | t in s.timers ensures TimerOk(s, t) {
    }
  }

  lemma NextKeepsTimers(s: State, e: Event)
    requires TimersOk(s) && Enabled(s, e)
    ensures TimersOk(Next(s, e)) && (AllArmed(s) && !e.EndTracking? ==> AllArmed(Next(s, e)))
  {
    forall t | t in s.timers ensures s.timers[t].id in s.waiting && s.waiting[s.timers[t].id] == t {
      assert TimerOk(s, t);
    }
    match e
    case BeginTracking(ids) =>
      var s1 := Began(s).(lastPoll := s.now);
      FewerKeepTimers(s, s1);
      PollKeepsTimers(s1, ids);
    case PollAgain(ids) =>
      var s1 := s.(lastPoll := s.now);
      FewerKeepTimers(s, s1);
      PollKeepsTimers(s1, ids);
    case FireTimer(timer) =>
      RemoveKeepsTimers(s, s.timers[timer].id);
      FewerKeepTimers(s, Next(s, e));
    case StopOne(id) =>
      if id in s.waiting {
        RemoveKeepsTimers(s, id);
        FewerKeepTimers(s, Next(s, e));
      }
    case EndTracking => EndTrackingLeavesNoTimers(s); FewerKeepTimers(s, StopTracking(s));
    case Tick(ms) => FewerKeepTimers(s, Next(s, e));
    case Wait(id, till) => FewerKeepTimers(s, Next(s, e));
    case Clear(id) => FewerKeepTimers(s, Next(s, e));
  }

  // ---------------------------------------------------------------- starts

  /** A start of a row that was still there, and not before its time. */
  predicate Proper(r: Resumption) { r.row.Some? && r.at >= r.row.value.till }

  /** Every start was proper and of a period of its own, and a row that was started and is still there
      is pending. */
  ghost predicate HistoryOk(s: State) {
    && (forall i :: 0 <= i < |s.starts| ==> Proper(s.starts[i]) && s.starts[i].row.value.period < s.nextPeriod)
    && (forall i, j :: 0 <= i < j < |s.starts| ==> s.starts[i].row.value.period != s.starts[j].row.value.period)
    && (forall id :: id in s.rows ==> s.rows[id].period < s.nextPeriod)
    && (forall i, j :: i in s.rows && j in s.rows && s.rows[i].period == s.rows[j].period ==> i == j)
    && (forall i, id :: 0 <= i < |s.starts| && id in s.rows && s.starts[i].row.value.period == s.rows[id].period ==>
          s.starts[i].id == id && id in s.pending)
  }

  /** A pending execution has no entry, and live timers are for rows that are still there. */
  ghost predicate TimersCurrent(s: State) {
    && (forall id :: id in s.pending ==> id !in s.waiting)
    && (forall t :: t in s.timers ==> s.timers[t].id in s.rows && s.rows[s.timers[t].id] == s.timers[t].row)
  }

  ghost predicate StartsOk(s: State) { HistoryOk(s) && TimersCurrent(s) }

  /** The two ways in which the rest of the system can outrun the tracker: a poll reports a row that has
      been started and not been cleared yet, or a row is cleared while its timer is live. */
  ghost predicate Races(s: State, e: Event)
    requires Enabled(s, e)
  {
    match e
    case BeginTracking(ids) => exists id :: id in ids && id in s.pending
    case PollAgain(ids) => exists id :: id in ids && id in s.pending
    case Clear(id) => id in s.rows && exists t :: t in s.timers && s.timers[t].id == id
    case _ => false
  }

  // ---------------------------------------------------------------- polls

  lemma {:induction false} PollArms(s: State, ids: seq<string>)
    requires forall id :: id in ids ==> id in s.rows
    ensures var s' := Poll(s, ids);
            s'.pending == s.pending && s'.starts == s.starts && s'.nextPeriod == s.nextPeriod && s'.now == s.now
    ensures s.waiting.Keys + (set id | id in ids) == Poll(s, ids).waiting.Keys
    ensures forall t :: t in s.timers ==> t < s.nextTimer ==> t in Poll(s, ids).timers
    ensures s.nextTimer <= Poll(s, ids).nextTimer
  {
    if ids != [] {
      var rest, id := ids[..|ids| - 1], ids[|ids| - 1];
      assert ids == rest + [id];
      PollArms(s, rest);
    }
  }

  lemma ArmKeepsStarts(s: State, id: string)
    requires StartsOk(s) && id in s.rows && id !in s.pending
    ensures StartsOk(Arm(s, id))
  {
    assert HistoryOk(Arm(s, id));
    hide HistoryOk;
  }

  lemma {:induction false} PollKeepsStarts(s: State, ids: seq<string>)
    requires StartsOk(s) && forall id :: id in ids ==> id in s.rows && id !in s.pending
    ensures StartsOk(Poll(s, ids))
  {
    hide StartsOk;
    if ids != [] {
      var rest := ids[..|ids| - 1];
      PollKeepsStarts(s, rest);
      PollArms(s, rest);
      ArmKeepsStarts(Poll(s, rest), ids[|ids| - 1]);
    }
  }

  lemma PollKeepsStartsIff(s: State, ids: seq<string>)
    requires StartsOk(s) && forall id :: id in ids ==> id in s.rows
    ensures StartsOk(Poll(s, ids)) <==> !(exists id :: id in ids && id in s.pending)
  {
    PollArms(s, ids);
    if id :| id in ids && id in s.pending {
      hide Poll;
      assert id in Poll(s, ids).waiting && id in Poll(s, ids).pending;
    } else {
      PollKeepsStarts(s, ids);
    }
  }

  lemma FireKeepsStarts(s: State, timer: nat)
    requires StartsOk(s) && TimersOk(s) && Enabled(s, FireTimer(timer))
    ensures StartsOk(Fire(s, timer))
  {
    var t, s' := s.timers[timer], Fire(s, timer);
    assert TimerOk(s, timer);
    forall u | u in s'.timers ensures s'.timers[u].id != t.id { assert TimerOk(s, u); }
    forall i | 0 <= i < |s.starts| ensures s.starts[i].row.value.period != t.row.period {
    }
    hide TimersOk, TimerOk;
    assert forall i :: 0 <= i < |s.starts| ==> s'.starts[i] == s.starts[i];
  }

  lemma ClearKeepsStartsIff(s: State, id: string)
    requires StartsOk(s)
    ensures StartsOk(Next(s, Clear(id))) <==> !Races(s, Clear(id))
  {
    var s' := Next(s, Clear(id));
    if t :| t in s.timers && s.timers[t].id == id {
      assert t in s'.timers && s'.timers[t].id !in s'.rows;
    }
  }

  /** Fewer timers and entries, at a later time. */
  lemma FewerKeepStarts(s: State, s': State)
    requires StartsOk(s) && s'.rows == s.rows && s'.nextPeriod == s.nextPeriod && s'.starts == s.starts
             && s'.pending == s.pending
    requires forall id :: id in s'.waiting ==> id in s.waiting
    requires forall t :: t in s'.timers ==> t in s.timers && s'.timers[t] == s.timers[t]
    ensures StartsOk(s')
  {
  }

  lemma WaitKeepsStarts(s: State, id: string, till: nat)
    requires StartsOk(s) && id !in s.rows
    ensures StartsOk(Next(s, Wait(id, till)))
  {
    assert TimersCurrent(Next(s, Wait(id, till))) by { hide HistoryOk; }
    hide TimersCurrent;
  }

  /** Exactly when an event keeps the starts in order. */
  lemma NextKeepsStartsIff(s: State, e: Event)
    requires StartsOk(s) && TimersOk(s) && Enabled(s, e)
    ensures StartsOk(Next(s, e)) <==> !Races(s, e)
  {
    hide StartsOk, TimersOk, Poll, Fire;
    match e
    case BeginTracking(ids) =>
      var s1 := Began(s).(lastPoll := s.now);
      FewerKeepStarts(s, s1);
      PollKeepsStartsIff(s1, ids);
    case PollAgain(ids) =>
      var s1 := s.(lastPoll := s.now);
      FewerKeepStarts(s, s1);
      PollKeepsStartsIff(s1, ids);
    case FireTimer(timer) => FireKeepsStarts(s, timer);
    case Clear(id) => ClearKeepsStartsIff(s, id);
    case Tick(ms) => FewerKeepStarts(s, Next(s, e));
    case StopOne(id) => FewerKeepStarts(s, StopExecution(s, id));
    case EndTracking => FewerKeepStarts(s, StopTracking(s));
    case Wait(id, till) => WaitKeepsStarts(s, id, till);
  }

  // ---------------------------------------------------------------- runs

  ghost predicate IsRun(s: State, events: seq<Event>)
    decreases |events|
  {
    events == [] || (Enabled(s, events[0]) && IsRun(Next(s, events[0]), events[1..]))
  }

  ghost function After(s: State, events: seq<Event>): State
    requires IsRun(s, events)
    decreases |events|
  {
    if events == [] then s else After(Next(s, events[0]), events[1..])
  }

  ghost predicate NeverRaces(s: State, events: seq<Event>)
    requires IsRun(s, events)
    decreases |events|
  {
    events == [] || (!Races(s, events[0]) && NeverRaces(Next(s, events[0]), events[1..]))
  }

  /** Over every run, live timers stay one to one with some of the entries. */
  lemma {:induction false} RunKeepsTimers(s: State, events: seq<Event>)
    requires TimersOk(s) && IsRun(s, events)
    ensures TimersOk(After(s, events))
    ensures AllArmed(s) && EndTracking !in events ==> AllArmed(After(s, events))
    decreases |events|
  {
    hide TimersOk, AllArmed, Next;
    if events != [] {
      assert events[0] in events;
      NextKeepsTimers(s, events[0]);
      RunKeepsTimers(Next(s, events[0]), events[1..]);
    }
  }

  lemma {:induction false} RunKeepsStarts(s: State, events: seq<Event>)
    requires StartsOk(s) && TimersOk(s) && IsRun(s, events) && NeverRaces(s, events)
    ensures StartsOk(After(s, events))
    decreases |events|
  {
    hide StartsOk, TimersOk, Next, Races;
    if events != [] {
      NextKeepsTimers(s, events[0]);
      NextKeepsStartsIff(s, events[0]);
      RunKeepsStarts(Next(s, events[0]), events[1..]);
    }
  }

  /** From the beginning, in every run without races: each waiting period is started at most once, and
      never before its time. */
  lemma EachPeriodStartsOnce(events: seq<Event>)
    requires IsRun(Initial(), events) && NeverRaces(Initial(), events)
    ensures var starts := After(Initial(), events).starts;
            && (forall i :: 0 <= i < |starts| ==> Proper(starts[i]))
            && (forall i, j :: 0 <= i < j < |starts| ==> starts[i].row != starts[j].row)
  {
    RunKeepsStarts(Initial(), events);
  }

  // ---------------------------------------------------------------- what races lead to

  /** A poll arms a reported execution that has no entry. */
  lemma {:induction false} PollArmsReported(s: State, ids: seq<string>, id: string)
    requires (forall i :: i in ids ==> i in s.rows) && id in ids && id !in s.waiting
    ensures var s' := Poll(s, ids);
            && id in s'.waiting && s'.waiting[id] < s'.nextTimer && s'.waiting[id] in s'.timers
            && s'.timers[s'.waiting[id]] == Timer(id, s.now + Max(1, s.rows[id].till - s.now), s.rows[id])
  {
    var rest, last := ids[..|ids| - 1], ids[|ids| - 1];
    assert ids == rest + [last];
    PollArms(s, rest);
    if id in rest {
      PollArmsReported(s, rest, id);
    }
  }

  lemma FourSteps(s: State, a: Event, b: Event, c: Event, d: Event)
    requires Enabled(s, a) && Enabled(Next(s, a), b) && Enabled(Next(Next(s, a), b), c)
    requires Enabled(Next(Next(Next(s, a), b), c), d)
    ensures IsRun(s, [a, b, c, d]) && After(s, [a, b, c, d]) == Next(Next(Next(Next(s, a), b), c), d)
  {
    hide Enabled, Next;
    var s1 := Next(s, a);
    var s2 := Next(s1, b);
    RunCons(Next(s2, c), d, []);
    RunCons(s2, c, [d]);
    RunCons(s1, b, [c, d]);
    RunCons(s, a, [b, c, d]);
    hide IsRun, After;
    assert [d] + [] == [d] && [c] + [d] == [c, d] && [b] + [c, d] == [b, c, d] && [a] + [b, c, d] == [a, b, c, d];
  }

  lemma RunCons(s: State, e: Event, rest: seq<Event>)
    requires Enabled(s, e) && IsRun(Next(s, e), rest)
    ensures IsRun(s, [e] + rest) && After(s, [e] + rest) == After(Next(s, e), rest)
  {
    hide Enabled, Next;
    assert ([e] + rest)[0] == e && ([e] + rest)[1..] == rest;
  }

  /** When the next poll comes before the row of a resumed execution is cleared, that poll arms it again
      and it is started a second time for the same period. */
  lemma SlowResumeStartsTwice(s: State, timer: nat, ids: seq<string>) returns (again: nat)
    requires TimersOk(s) && StartsOk(s) && Enabled(s, FireTimer(timer))
    requires s.intervals != {} && Reports(Fire(s, timer), ids)
    ensures var events, t := [FireTimer(timer), PollAgain(ids), Tick(1), FireTimer(again)], s.timers[timer];
            && IsRun(s, events)
            && After(s, events).starts ==
               s.starts + [Resumption(t.id, s.now, Some(t.row)), Resumption(t.id, s.now + 1, Some(t.row))]
  {
    hide TimersOk, StartsOk, Poll;
    again := ReportedAgain(s, timer, ids);
    FourSteps(s, FireTimer(timer), PollAgain(ids), Tick(1), FireTimer(again));
  }

  /** The timer that the poll sets. */
  lemma ReportedAgain(s: State, timer: nat, ids: seq<string>) returns (again: nat)
    requires TimersOk(s) && StartsOk(s) && Enabled(s, FireTimer(timer)) && Reports(Fire(s, timer), ids)
    ensures var s1, s2, t := Fire(s, timer), Polled(Fire(s, timer), ids), s.timers[timer];
            && again in s2.timers && s2.timers[again] == Timer(t.id, s.now + 1, t.row)
            && s2.now == s.now && s2.starts == s1.starts == s.starts + [Resumption(t.id, s.now, Some(t.row))]
            && t.id in s2.rows && s2.rows[t.id] == t.row
  {
    var t, s1 := s.timers[timer], Fire(s, timer);
    assert TimerOk(s, timer);
    assert s1.rows[t.id] == t.row && t.row.till <= s.now && t.id in ids;
    hide TimersOk, StartsOk;
    PollArmsReported(s1.(lastPoll := s.now), ids, t.id);
    PollArms(s1.(lastPoll := s.now), ids);
    again := Polled(s1, ids).waiting[t.id];
  }

  /** When an execution is resumed by other means while its timer is live, and then begins to wait anew,
      the old timer starts it before its new time. */
  lemma StaleTimerStartsEarly(s: State, timer: nat, till: nat) returns (ms: nat)
    requires TimersOk(s) && StartsOk(s) && timer in s.timers && till > Max(s.now, s.timers[timer].due)
    ensures var id := s.timers[timer].id;
            var events := [Clear(id), Wait(id, till), Tick(ms), FireTimer(timer)];
            && s.now + ms < till && IsRun(s, events)
            && After(s, events).starts == s.starts + [Resumption(id, s.now + ms, Some(Row(till, s.nextPeriod, s.now)))]
  {
    ms := Max(0, s.timers[timer].due - s.now);
    var id := s.timers[timer].id;
    hide TimersOk, StartsOk;
    FourSteps(s, Clear(id), Wait(id, till), Tick(ms), FireTimer(timer));
  }

  // ---------------------------------------------------------------- entries without a timer

  /** An entry whose timer was cleared by `stopTracking`. */
  predicate Stale(s: State, id: string) {
    id in s.waiting && s.waiting[id] !in s.timers && s.waiting[id] < s.nextTimer
  }

  lemma {:induction false} PollKeepsStale(s: State, ids: seq<string>, id: string)
    requires Stale(s, id) && forall i :: i in ids ==> i in s.rows
    ensures Stale(Poll(s, ids), id)
  {
    if ids != [] {
      PollKeepsStale(s, ids[..|ids| - 1], id);
    }
  }

  lemma NextKeepsStale(s: State, e: Event, id: string)
    requires TimersOk(s) && Stale(s, id) && Enabled(s, e) && e != StopOne(id)
    ensures Stale(Next(s, e), id)
    ensures forall r :: r in Next(s, e).starts && r !in s.starts ==> r.id != id
  {
    match e
    case BeginTracking(ids) =>
      var s1 := Began(s).(lastPoll := s.now);
      PollKeepsStale(s1, ids, id);
      PollArms(s1, ids);
    case PollAgain(ids) =>
      var s1 := s.(lastPoll := s.now);
      PollKeepsStale(s1, ids, id);
      PollArms(s1, ids);
    case FireTimer(timer) => assert TimerOk(s, timer);
    case StopOne(other) =>
    case EndTracking =>
    case Tick(ms) =>
    case Wait(i, till) =>
    case Clear(i) =>
  }

  /** An execution whose entry lost its timer is never started again, however often tracking is started
      anew, until someone stops it by hand. */
  lemma {:induction false} StaleNeverStarts(s: State, events: seq<Event>, id: string)
    requires TimersOk(s) && Stale(s, id) && IsRun(s, events) && StopOne(id) !in events
    ensures Stale(After(s, events), id)
    ensures forall r :: r in After(s, events).starts && r !in s.starts ==> r.id != id
    decreases |events|
  {
    hide TimersOk, Next, Stale;
    if events != [] {
      assert events[0] in events;
      NextKeepsTimers(s, events[0]);
      NextKeepsStale(s, events[0], id);
      StaleNeverStarts(Next(s, events[0]), events[1..], id);
    }
  }

  /** Stopping to track leaves every entry without a timer. */
  lemma EndTrackingLeavesStale(s: State, id: string)
    requires TimersOk(s) && id in s.waiting
    ensures Stale(StopTracking(s), id)
  {
    EndTrackingLeavesNoTimers(s);
  }
}
