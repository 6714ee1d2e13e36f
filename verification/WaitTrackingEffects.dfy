/** What every event does to the entries, timers and starts of the wait tracker, said of the event and of the state
    before it; and that a stopped execution stays stopped. */
module WaitTrackingEffects {
  import opened Wrappers
  import opened WaitTracking
  import opened WaitTrackingTheorems

  // ---------------------------------------------------------------- polls

  /** Entries and timers that were there stay. */
  ghost predicate Keeps(s: State, s': State) {
    && (forall id :: id in s.waiting ==> id in s'.waiting && s'.waiting[id] == s.waiting[id])
    && (forall t :: t in s.timers ==> t in s'.timers && s'.timers[t] == s.timers[t])
  }

  /** The execution has an entry with a timer of its own, due when its wait ends, or in a millisecond if that is
      past. */
  ghost predicate ArmedNow(s: State, s': State, id: string)
    requires id in s.rows
  {
    && id in s'.waiting && s'.waiting[id] >= s.nextTimer && s'.waiting[id] in s'.timers
    && var t, row := s'.timers[s'.waiting[id]], s.rows[id];
       t.id == id && t.row == row && t.due == if row.till > s.now then row.till else s.now + 1
  }

  /** What a poll leaves: exactly the executions that wait no longer than 70 s from now, and have no entry, are
      armed. */
  ghost predicate Arms(s: State, s': State) {
    && Keeps(s, s') && s'.rows == s.rows && s'.starts == s.starts && s'.pending == s.pending && s'.now == s.now
    && s'.lastPoll == s.now
    && (forall id :: id in s.rows && s.rows[id].till <= s.now + 70000 && id !in s.waiting ==> ArmedNow(s, s', id))
    && (forall id :: id in s'.waiting ==> id in s.waiting || (id in s.rows && s.rows[id].till <= s.now + 70000))
    && (forall t :: t in s'.timers ==>
          t in s.timers || (s'.timers[t].id !in s.waiting && s'.timers[t].id in s'.waiting))
  }

  lemma {:induction false} PollKeeps(s: State, ids: seq<string>)
    requires TimersOk(s) && forall id :: id in ids ==> id in s.rows
    ensures var s' := Poll(s, ids);
            && Keeps(s, s') && s'.intervals == s.intervals && s'.mainTimer == s.mainTimer
            && s'.nextInterval == s.nextInterval && s'.nextTimer >= s.nextTimer && s'.lastPoll == s.lastPoll
            && (forall t :: t in s'.timers ==>
                  t in s.timers || (s'.timers[t].id !in s.waiting && s'.timers[t].id in s'.waiting))
            && (forall id :: id in s'.waiting && id !in s.waiting ==> s'.waiting[id] >= s.nextTimer)
  {
    hide TimersOk;
    if ids != [] {
      var rest := ids[..|ids| - 1];
      PollKeeps(s, rest);
      PollKeepsTimers(s, rest);
      ArmedKeeps(Poll(s, rest), ids[|ids| - 1]);
    }
  }

  lemma ArmedKeeps(s: State, id: string)
    requires TimersOk(s) && id in s.rows
    ensures Keeps(s, Arm(s, id))
  {
    assert forall t :: t in s.timers ==> TimerOk(s, t);
  }

  lemma PolledArms(s: State, ids: seq<string>)
    requires TimersOk(s) && Reports(s, ids)
    ensures Arms(s, Polled(s, ids))
    ensures var s' := Polled(s, ids);
            s'.intervals == s.intervals && s'.mainTimer == s.mainTimer && s'.nextInterval == s.nextInterval
  {
    var s1 := s.(lastPoll := s.now);
    LaterPollKeepsTimers(s);
    hide TimersOk, Poll, Keeps;
    PollKeeps(s1, ids);
    PollArms(s1, ids);
    forall id | id in ids && id !in s.waiting ensures ArmedNow(s, Poll(s1, ids), id) {
      PollArmsReported(s1, ids, id);
    }
    KeepsSame(s, s1, Poll(s1, ids));
  }

  lemma LaterPollKeepsTimers(s: State)
    requires TimersOk(s)
    ensures TimersOk(s.(lastPoll := s.now))
  {
    forall t | t in s.timers ensures TimerOk(s.(lastPoll := s.now), t) { assert TimerOk(s, t); }
  }

  lemma KeepsSame(s: State, s1: State, s': State)
    requires Keeps(s1, s') && s1.waiting == s.waiting && s1.timers == s.timers
    ensures Keeps(s, s')
  {
  }

  /** A poll, while tracking or on its start, arms exactly what the look-ahead of 70 s reaches. */
  lemma TrackingArms(s: State, e: Event)
    requires TimersOk(s) && Enabled(s, e) && (e.BeginTracking? || e.PollAgain?)
    ensures Arms(s, Next(s, e))
    ensures var s' := Next(s, e);
            if e.PollAgain? then s'.intervals == s.intervals && s'.mainTimer == s.mainTimer
            else s'.intervals == s.intervals + {s.nextInterval} && s'.mainTimer == Some(s.nextInterval)
                 && s'.nextInterval == s.nextInterval + 1
  {
    if e.PollAgain? {
      PolledArms(s, e.ids);
      hide Polled, Arms;
    } else {
      BeganKeepsTimers(s);
      PolledArms(Began(s), e.ids);
      hide Polled;
      KeepsSame(s, Began(s), Next(s, e));
      forall id | id in s.rows ensures ArmedNow(Began(s), Next(s, e), id) == ArmedNow(s, Next(s, e), id) {
      }
    }
  }

  lemma BeganKeepsTimers(s: State)
    requires TimersOk(s)
    ensures TimersOk(Began(s))
  {
    forall t | t in s.timers ensures TimerOk(Began(s), t) { assert TimerOk(s, t); }
  }

  // ---------------------------------------------------------------- starts and stops

  /** Neither an entry nor a live timer is for the execution. */
  ghost predicate Untracked(s: State, id: string) {
    id !in s.waiting && forall t :: t in s.timers ==> s.timers[t].id != id
  }

  /** The entries and timers of other executions are as they were. */
  ghost predicate OthersKept(s: State, s': State, id: string) {
    && (forall i :: i != id ==>
          (i in s'.waiting <==> i in s.waiting) && (i in s.waiting ==> s'.waiting[i] == s.waiting[i]))
    && (forall t :: t in s'.timers ==> t in s.timers && s'.timers[t] == s.timers[t])
    && (forall t :: t in s.timers && s.timers[t].id != id ==> t in s'.timers)
  }

  /** A due timer starts its execution, once, now, and its entry and timer are gone. */
  lemma FiringStarts(s: State, timer: nat)
    requires TimersOk(s) && Enabled(s, FireTimer(timer))
    ensures var s', id := Next(s, FireTimer(timer)), s.timers[timer].id;
            && |s'.starts| == |s.starts| + 1 && s'.starts[..|s.starts|] == s.starts
            && s'.starts[|s.starts|].id == id && s'.starts[|s.starts|].at == s.now
            && (s'.starts[|s.starts|].row == if id in s.rows then Some(s.rows[id]) else None)
            && Untracked(s', id) && OthersKept(s, s', id) && s'.rows == s.rows
            && (forall i :: i in s'.pending <==> i in s.pending || i == id)
            && s'.intervals == s.intervals
  {
    forall t | t in s.timers ensures s.timers[t].id == s.timers[timer].id ==> t == timer {
      assert TimerOk(s, t) && TimerOk(s, timer);
    }
  }

  /** Stopping an execution leaves it without entry and timer; nothing is started, and the others stay as they are. */
  lemma StoppingStops(s: State, id: string)
    requires TimersOk(s)
    ensures var s' := Next(s, StopOne(id));
            && Untracked(s', id) && OthersKept(s, s', id)
            && s'.starts == s.starts && s'.rows == s.rows && s'.intervals == s.intervals
  {
    forall t | t in s.timers ensures s.timers[t].id in s.waiting && s.waiting[s.timers[t].id] == t {
      assert TimerOk(s, t);
    }
  }

  /** `stopTracking` clears every timer and the interval of the latest start, and nothing else. */
  lemma EndingClears(s: State)
    requires TimersOk(s)
    ensures var s' := Next(s, EndTracking);
            && s'.timers == map[] && s'.waiting == s.waiting && s'.starts == s.starts && s'.rows == s.rows
            && forall i :: i in s'.intervals <==> i in s.intervals && s.mainTimer != Some(i)
  {
    EndTrackingLeavesNoTimers(s);
  }

  /** Other events leave entries, timers and starts alone. */
  lemma OthersLeaveTracking(s: State, e: Event)
    requires Enabled(s, e) && (e.Tick? || e.Wait? || e.Clear?)
    ensures var s' := Next(s, e);
            && s'.waiting == s.waiting && s'.timers == s.timers && s'.starts == s.starts && s'.intervals == s.intervals
            && s'.now == s.now + (if e.Tick? then e.ms else 0)
            && (e.Wait? ==> s'.rows == s.rows[e.id := Row(e.till, s.nextPeriod, s.now)])
            && (e.Clear? ==> s'.rows == s.rows - {e.id})
  {
  }

  // ---------------------------------------------------------------- a stopped execution stays stopped

  /** A poll reports the execution. */
  predicate ReportsOne(e: Event, id: string) {
    match e
    case BeginTracking(ids) => id in ids
    case PollAgain(ids) => id in ids
    case _ => false
  }

  ghost predicate NeverStartedSince(s: State, r: State, id: string) {
    && |r.starts| >= |s.starts| && r.starts[..|s.starts|] == s.starts
    && forall k :: |s.starts| <= k < |r.starts| ==> r.starts[k].id != id
  }

  lemma NextStaysUntracked(s: State, e: Event, id: string)
    requires TimersOk(s) && Untracked(s, id) && Enabled(s, e) && !ReportsOne(e, id)
    ensures Untracked(Next(s, e), id) && NeverStartedSince(s, Next(s, e), id)
  {
    hide Next, TimersOk, Arms, Reports;
    match e
    case BeginTracking(ids) => ReportedOnly(s, e, ids, id);
    case PollAgain(ids) => ReportedOnly(s, e, ids, id);
    case FireTimer(timer) => FiringStarts(s, timer);
    case StopOne(i) => StoppingStops(s, i);
    case EndTracking => EndingClears(s);
    case Tick(ms) => OthersLeaveTracking(s, e);
    case Wait(i, till) => OthersLeaveTracking(s, e);
    case Clear(i) => OthersLeaveTracking(s, e);
  }

  lemma ReportedOnly(s: State, e: Event, ids: seq<string>, id: string)
    requires TimersOk(s) && Untracked(s, id) && Enabled(s, e) && !ReportsOne(e, id)
    requires e == BeginTracking(ids) || e == PollAgain(ids)
    ensures Untracked(Next(s, e), id) && Next(s, e).starts == s.starts
  {
    TrackingArms(s, e);
    hide Next, TimersOk;
    assert id in s.rows && s.rows[id].till <= s.now + 70000 ==> id in ids;
  }

  lemma {:induction false} RunStaysUntracked(s: State, events: seq<Event>, id: string)
    requires TimersOk(s) && Untracked(s, id) && IsRun(s, events) && forall e :: e in events ==> !ReportsOne(e, id)
    ensures NeverStartedSince(s, After(s, events), id)
    decreases |events|
  {
    hide TimersOk, Untracked, Next, ReportsOne, Enabled;
    if events != [] {
      var s1 := Next(s, events[0]);
      assert events[0] in events;
      NextKeepsTimers(s, events[0]);
      NextStaysUntracked(s, events[0], id);
      RunStaysUntracked(s1, events[1..], id);
      StartsGoOn(s, s1, After(s1, events[1..]), id);
    }
  }

  lemma StartsGoOn(s: State, s1: State, r: State, id: string)
    requires NeverStartedSince(s, s1, id) && NeverStartedSince(s1, r, id)
    ensures NeverStartedSince(s, r, id)
  {
    assert r.starts[..|s.starts|] == r.starts[..|s1.starts|][..|s.starts|];
    forall k | |s.starts| <= k < |r.starts| ensures r.starts[k].id != id {
      assert k < |s1.starts| ==> r.starts[k] == r.starts[..|s1.starts|][k];
    }
  }

  /** A stopped execution is not started over any later run, until a poll reports it anew. */
  lemma StoppedStaysStopped(s: State, id: string, events: seq<Event>)
    requires TimersOk(s) && IsRun(Next(s, StopOne(id)), events) && forall e :: e in events ==> !ReportsOne(e, id)
    ensures NeverStartedSince(s, After(Next(s, StopOne(id)), events), id)
  {
    NextKeepsTimers(s, StopOne(id));
    StoppingStops(s, id);
    hide Next, TimersOk, ReportsOne, Untracked;
    RunStaysUntracked(Next(s, StopOne(id)), events, id);
  }
}
