/** The tracker that resumes waiting executions, as a state machine (packages/cli/src/wait-tracker.ts).

    `rows` are the executions whose `waitTill` is set; each time an execution begins to wait is a
    period of its own.  Times are in milliseconds. */
module WaitTracking {
  import opened Wrappers

  const LOOK_AHEAD: nat := 70000
  const POLL_INTERVAL: nat := 60000

  /** `since`: when the wait began. */
  datatype Row = Row(till: nat, period: nat, since: nat)

  /** `row` is the row the timer was armed for. */
  datatype Timer = Timer(id: string, due: nat, row: Row)

  /** A start of an execution, with its row at that moment. */
  datatype Resumption = Resumption(id: string, at: nat, row: Option<Row>)

  /** `pending`: started, and the row has not been cleared since.  `intervals`: poll intervals that run.
      `lastPoll`: when the database was last asked. */
  datatype State = State(
    now: nat,
    rows: map<string, Row>,
    nextPeriod: nat,
    waiting: map<string, nat>,
    timers: map<nat, Timer>,
    nextTimer: nat,
    intervals: set<nat>,
    mainTimer: Option<nat>,
    nextInterval: nat,
    lastPoll: nat,
    pending: set<string>,
    starts: seq<Resumption>)

  /** What the database reports to a poll: every row due within the look-ahead, in some order. */
  ghost predicate Reports(s: State, ids: seq<string>) {
    && (forall id :: id in ids <==> id in s.rows && s.rows[id].till <= s.now + LOOK_AHEAD)
    && (forall i, j :: 0 <= i < j < |ids| ==> ids[i] != ids[j])
  }

  function Max(a: int, b: int): int { if a < b then b else a }

  /** A timer is set, unless the execution has an entry; a delay below 1 counts as 1. */
  function Arm(s: State, id: string): State
    requires id in s.rows
  {
    if id in s.waiting then s
    else
      var row := s.rows[id];
      s.(waiting := s.waiting[id := s.nextTimer],
         timers := s.timers[s.nextTimer := Timer(id, s.now + Max(1, row.till - s.now), row)],
         nextTimer := s.nextTimer + 1)
  }

  function Poll(s: State, ids: seq<string>): (r: State)
    requires forall id :: id in ids ==> id in s.rows
    ensures r.rows == s.rows
  {
    if ids == [] then s else Arm(Poll(s, ids[..|ids| - 1]), ids[|ids| - 1])
  }

  /** One call of `getWaitingExecutions`. */
  function Polled(s: State, ids: seq<string>): State
    requires forall id :: id in ids ==> id in s.rows
  {
    Poll(s.(lastPoll := s.now), ids)
  }

  /** A new poll interval; an earlier one is not cleared. */
  function Began(s: State): State {
    var i := s.nextInterval;
    s.(intervals := s.intervals + {i}, mainTimer := Some(i), nextInterval := i + 1)
  }

  function StartTracking(s: State, ids: seq<string>): State
    requires forall id :: id in ids ==> id in s.rows
  {
    Polled(Began(s), ids)
  }

  /** A due timer starts its execution. */
  function Fire(s: State, timer: nat): State
    requires timer in s.timers
  {
    var id := s.timers[timer].id;
    s.(timers := Without(s.timers, timer), waiting := Without(s.waiting, id), pending := s.pending + {id},
       starts := s.starts + [Resumption(id, s.now, if id in s.rows then Some(s.rows[id]) else None)])
  }

  function StopExecution(s: State, id: string): State {
    if id !in s.waiting then s
    else s.(timers := Without(s.timers, s.waiting[id]), waiting := Without(s.waiting, id))
  }

  /** The timers of all entries are cleared; the entries stay. */
  function StopTracking(s: State): State {
    s.(intervals := if s.mainTimer.Some? then s.intervals - {s.mainTimer.value} else s.intervals,
       timers := s.timers - (set id | id in s.waiting :: s.waiting[id]))
  }

  datatype Event =
    | Tick(ms: nat)
    | BeginTracking(ids: seq<string>)
    | PollAgain(ids: seq<string>)
    | FireTimer(timer: nat)
    | StopOne(id: string)
    | EndTracking
    | Wait(id: string, till: nat)
    | Clear(id: string)

  ghost predicate Enabled(s: State, e: Event) {
    match e
    case BeginTracking(ids) => Reports(s, ids)
    case PollAgain(ids) => Reports(s, ids) && s.intervals != {}
    case FireTimer(timer) => timer in s.timers && s.timers[timer].due <= s.now
    case Wait(id, till) => id !in s.rows
    case _ => true
  }

  /** `Wait` and `Clear` are what the rest of the system does: an execution begins to wait, and a row is
      cleared, by the resumed execution or by something else. */
  ghost function Next(s: State, e: Event): State
    requires Enabled(s, e)
  {
    match e
    case Tick(ms) => s.(now := s.now + ms)
    case BeginTracking(ids) => StartTracking(s, ids)
    case PollAgain(ids) => Polled(s, ids)
    case FireTimer(timer) => Fire(s, timer)
    case StopOne(id) => StopExecution(s, id)
    case EndTracking => StopTracking(s)
    case Wait(id, till) => s.(rows := s.rows[id := Row(till, s.nextPeriod, s.now)], nextPeriod := s.nextPeriod + 1)
    case Clear(id) => s.(rows := Without(s.rows, id), pending := s.pending - {id})
  }

  function Initial(): State {
    State(0, map[], 0, map[], map[], 0, {}, None, 0, 0, {}, [])
  }

  // ---------------------------------------------------------------- the tracker itself

  class WaitTracker {
    var now: nat
    var rows: map<string, Row>
    var waitingExecutions: map<string, nat>
    var timers: map<nat, Timer>
    var nextTimer: nat
    var intervals: set<nat>
    var mainTimer: Option<nat>
    var nextInterval: nat
    ghost var nextPeriod: nat
    ghost var lastPoll: nat
    ghost var pending: set<string>
    ghost var starts: seq<Resumption>

    constructor ()
      ensures Model() == Initial()
    {
      now, rows, waitingExecutions, timers, nextTimer := 0, map[], map[], map[], 0;
      intervals, mainTimer, nextInterval := {}, None, 0;
      nextPeriod, lastPoll, pending, starts := 0, 0, {}, [];
    }

    ghost function Model(): State
      reads this
    {
      State(now, rows, nextPeriod, waitingExecutions, timers, nextTimer, intervals, mainTimer, nextInterval,
            lastPoll, pending, starts)
    }

    /** The body of the loop. */
    method SetTimer(id: string)
      requires id in rows
      modifies this`waitingExecutions, this`timers, this`nextTimer
      ensures Model() == Arm(old(Model()), id)
    {
      if id !in waitingExecutions {
        var triggerTime := rows[id].till - now;
        waitingExecutions := waitingExecutions[id := nextTimer];
        timers := timers[nextTimer := Timer(id, now + Max(1, triggerTime), rows[id])];
        nextTimer := nextTimer + 1;
      }
    }

    /** `executions` is what the database reports. */
    method GetWaitingExecutions(executions: seq<string>)
      requires forall id :: id in executions ==> id in rows
      modifies this`waitingExecutions, this`timers, this`nextTimer, this`lastPoll
      ensures Model() == Polled(old(Model()), executions)
    {
      hide Arm;
      lastPoll := now;
      ghost var asked := Model();
      for i := 0 to |executions|
        invariant rows == old(rows) && Model() == Poll(asked, executions[..i])
      {
        assert executions[..i + 1][..i] == executions[..i];
        SetTimer(executions[i]);
      }
      assert executions[..|executions|] == executions;
    }

    method Start(executions: seq<string>)
      requires forall id :: id in executions ==> id in rows
      modifies this
      ensures Model() == StartTracking(old(Model()), executions)
    {
      mainTimer := Some(nextInterval);
      intervals := intervals + {nextInterval};
      nextInterval := nextInterval + 1;
      GetWaitingExecutions(executions);
    }

    /** The callback of a due timer. */
    method StartExecution(timer: nat)
      requires timer in timers && timers[timer].due <= now
      modifies this
      ensures Model() == Fire(old(Model()), timer)
    {
      var executionId := timers[timer].id;
      timers := Without(timers, timer);
      waitingExecutions := Without(waitingExecutions, executionId);
      pending := pending + {executionId};
      starts := starts + [Resumption(executionId, now, if executionId in rows then Some(rows[executionId]) else None)];
    }

    method Stop(id: string)
      modifies this`timers, this`waitingExecutions
      ensures Model() == StopExecution(old(Model()), id)
    {
      if id !in waitingExecutions {
        return;
      }
      timers := Without(timers, waitingExecutions[id]);
      waitingExecutions := Without(waitingExecutions, id);
    }

    method StopAll()
      modifies this`timers, this`intervals
      ensures Model() == StopTracking(old(Model()))
    {
      if mainTimer.Some? {
        intervals := intervals - {mainTimer.value};
      }
      ghost var start, left := timers, intervals;
      var ids := waitingExecutions.Keys;
      while ids != {}
        invariant ids <= waitingExecutions.Keys
        invariant intervals == left
        invariant timers.Keys <= start.Keys && forall t :: t in timers ==> timers[t] == start[t]
        invariant forall t :: t in start ==>
                    (t !in timers <==> exists id :: id in waitingExecutions && id !in ids && waitingExecutions[id] == t)
        decreases ids
      {
        var id :| id in ids;
        timers := Without(timers, waitingExecutions[id]);
        ids := ids - {id};
      }
      assert timers == StopTracking(old(Model())).timers;
    }
  }
}
