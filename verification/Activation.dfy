/** The activation manager as a state machine (packages/cli/src/active-workflow-manager.ts).

    A state holds everything the manager changes: the retry queue, the timers that are set, the
    activation errors, the stored webhooks, the workflows in memory, and the calls of `add` and `remove`
    that are under way.  A call goes forward in steps, from one point where it awaits something to the
    next, and other events may happen between them.  How external services answer is part of the event. */
module Activation {
  import opened Wrappers
  import W = WebhookRegistration

  const INITIAL_TIMEOUT: nat := 1000
  const MAX_TIMEOUT: nat := 24 * 60 * 60 * 1000

  datatype Mode = Init | LeadershipChange | Activate | Update

  datatype Queued = Queued(mode: Mode, lastTimeout: nat, timer: nat)
  datatype Timer = Timer(workflowId: string, mode: Mode, due: nat)

  /** History of a queue entry: when it was made, and how many of its retries have failed. */
  datatype History = History(since: nat, failures: nat)

  /** `display` is what `add` returns: whether an activation message is shown. */
  datatype Outcome = Added(display: bool) | Threw(message: string)

  /** Who called: a retry timer, the start-up loop, or somebody else; or it is a call of `remove`. */
  datatype Kind = Retry(mode: Mode) | Startup(mode: Mode) | Direct(mode: Mode) | Removal

  /** How far a call has come.  `Prepared`: webhooks and triggers are done, or for a removal, the webhooks are
      gone.  `Cleared`: the queue entry is gone.  `Deregistered`: the activation error is gone.  `Counted`: the
      triggers are counted.  `Failing`: an error is about to be registered.  `Ended`: the caller has yet to
      learn of it. */
  datatype Stage =
    | Preparing
    | Prepared
    | Cleared
    | Deregistered
    | Counted
    | Failing(message: string)
    | Ended(outcome: Outcome)

  /** `cleared`: an `add` that has cleared the queue entry.  `counted`: its bookkeeping is done, and saving the
      static data has been tried. */
  datatype Call = Call(workflowId: string, kind: Kind, stage: Stage, cleared: bool, counted: bool := false)

  datatype State = State(
    clock: nat,
    queue: map<string, Queued>,
    timers: map<nat, Timer>,
    nextTimer: nat,
    calls: map<nat, Call>,
    nextCall: nat,
    errors: map<string, string>,
    webhooks: W.Table,
    inMemory: set<string>,
    history: map<string, History>)

  /** How everything outside the manager answers one call; each step looks at its part.
      `refusal`: the workflow is missing, cannot be activated, or has no base data.
      `clears`, `closes`: the webhooks can be cleared, and the triggers closed. */
  datatype Answers = Answers(
    refusal: Option<string>,
    hooks: seq<W.Listed>, steps: seq<W.Step>, clears: bool, tail: Option<string>,
    hasTriggers: bool, triggerFailure: Option<string>,
    deregistering: Option<string>,
    counting: Option<string>,
    saving: Option<string>,
    closes: bool)
  {
    ghost predicate Valid() { |hooks| == |steps| }
  }

  /** Single-main mode: this instance is the leader. */
  predicate AddsWebhooks(mode: Mode) { mode != LeadershipChange }

  predicate Displays(mode: Mode) { mode == Init || mode == LeadershipChange }

  predicate Includes(text: string, part: string) {
    part <= text || (text != "" && Includes(text[1..], part))
  }

  /** Authorization errors are not retried after start-up. */
  predicate IsAuthorization(message: string) { Includes(message, "Authorization") }

  function Dequeued(s: State, w: string): State {
    if w in s.queue then s.(timers := Without(s.timers, s.queue[w].timer), queue := Without(s.queue, w)) else s
  }

  function Enqueued(s: State, mode: Mode, w: string): State {
    var s := Dequeued(s, w);
    s.(queue := s.queue[w := Queued(mode, INITIAL_TIMEOUT, s.nextTimer)],
       timers := s.timers[s.nextTimer := Timer(w, mode, s.clock + INITIAL_TIMEOUT)],
       nextTimer := s.nextTimer + 1,
       history := s.history[w := History(s.clock, 0)])
  }

  function Registered(s: State, w: string, message: string): State {
    s.(errors := s.errors[w := message])
  }

  /** `add` before the queue is cleared: webhooks, then triggers and pollers.  A message is that of the
      failure that ends it. */
  function Prepare(s: State, w: string, mode: Mode, a: Answers): (r: (State, Option<string>))
    requires a.Valid()
  {
    if a.refusal.Some? then (s, a.refusal)
    else
      var (rows, result) :=
        if AddsWebhooks(mode) then W.Registration(s.webhooks, w, a.hooks, a.steps, mode == Init, a.clears, a.tail)
        else (s.webhooks, W.Returned);
      if result.Threw? then (s.(webhooks := rows), Some(result.message))
      else if a.hasTriggers then (s.(webhooks := rows, inMemory := s.inMemory + {w}), a.triggerFailure)
      else (s.(webhooks := rows), None)
  }

  function NextTimeout(lastTimeout: nat): nat {
    if lastTimeout < MAX_TIMEOUT then Min(lastTimeout * 2, MAX_TIMEOUT) else lastTimeout
  }

  function Min(a: nat, b: nat): nat { if a < b then a else b }

  /** The failed retry goes back on a timer, for a longer delay.  The timer recorded before is not cleared. */
  function Rescheduled(s: State, w: string, mode: Mode): State
    requires w in s.queue
  {
    var lastTimeout := NextTimeout(s.queue[w].lastTimeout);
    s.(queue := s.queue[w := Queued(s.queue[w].mode, lastTimeout, s.nextTimer)],
       timers := s.timers[s.nextTimer := Timer(w, mode, s.clock + lastTimeout)],
       nextTimer := s.nextTimer + 1,
       history := if w !in s.history then s.history
                  else s.history[w := History(s.history[w].since, s.history[w].failures + 1)])
  }

  // ---------------------------------------------------------------- calls

  function Began(s: State, w: string, kind: Kind): State {
    s.(calls := s.calls[s.nextCall := Call(w, kind, Preparing, false)], nextCall := s.nextCall + 1)
  }

  /** The steps a call may still take. */
  function StepsLeft(stage: Stage): nat {
    match stage
    case Preparing => 6
    case Prepared => 5
    case Cleared => 4
    case Deregistered => 3
    case Counted => 2
    case Failing(_) => 2
    case Ended(_) => 1
  }

  function FailingIf(failure: Option<string>, otherwise: Stage): Stage {
    if failure.Some? then Failing(failure.value) else otherwise
  }

  /** Where a call of `add` stands after its next step, if it is not over. */
  function AddStage(s: State, c: Call, a: Answers): (r: Option<Stage>)
    requires !c.kind.Removal? && a.Valid()
    ensures r.Some? ==> StepsLeft(r.value) < StepsLeft(c.stage)
  {
    match c.stage
    case Preparing => Some(FailingIf(Prepare(s, c.workflowId, c.kind.mode, a).1, Prepared))
    case Prepared => Some(Cleared)
    case Cleared => Some(FailingIf(a.deregistering, Deregistered))
    case Deregistered => Some(FailingIf(a.counting, Counted))
    case Counted => Some(Ended(if a.saving.Some? then Threw(a.saving.value) else Added(Displays(c.kind.mode))))
    case Failing(message) => Some(Ended(Threw(message)))
    case Ended(_) => None
  }

  /** What the next step of a call of `add` does to the rest of the state. */
  function AddEffect(s: State, c: Call, a: Answers): State
    requires !c.kind.Removal? && a.Valid()
  {
    match c.stage
    case Preparing => Prepare(s, c.workflowId, c.kind.mode, a).0
    case Prepared => Dequeued(s, c.workflowId)
    case Cleared => if a.deregistering.Some? then s else s.(errors := Without(s.errors, c.workflowId))
    case Failing(message) => Registered(s, c.workflowId, message)
    case Ended(outcome) => Returned(s, c, outcome)
    case _ => s
  }

  /** The caller learns of the outcome. */
  function Returned(s: State, c: Call, outcome: Outcome): State
    requires !c.kind.Removal?
  {
    if outcome.Added? then s
    else
      match c.kind
      case Retry(mode) => if c.workflowId in s.queue then Rescheduled(s, c.workflowId, mode) else s
      case Startup(_) => if IsAuthorization(outcome.message) then s else Enqueued(s, Init, c.workflowId)
      case Direct(_) => s
  }

  /** The same for a call of `remove`. */
  function RemoveStage(c: Call, a: Answers): Option<Stage>
  {
    match c.stage
    case Preparing => Some(Prepared)
    case Prepared => if a.deregistering.Some? then None else Some(Deregistered)
    case Deregistered => Some(Cleared)
    case _ => None
  }

  function RemoveEffect(s: State, c: Call, a: Answers): State {
    match c.stage
    case Preparing => if a.clears then s.(webhooks := W.Cleared(s.webhooks, c.workflowId)) else s
    case Prepared => if a.deregistering.Some? then s else s.(errors := Without(s.errors, c.workflowId))
    case Deregistered => Dequeued(s, c.workflowId)
    case _ => if a.closes then s.(inMemory := s.inMemory - {c.workflowId}) else s
  }

  function StageAfter(s: State, c: Call, a: Answers): Option<Stage>
    requires a.Valid()
  {
    if c.kind.Removal? then RemoveStage(c, a) else AddStage(s, c, a)
  }

  function Effect(s: State, c: Call, a: Answers): State
    requires a.Valid()
  {
    if c.kind.Removal? then RemoveEffect(s, c, a) else AddEffect(s, c, a)
  }

  /** What a step adds to the history of its call. */
  function Marked(c: Call): Call {
    if c.kind.Removal? then c
    else c.(cleared := c.cleared || c.stage.Prepared?, counted := c.counted || c.stage.Counted?)
  }

  /** The call moves on, or is over. */
  function Moved(calls: map<nat, Call>, n: nat, stage: Option<Stage>): map<nat, Call>
    requires n in calls
  {
    var c := calls[n];
    if stage.None? then Without(calls, n)
    else calls[n := Marked(c).(stage := stage.value)]
  }

  /** One step of a call. */
  function Advance(s: State, n: nat, a: Answers): State
    requires n in s.calls && a.Valid()
  {
    Effect(s, s.calls[n], a).(calls := Moved(s.calls, n, StageAfter(s, s.calls[n], a)))
  }

  /** A failing retry reads the queue entry of the workflow; without one it ends in an unhandled error. */
  predicate Crashes(s: State, n: nat) {
    n in s.calls && s.calls[n].kind.Retry? && s.calls[n].stage.Ended? && s.calls[n].stage.outcome.Threw?
    && s.calls[n].workflowId !in s.queue
  }

  /** The event loop runs a due timer: it is spent, and its retry begins. */
  function RetryBegin(s: State, timer: nat): State
    requires timer in s.timers
  {
    Began(s.(timers := Without(s.timers, timer)), s.timers[timer].workflowId, Retry(s.timers[timer].mode))
  }

  /** A running trigger reports an error.  `closes`: its close function works. */
  function EmitError(s: State, w: string, mode: Mode, message: string, closes: bool): State {
    var s := if closes then s.(inMemory := s.inMemory - {w}) else s;
    Enqueued(Registered(s, w, message), mode, w)
  }

  function AllDequeued(s: State): State { SomeDequeued(s, s.queue.Keys) }

  /** The entries of `ws` are gone, with their timers. */
  function SomeDequeued(s: State, ws: set<string>): State {
    s.(timers := s.timers - (set w | w in ws && w in s.queue :: s.queue[w].timer), queue := s.queue - ws)
  }

  datatype Event =
    | AddOne(w: string, mode: Mode)
    | StartupOne(w: string, mode: Mode)
    | FireTimer(timer: nat)
    | RemoveOne(w: string)
    | Step(n: nat, a: Answers)
    | TriggerError(w: string, mode: Mode, message: string, closes: bool)
    | EmptyQueue
    | ClearError(w: string)
    | ClearAllErrors
    | Tick(ms: nat)

  ghost predicate Enabled(s: State, e: Event) {
    match e
    case FireTimer(timer) => timer in s.timers && s.timers[timer].due <= s.clock
    case Step(n, a) => n in s.calls && a.Valid()
    case _ => true
  }

  ghost function Next(s: State, e: Event): State
    requires Enabled(s, e)
  {
    match e
    case AddOne(w, mode) => Began(s, w, Direct(mode))
    case StartupOne(w, mode) => Began(s, w, Startup(mode))
    case FireTimer(timer) => RetryBegin(s, timer)
    case RemoveOne(w) => Began(s, w, Removal)
    case Step(n, a) => Advance(s, n, a)
    case TriggerError(w, mode, message, closes) => EmitError(s, w, mode, message, closes)
    case EmptyQueue => AllDequeued(s)
    case ClearError(w) => s.(errors := Without(s.errors, w))
    case ClearAllErrors => s.(errors := map[])
    case Tick(ms) => s.(clock := s.clock + ms)
  }

  function Initial(): State {
    State(0, map[], map[], 0, map[], 0, map[], map[], {}, map[])
  }

  // ---------------------------------------------------------------- calls that nothing interrupts

  /** A call of `add` run to its end. */
  function Completed(s: State, c: Call, a: Answers): State
    requires !c.kind.Removal? && a.Valid()
    decreases StepsLeft(c.stage)
  {
    var s', stage := AddEffect(s, c, a), AddStage(s, c, a);
    if stage.None? then s' else Completed(s', c.(stage := stage.value), a)
  }

  /** One iteration of the start-up loop. */
  function StartOne(s: State, w: string, mode: Mode, a: Answers): State
    requires a.Valid()
  {
    Completed(s.(nextCall := s.nextCall + 1), Call(w, Startup(mode), Preparing, false), a)
  }

  /** The start-up loop over the first `n` workflows. */
  ghost function StartAll(s: State, ids: seq<string>, mode: Mode, answers: seq<Answers>, n: nat): State
    requires n <= |ids| == |answers| && forall a :: a in answers ==> a.Valid()
  {
    if n == 0 then s else StartOne(StartAll(s, ids, mode, answers, n - 1), ids[n - 1], mode, answers[n - 1])
  }
}
