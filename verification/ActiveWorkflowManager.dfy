/** The manager itself: its methods change the queue, the timers and the stores step by step, and are
    proved to take the state where `Activation` says.

    `add` and `remove` go from one point where they await something to the next with `Advance`, so that
    other methods can be called in between. */
module ActiveWorkflowManager {
  import opened Wrappers
  import opened Activation
  import ActivationOutcomes
  import ActivationTheorems
  import W = WebhookRegistration

  class Manager {
    const webhookService: W.WebhookService
    var queuedActivations: map<string, Queued>
    var activationErrors: map<string, string>
    var activeWorkflows: set<string>
    var timers: map<nat, Timer>
    var nextTimer: nat
    var calls: map<nat, Call>
    var nextCall: nat
    var clock: nat
    ghost var history: map<string, History>

    constructor ()
      ensures fresh(webhookService) && Model() == Initial()
    {
      webhookService := new W.WebhookService();
      queuedActivations, activationErrors, activeWorkflows := map[], map[], {};
      timers, nextTimer, calls, nextCall, clock := map[], 0, map[], 0, 0;
      history := map[];
    }

    ghost function Model(): State
      reads this, webhookService
    {
      State(clock, queuedActivations, timers, nextTimer, calls, nextCall, activationErrors, webhookService.rows,
            activeWorkflows, history)
    }

    /** `setTimeout` for a retry. */
    method SetTimeout(w: string, mode: Mode, delay: nat) returns (timer: nat)
      modifies this`timers, this`nextTimer
      ensures timer == old(nextTimer) && nextTimer == old(nextTimer) + 1
      ensures timers == old(timers)[timer := Timer(w, mode, clock + delay)]
    {
      timer := nextTimer;
      timers := timers[timer := Timer(w, mode, clock + delay)];
      nextTimer := nextTimer + 1;
    }

    method RemoveQueuedWorkflowActivation(w: string)
      modifies this`timers, this`queuedActivations
      ensures Model() == Dequeued(old(Model()), w)
    {
      if w in queuedActivations {
        timers := Without(timers, queuedActivations[w].timer);
        queuedActivations := Without(queuedActivations, w);
      }
    }

    method AddQueuedWorkflowActivation(mode: Mode, w: string)
      modifies this`queuedActivations, this`timers, this`nextTimer, this`history
      ensures Model() == Enqueued(old(Model()), mode, w)
    {
      RemoveQueuedWorkflowActivation(w);
      var timeout := SetTimeout(w, mode, INITIAL_TIMEOUT);
      queuedActivations := queuedActivations[w := Queued(mode, INITIAL_TIMEOUT, timeout)];
      history := history[w := History(clock, 0)];
    }

    method RemoveAllQueuedWorkflowActivations()
      modifies this`timers, this`queuedActivations
      ensures Model() == AllDequeued(old(Model()))
    {
      hide SomeDequeued, Dequeued;
      var ids := queuedActivations.Keys;
      ghost var start := Model();
      ActivationTheorems.NoneDequeued(start);
      while ids != {}
        invariant ids <= start.queue.Keys && Model() == SomeDequeued(start, start.queue.Keys - ids)
        decreases ids
      {
        var w :| w in ids;
        ActivationTheorems.DequeuedOneMore(start, start.queue.Keys - ids, w);
        assert start.queue.Keys - (ids - {w}) == (start.queue.Keys - ids) + {w};
        RemoveQueuedWorkflowActivation(w);
        ids := ids - {w};
      }
      assert start.queue.Keys - {} == start.queue.Keys;
    }

    method Register(w: string, message: string)
      modifies this`activationErrors
      ensures Model() == Registered(old(Model()), w, message)
    {
      activationErrors := activationErrors[w := message];
    }

    /** `add` before the queue is cleared. */
    method Prepare(w: string, mode: Mode, a: Answers) returns (failure: Option<string>)
      requires a.Valid()
      modifies webhookService, this`activeWorkflows
      ensures (Model(), failure) == Activation.Prepare(old(Model()), w, mode, a)
    {
      if a.refusal.Some? {
        return a.refusal;
      }
      if AddsWebhooks(mode) {
        var result := webhookService.AddWebhooks(w, a.hooks, a.steps, mode == Init, a.clears, a.tail);
        if result.Threw? {
          return Some(result.message);
        }
      }
      if a.hasTriggers {
        activeWorkflows := activeWorkflows + {w};
        return a.triggerFailure;
      }
      return None;
    }

    /** The first part of `add` and `remove`. */
    method Begin(w: string, kind: Kind) returns (n: nat)
      modifies this`calls, this`nextCall
      ensures n == old(nextCall) && Model() == Began(old(Model()), w, kind)
    {
      n := nextCall;
      calls := calls[n := Call(w, kind, Preparing, false)];
      nextCall := nextCall + 1;
    }

    method SetStage(n: nat, stage: Stage)
      requires n in calls
      modifies this`calls
      ensures calls == Moved(old(calls), n, Some(stage))
    {
      calls := calls[n := Marked(calls[n]).(stage := stage)];
    }

    /** One step of a call of `add`. */
    method AdvanceAdd(n: nat, a: Answers)
      requires n in calls && !calls[n].kind.Removal? && a.Valid()
      modifies this, webhookService
      ensures Model() == Activation.Advance(old(Model()), n, a)
    {
      hide Activation.Prepare, Dequeued, Activation.Returned, Without;
      var c := calls[n];
      var w := c.workflowId;
      match c.stage {
        case Preparing =>
          var failure := Prepare(w, c.kind.mode, a);
          SetStage(n, FailingIf(failure, Prepared));
        case Prepared =>
          RemoveQueuedWorkflowActivation(w);
          SetStage(n, Cleared);
        case Cleared =>
          if a.deregistering.None? {
            activationErrors := Without(activationErrors, w);
          }
          SetStage(n, FailingIf(a.deregistering, Deregistered));
        case Deregistered =>
          SetStage(n, FailingIf(a.counting, Counted));
        case Counted =>
          SetStage(n, Ended(if a.saving.Some? then Threw(a.saving.value) else Added(Displays(c.kind.mode))));
        case Failing(message) =>
          Register(w, message);
          SetStage(n, Ended(Threw(message)));
        case Ended(outcome) =>
          Return(c, outcome);
          calls := Without(calls, n);
      }
    }

    /** What the caller of `add` does with the outcome: a retry goes back on a timer, and start-up queues. */
    method Return(c: Call, outcome: Outcome)
      requires !c.kind.Removal?
      modifies this
      ensures Model() == Activation.Returned(old(Model()), c, outcome)
      ensures calls == old(calls)
    {
      hide Rescheduled, Enqueued, IsAuthorization;
      if outcome.Added? {
        return;
      }
      match c.kind {
        case Retry(mode) =>
          if c.workflowId in queuedActivations {
            Reschedule(c.workflowId, mode);
          }
        case Startup(_) =>
          if !IsAuthorization(outcome.message) {
            AddQueuedWorkflowActivation(Init, c.workflowId);
          }
        case Direct(_) =>
      }
    }

    method Reschedule(w: string, mode: Mode)
      requires w in queuedActivations
      modifies this`queuedActivations, this`timers, this`nextTimer, this`history
      ensures Model() == Rescheduled(old(Model()), w, mode)
    {
      var q := queuedActivations[w];
      var lastTimeout := q.lastTimeout;
      if lastTimeout < MAX_TIMEOUT {
        lastTimeout := Min(lastTimeout * 2, MAX_TIMEOUT);
      }
      var timeout := SetTimeout(w, mode, lastTimeout);
      queuedActivations := queuedActivations[w := Queued(q.mode, lastTimeout, timeout)];
      if w in history {
        history := history[w := History(history[w].since, history[w].failures + 1)];
      }
    }

    /** One step of a call of `remove`. */
    method AdvanceRemove(n: nat, a: Answers)
      requires n in calls && calls[n].kind.Removal? && a.Valid()
      modifies this, webhookService
      ensures Model() == Activation.Advance(old(Model()), n, a)
    {
      hide Dequeued, Without, W.Cleared;
      var w := calls[n].workflowId;
      match calls[n].stage {
        case Preparing =>
          if a.clears {
            webhookService.DeleteWorkflowWebhooks(w);
          }
          SetStage(n, Prepared);
        case Prepared =>
          if a.deregistering.Some? {
            calls := Without(calls, n);
          } else {
            activationErrors := Without(activationErrors, w);
            SetStage(n, Deregistered);
          }
        case Deregistered =>
          RemoveQueuedWorkflowActivation(w);
          SetStage(n, Cleared);
        case _ =>
          if a.closes {
            activeWorkflows := activeWorkflows - {w};
          }
          calls := Without(calls, n);
      }
    }

    method Advance(n: nat, a: Answers)
      requires n in calls && a.Valid()
      modifies this, webhookService
      ensures Model() == Activation.Advance(old(Model()), n, a)
    {
      hide Activation.Advance;
      if calls[n].kind.Removal? {
        AdvanceRemove(n, a);
      } else {
        AdvanceAdd(n, a);
      }
    }

    /** `add`, when nothing interrupts it. */
    method Add(w: string, kind: Kind, a: Answers)
      requires a.Valid() && !kind.Removal? && nextCall !in calls
      modifies this, webhookService
      ensures Model() == Completed(old(Model()).(nextCall := old(nextCall) + 1), Call(w, kind, Preparing, false), a)
    {
      hide Activation.Advance, Completed;
      ghost var others := calls;
      var n := Begin(w, kind);
      assert Without(calls, n) == others;
      ghost var goal := Completed(Model().(calls := others), calls[n], a);
      while n in calls
        invariant n in calls ==> !calls[n].kind.Removal? && Without(calls, n) == others
        invariant n in calls ==> Completed(Model().(calls := others), calls[n], a) == goal
        invariant n !in calls ==> Model() == goal
        decreases if n in calls then StepsLeft(calls[n].stage) else 0
      {
        ActivationOutcomes.CompletedOneStep(Model(), n, a);
        Advance(n, a);
      }
    }

    /** The event loop calls the callback of a due timer. */
    method FireTimer(timer: nat) returns (n: nat)
      requires timer in timers && timers[timer].due <= clock
      modifies this`timers, this`calls, this`nextCall
      ensures Model() == RetryBegin(old(Model()), timer)
      ensures n == old(nextCall)
    {
      var t := timers[timer];
      timers := Without(timers, timer);
      n := Begin(t.workflowId, Retry(t.mode));
    }

    /** Start-up: activate every workflow that the database lists as active. */
    method AddActiveWorkflows(ids: seq<string>, mode: Mode, answers: seq<Answers>)
      requires |ids| == |answers| && (forall a :: a in answers ==> a.Valid()) && forall n :: n in calls ==> n < nextCall
      modifies this, webhookService
      ensures Model() == StartAll(old(Model()), ids, mode, answers, |ids|)
    {
      hide Completed;
      for i := 0 to |ids|
        invariant Model() == StartAll(old(Model()), ids, mode, answers, i)
        invariant forall n :: n in calls ==> n < nextCall
      {
        ghost var c := Call(ids[i], Startup(mode), Preparing, false);
        ActivationOutcomes.CompletedCalls(Model().(nextCall := nextCall + 1), c, answers[i]);
        Add(ids[i], Startup(mode), answers[i]);
      }
    }

    /** What a running trigger calls when it fails. */
    method EmitError(w: string, mode: Mode, message: string, closes: bool)
      modifies this
      ensures Model() == Activation.EmitError(old(Model()), w, mode, message, closes)
    {
      if closes {
        activeWorkflows := activeWorkflows - {w};
      }
      Register(w, message);
      AddQueuedWorkflowActivation(mode, w);
    }
  }
}
