/** What becomes of workflows and their activation errors, whatever happens between the steps of calls. */
module ActivationOutcomes {
  import opened Wrappers
  import opened Activation
  import opened ActivationTheorems
  import W = WebhookRegistration

  lemma {:induction false} RunConcat(s: State, first: seq<Event>, rest: seq<Event>)
    requires IsRun(s, first) && IsRun(After(s, first), rest)
    ensures IsRun(s, first + rest) && After(s, first + rest) == After(After(s, first), rest)
    decreases |first|
  {
    hide Enabled, Next;
    if first == [] {
      assert first + rest == rest;
    } else {
      assert (first + rest)[1..] == first[1..] + rest;
      RunConcat(Next(s, first[0]), first[1..], rest);
    }
  }

  lemma OneStep(s: State, e: Event)
    requires Enabled(s, e)
    ensures IsRun(s, [e]) && After(s, [e]) == Next(s, e)
  {
    hide Enabled, Next;
    assert [e][1..] == [];
  }

  lemma RunCons(s: State, e: Event, rest: seq<Event>)
    requires Enabled(s, e) && IsRun(Next(s, e), rest)
    ensures IsRun(s, [e] + rest) && After(s, [e] + rest) == After(Next(s, e), rest)
  {
    hide Enabled, Next;
    assert ([e] + rest)[0] == e && ([e] + rest)[1..] == rest;
  }

  // ---------------------------------------------------------------- the leak

  lemma EmitErrorQueues(s: State, w: string, mode: Mode, message: string, closes: bool)
    ensures var s' := EmitError(s, w, mode, message, closes);
            w in s'.queue && s'.queue[w].timer in s'.timers && SameCalls(s, s')
  {
    hide Without;
  }

  /** A trigger error while the failure of a retry is being registered leaves a timer that no queue entry
      records, and that emptying the queue does not clear, whether the retry failed before it cleared the
      queue or after. */
  lemma OverlapLeaksTimer(s: State, n: nat, mode: Mode, message: string, closes: bool, a: Answers) returns (orphan: nat)
    requires Inv(s) && n in s.calls && s.calls[n].kind.Retry? && s.calls[n].stage.Failing? && a.Valid()
    ensures var w := s.calls[n].workflowId;
            var events := [TriggerError(w, mode, message, closes), Step(n, a), Step(n, a)];
            && IsRun(s, events)
            && var r := After(s, events);
               orphan in r.timers && r.timers[orphan].workflowId == w && orphan in AllDequeued(r).timers
  {
    hide Inv, EmitError, AllDequeued, Advance;
    var w := s.calls[n].workflowId;
    var s1 := EmitError(s, w, mode, message, closes);
    EmitErrorKeepsInv(s, w, mode, message, closes);
    EmitErrorQueues(s, w, mode, message, closes);
    orphan := FailureOrphans(s1, n, a);
    var e := TriggerError(w, mode, message, closes);
    OneStep(Advance(s1, n, a), Step(n, a));
    OneStep(s1, Step(n, a));
    RunConcat(s1, [Step(n, a)], [Step(n, a)]);
    OneStep(s, e);
    RunConcat(s, [e], [Step(n, a)] + [Step(n, a)]);
    assert [e] + ([Step(n, a)] + [Step(n, a)]) == [e, Step(n, a), Step(n, a)];
  }

  /** The failing retry replaces a live timer. */
  lemma FailureOrphans(s: State, n: nat, a: Answers) returns (orphan: nat)
    requires Inv(s) && n in s.calls && s.calls[n].kind.Retry? && s.calls[n].stage.Failing? && a.Valid()
    requires s.calls[n].workflowId in s.queue && s.queue[s.calls[n].workflowId].timer in s.timers
    ensures n in Advance(s, n, a).calls
    ensures var r := Advance(Advance(s, n, a), n, a);
            orphan in r.timers && r.timers[orphan].workflowId == s.calls[n].workflowId
              && orphan in AllDequeued(r).timers
  {
    var c, w := s.calls[n], s.calls[n].workflowId;
    var s2 := Advance(s, n, a);
    FailureIsRegistered(s, n, a);
    StepKeepsInvIff(s, n, a);
    orphan := s.queue[w].timer;
    InvQueue(s2);
    RescheduledOrphans(s2, w, c.kind.mode);
    FailedRetryReturns(s2, n, a);
  }

  lemma InvQueue(s: State)
    requires Inv(s)
    ensures QueueOk(s) && CallsOk(s)
  {
  }

  lemma FailureIsRegistered(s: State, n: nat, a: Answers)
    requires n in s.calls && s.calls[n].kind.Retry? && s.calls[n].stage.Failing? && a.Valid()
    ensures var s' := Advance(s, n, a);
            && SameQueueing(s, s') && !Disturbs(s, Step(n, a))
            && n in s'.calls && s'.calls[n] == s.calls[n].(stage := Ended(Threw(s.calls[n].stage.message)))
  {
  }

  lemma FailedRetryReturns(s: State, n: nat, a: Answers)
    requires n in s.calls && EndsRetry(s.calls[n]) && s.calls[n].workflowId in s.queue && a.Valid()
    ensures var r := Rescheduled(s, s.calls[n].workflowId, s.calls[n].kind.mode);
            Advance(s, n, a).timers == r.timers && AllDequeued(Advance(s, n, a)).timers == AllDequeued(r).timers
  {
    hide Without;
  }

  /** A retry whose bookkeeping fails after it has cleared the queue is such a retry. */
  lemma LateFailure(s: State, n: nat, a: Answers)
    requires n in s.calls && s.calls[n].kind.Retry? && s.calls[n].stage == Preparing && !s.calls[n].cleared && a.Valid()
    requires Prepare(s, s.calls[n].workflowId, s.calls[n].kind.mode, a).1.None?
    requires a.deregistering.None? && a.counting.Some?
    ensures var events := [Step(n, a), Step(n, a), Step(n, a), Step(n, a)];
            && IsRun(s, events)
            && var r := After(s, events);
               n in r.calls && r.calls[n] == s.calls[n].(stage := Failing(a.counting.value), cleared := true)
               && s.calls[n].workflowId !in r.queue
  {
    hide Advance, Prepare;
    var e, c := Step(n, a), s.calls[n];
    var s1 := Advance(s, n, a);
    PreparedNext(s, n, a);
    var s2 := Advance(s1, n, a);
    ClearedNext(s1, n, a);
    var s3 := Advance(s2, n, a);
    DeregisteredNext(s2, n, a);
    FailingNext(s3, n, a);
    OneStep(s3, e);
    OneStep(s2, e);
    RunConcat(s2, [e], [e]);
    OneStep(s1, e);
    RunConcat(s1, [e], [e] + [e]);
    OneStep(s, e);
    RunConcat(s, [e], [e] + ([e] + [e]));
    hide IsRun, After;
    assert [e] + ([e] + ([e] + [e])) == [e, e, e, e];
  }

  lemma PreparedNext(s: State, n: nat, a: Answers)
    requires n in s.calls && s.calls[n].kind.Retry? && s.calls[n].stage == Preparing && a.Valid()
    requires Prepare(s, s.calls[n].workflowId, s.calls[n].kind.mode, a).1.None?
    ensures n in Advance(s, n, a).calls && Advance(s, n, a).calls[n] == s.calls[n].(stage := Prepared)
  {
    hide Prepare;
  }

  lemma ClearedNext(s: State, n: nat, a: Answers)
    requires n in s.calls && s.calls[n].kind.Retry? && s.calls[n].stage == Prepared && a.Valid()
    ensures n in Advance(s, n, a).calls && Advance(s, n, a).calls[n] == s.calls[n].(stage := Cleared, cleared := true)
    ensures s.calls[n].workflowId !in Advance(s, n, a).queue
  {
    QueuedIff(s, Step(n, a), s.calls[n].workflowId);
    hide AddEffect;
  }

  lemma DeregisteredNext(s: State, n: nat, a: Answers)
    requires n in s.calls && s.calls[n].kind.Retry? && s.calls[n].stage == Cleared && a.Valid() && a.deregistering.None?
    ensures n in Advance(s, n, a).calls && Advance(s, n, a).calls[n] == s.calls[n].(stage := Deregistered)
    ensures Advance(s, n, a).queue == s.queue
  {
    hide Without;
  }

  lemma FailingNext(s: State, n: nat, a: Answers)
    requires n in s.calls && s.calls[n].kind.Retry? && s.calls[n].stage == Deregistered && a.Valid() && a.counting.Some?
    ensures n in Advance(s, n, a).calls && Advance(s, n, a).calls[n] == s.calls[n].(stage := Failing(a.counting.value))
    ensures Advance(s, n, a).queue == s.queue
  {
  }

  /** From the beginning: a workflow whose trigger failed is retried, is refused, and its trigger fails again
      before the refusal is registered. */
  lemma LeakReached(w: string) returns (events: seq<Event>)
    ensures IsRun(Initial(), events)
    ensures var r := After(Initial(), events); AllDequeued(r).timers != map[]
  {
    hide EmitError, RetryBegin, Advance, AllDequeued, IsRun, After;
    var a := Answers(Some("refused"), [], [], true, None, false, None, None, None, None, true);
    var s0 := Initial();
    var s1 := EmitError(s0, w, Activate, "", true);
    var s2 := s1.(clock := s1.clock + 1000);
    LeakStates(s0, s1, s2, w, a);
    var s3 := RetryBegin(s2, 0);
    var s4 := Advance(s3, 0, a);
    LeakStart(s0, s1, s2, s3, s4, w, a);
    RunStartKeepsInv(s0, s1, s2, s3, s4, w, a);
    var orphan := OverlapLeaksTimer(s4, 0, Activate, "", true, a);
    var first := [TriggerError(w, Activate, "", true), Tick(1000), FireTimer(0), Step(0, a)];
    var rest := [TriggerError(w, Activate, "", true), Step(0, a), Step(0, a)];
    RunConcat(s0, first, rest);
    events := first + rest;
  }

  /** The states of that run up to the failure of the retry. */
  lemma LeakStates(s0: State, s1: State, s2: State, w: string, a: Answers)
    requires s0 == Initial() && s1 == EmitError(s0, w, Activate, "", true) && s2 == s1.(clock := s1.clock + 1000)
    requires a == Answers(Some("refused"), [], [], true, None, false, None, None, None, None, true)
    ensures Enabled(s2, FireTimer(0))
    ensures var s3 := RetryBegin(s2, 0);
            && s3.calls == map[0 := Call(w, Retry(Activate), Preparing, false)]
            && Advance(s3, 0, a).calls == map[0 := Call(w, Retry(Activate), Failing("refused"), false)]
  {
    hide NextTimeout;
    assert s1.timers == map[0 := Timer(w, Activate, 1000)] && s1.calls == map[];
  }

  lemma LeakStart(s0: State, s1: State, s2: State, s3: State, s4: State, w: string, a: Answers)
    requires s1 == EmitError(s0, w, Activate, "", true) && s2 == s1.(clock := s1.clock + 1000)
    requires Enabled(s2, FireTimer(0)) && s3 == RetryBegin(s2, 0)
    requires a.Valid() && 0 in s3.calls && s4 == Advance(s3, 0, a)
    ensures var events := [TriggerError(w, Activate, "", true), Tick(1000), FireTimer(0), Step(0, a)];
            IsRun(s0, events) && After(s0, events) == s4
  {
    hide EmitError, RetryBegin, Advance;
    var e1, e2, e3, e4 := TriggerError(w, Activate, "", true), Tick(1000), FireTimer(0), Step(0, a);
    OneStep(s3, e4);
    RunCons(s2, e3, [e4]);
    RunCons(s1, e2, [e3] + [e4]);
    RunCons(s0, e1, [e2] + ([e3] + [e4]));
    assert [e1] + ([e2] + ([e3] + [e4])) == [e1, e2, e3, e4];
  }

  lemma RunStartKeepsInv(s0: State, s1: State, s2: State, s3: State, s4: State, w: string, a: Answers)
    requires s0 == Initial() && s1 == EmitError(s0, w, Activate, "", true) && s2 == s1.(clock := s1.clock + 1000)
    requires Enabled(s2, FireTimer(0)) && s3 == RetryBegin(s2, 0)
    requires a.Valid() && 0 in s3.calls && s3.calls[0].stage == Preparing && s4 == Advance(s3, 0, a)
    ensures Inv(s4)
  {
    InitialInv();
    hide Inv, EmitError, RetryBegin, Advance, EndsRetry, Initial;
    EmitErrorKeepsInv(s0, w, Activate, "", true);
    TickKeepsInv(s1, 1000);
    FireKeepsInv(s2, 0);
    StepKeepsInvIff(s3, 0, a);
    PreparingIsNoEnd(s3.calls[0]);
  }

  lemma PreparingIsNoEnd(c: Call)
    requires c.stage == Preparing
    ensures !EndsRetry(c)
  {
  }

  lemma InitialInv()
    ensures Inv(Initial()) && QueuedHasError(Initial()) && RetriesAlone(Initial())
  {
  }

  // ---------------------------------------------------------------- what changes queue and errors

  /** The events that take it out. */
  predicate Dequeues(s: State, e: Event, w: string)
    requires e.Step? ==> e.n in s.calls
  {
    e.EmptyQueue? || (e.Step? && s.calls[e.n].workflowId == w && ClearsQueue(s.calls[e.n]))
  }

  predicate Registers(s: State, e: Event, w: string)
    requires e.Step? ==> e.n in s.calls
  {
    (e.TriggerError? && e.w == w)
    || (e.Step? && s.calls[e.n].workflowId == w && !s.calls[e.n].kind.Removal? && s.calls[e.n].stage.Failing?)
  }

  /** A step that takes the error away. */
  predicate TakesError(c: Call, a: Answers) {
    (if c.kind.Removal? then c.stage.Prepared? else c.stage.Cleared?) && a.deregistering.None?
  }

  predicate Deregisters(s: State, e: Event, w: string)
    requires e.Step? ==> e.n in s.calls
  {
    e == ClearError(w) || e.ClearAllErrors?
      || (e.Step? && s.calls[e.n].workflowId == w && TakesError(s.calls[e.n], e.a))
  }

  /** A workflow is queued after an event exactly when the event queues it, or it was and is not taken out:
      nothing is lost otherwise. */
  lemma QueuedIff(s: State, e: Event, w: string)
    requires Enabled(s, e)
    ensures w in Next(s, e).queue <==> Queues(s, e, w) || (w in s.queue && !Dequeues(s, e, w))
  {
    hide Effect, QueueEffect, ClearsQueue, QueuesStartup, Moved, NextTimeout;
    if e.Step? {
      StepQueueing(s, s.calls[e.n], e.a);
      QueueEffectQueue(s, s.calls[e.n], w);
    } else {
      hide Without;
    }
  }

  lemma QueueEffectQueue(s: State, c: Call, w: string)
    ensures w in QueueEffect(s, c).queue <==>
            (c.workflowId == w && QueuesStartup(c)) || (w in s.queue && !(c.workflowId == w && ClearsQueue(c)))
  {
    hide NextTimeout, IsAuthorization;
  }

  /** What a step does to the errors. */
  lemma StepErrors(s: State, c: Call, a: Answers)
    requires a.Valid()
    ensures Effect(s, c, a).errors ==
            if !c.kind.Removal? && c.stage.Failing? then s.errors[c.workflowId := c.stage.message]
            else if TakesError(c, a) then Without(s.errors, c.workflowId)
            else s.errors
  {
    hide Without, Rescheduled, W.Cleared;
    if !c.kind.Removal? {
      if c.stage.Preparing? {
        PrepareEffects(s, c.workflowId, c.kind.mode, a);
        hide Prepare;
      } else if c.stage.Ended? {
        hide IsAuthorization;
        SameErrors(s, c);
      }
    }
  }

  lemma SameErrors(s: State, c: Call)
    ensures c.kind.Retry? && c.workflowId in s.queue ==> Rescheduled(s, c.workflowId, c.kind.mode).errors == s.errors
  {
  }

  /** The same for activation errors. */
  lemma InErrorIff(s: State, e: Event, w: string)
    requires Enabled(s, e)
    ensures w in Next(s, e).errors <==> Registers(s, e, w) || (w in s.errors && !Deregisters(s, e, w))
  {
    hide Moved, Effect, NextTimeout, IsAuthorization;
    if e.Step? {
      StepErrors(s, s.calls[e.n], e.a);
    } else {
      hide Dequeued;
    }
  }

  ghost predicate NeverQueues(s: State, events: seq<Event>, w: string)
    requires IsRun(s, events)
    decreases |events|
  {
    events == [] || (!Queues(s, events[0], w) && NeverQueues(Next(s, events[0]), events[1..], w))
  }

  ghost predicate NeverDequeues(s: State, events: seq<Event>, w: string)
    requires IsRun(s, events)
    decreases |events|
  {
    events == [] || (!Dequeues(s, events[0], w) && NeverDequeues(Next(s, events[0]), events[1..], w))
  }

  ghost predicate NeverRegisters(s: State, events: seq<Event>, w: string)
    requires IsRun(s, events)
    decreases |events|
  {
    events == [] || (!Registers(s, events[0], w) && NeverRegisters(Next(s, events[0]), events[1..], w))
  }

  lemma {:induction false} StaysOut(s: State, events: seq<Event>, w: string)
    requires IsRun(s, events) && w !in s.queue && NeverQueues(s, events, w)
    ensures w !in After(s, events).queue
    decreases |events|
  {
    hide Next, Queues, Dequeues;
    if events != [] {
      QueuedIff(s, events[0], w);
      StaysOut(Next(s, events[0]), events[1..], w);
    }
  }

  lemma {:induction false} StaysQueued(s: State, events: seq<Event>, w: string)
    requires IsRun(s, events) && w in s.queue && NeverDequeues(s, events, w)
    ensures w in After(s, events).queue
    decreases |events|
  {
    hide Next, Queues, Dequeues;
    if events != [] {
      QueuedIff(s, events[0], w);
      StaysQueued(Next(s, events[0]), events[1..], w);
    }
  }

  lemma {:induction false} StaysWithoutError(s: State, events: seq<Event>, w: string)
    requires IsRun(s, events) && w !in s.errors && NeverRegisters(s, events, w)
    ensures w !in After(s, events).errors
    decreases |events|
  {
    hide Next, Registers, Deregisters;
    if events != [] {
      InErrorIff(s, events[0], w);
      StaysWithoutError(Next(s, events[0]), events[1..], w);
    }
  }

  /** An `add` that clears the queue and later the error leaves its workflow with neither, at its end and as
      long as nothing queues the workflow or registers an error for it again. */
  lemma SettledAfterAdd(s: State, n: nat, a: Answers, between: seq<Event>, b: Answers, later: seq<Event>)
    requires n in s.calls && !s.calls[n].kind.Removal? && s.calls[n].stage.Prepared? && a.Valid()
    requires var s1 := Advance(s, n, a);
             && IsRun(s1, between)
             && var s2 := After(s1, between);
                && n in s2.calls && s2.calls[n] == s1.calls[n] && b.Valid() && b.deregistering.None?
                && IsRun(Advance(s2, n, b), later)
                && var w := s.calls[n].workflowId;
                   NeverQueues(s1, between, w) && NeverQueues(Advance(s2, n, b), later, w)
                   && NeverRegisters(Advance(s2, n, b), later, w)
    ensures var r := After(Advance(After(Advance(s, n, a), between), n, b), later);
            s.calls[n].workflowId !in r.queue && s.calls[n].workflowId !in r.errors
  {
    var w, s1 := s.calls[n].workflowId, Advance(s, n, a);
    var s2 := After(s1, between);
    var s3 := Advance(s2, n, b);
    assert s1.calls[n].stage == Cleared;
    QueuedIff(s, Step(n, a), w);
    StaysOut(s1, between, w);
    QueuedIff(s2, Step(n, b), w);
    InErrorIff(s2, Step(n, b), w);
    hide Advance;
    StaysOut(s3, later, w);
    StaysWithoutError(s3, later, w);
  }

  /** A `remove` that takes the error away and later clears the queue leaves its workflow with neither, as long
      as nothing registers an error or queues the workflow again. */
  lemma SettledAfterRemove(s: State, n: nat, a: Answers, between: seq<Event>, b: Answers, later: seq<Event>)
    requires n in s.calls && s.calls[n].kind.Removal? && s.calls[n].stage.Prepared? && a.Valid()
             && a.deregistering.None?
    requires var s1 := Advance(s, n, a);
             && IsRun(s1, between)
             && var s2 := After(s1, between);
                && n in s2.calls && s2.calls[n] == s1.calls[n] && b.Valid()
                && IsRun(Advance(s2, n, b), later)
                && var w := s.calls[n].workflowId;
                   NeverRegisters(s1, between, w) && NeverRegisters(Advance(s2, n, b), later, w)
                   && NeverQueues(Advance(s2, n, b), later, w)
    ensures var r := After(Advance(After(Advance(s, n, a), between), n, b), later);
            s.calls[n].workflowId !in r.queue && s.calls[n].workflowId !in r.errors
  {
    var w, s1 := s.calls[n].workflowId, Advance(s, n, a);
    var s2 := After(s1, between);
    var s3 := Advance(s2, n, b);
    assert s1.calls[n].stage == Deregistered;
    InErrorIff(s, Step(n, a), w);
    StaysWithoutError(s1, between, w);
    InErrorIff(s2, Step(n, b), w);
    QueuedIff(s2, Step(n, b), w);
    hide Advance;
    StaysOut(s3, later, w);
    StaysWithoutError(s3, later, w);
  }

  // ---------------------------------------------------------------- errors of queued workflows

  /** A removal has taken the error of the workflow, and is about to clear its queue entry. */
  ghost predicate BeingRemoved(s: State, w: string) {
    exists n :: n in s.calls && RemovesNext(s.calls[n], w)
  }

  predicate RemovesNext(c: Call, w: string) { c.kind.Removal? && c.stage.Deregistered? && c.workflowId == w }

  /** Every queued workflow has an activation error, but for those being removed. */
  ghost predicate QueuedHasError(s: State) {
    forall w :: w in s.queue ==> w in s.errors || BeingRemoved(s, w)
  }

  /** The events that leave a queued workflow without an error: clearing errors by hand; an `add` that takes
      the error of a workflow which has been queued anew since it cleared the queue; and the start-up loop,
      when it queues a workflow whose error is gone. */
  ghost predicate Forgets(s: State, e: Event)
    requires e.Step? ==> e.n in s.calls
  {
    match e
    case ClearError(w) => w in s.queue && !BeingRemoved(s, w)
    case ClearAllErrors => exists w :: w in s.queue && !BeingRemoved(s, w)
    case Step(n, a) =>
      var c := s.calls[n];
      var w := c.workflowId;
      !BeingRemoved(s, w) &&
      ((!c.kind.Removal? && TakesError(c, a) && w in s.queue) || (QueuesStartup(c) && w !in s.errors))
    case _ => false
  }

  lemma StepKeepsErrorsIff(s: State, n: nat, a: Answers)
    requires QueuedHasError(s) && n in s.calls && a.Valid()
    ensures QueuedHasError(Advance(s, n, a)) <==> !Forgets(s, Step(n, a))
  {
    var c, s' := s.calls[n], Advance(s, n, a);
    forall w ensures w in s'.queue <==> Queues(s, Step(n, a), w) || (w in s.queue && !Dequeues(s, Step(n, a), w)) {
      QueuedIff(s, Step(n, a), w);
    }
    forall w
      ensures w in s'.errors <==> Registers(s, Step(n, a), w) || (w in s.errors && !Deregisters(s, Step(n, a), w))
    {
      InErrorIff(s, Step(n, a), w);
    }
    forall w
      ensures BeingRemoved(s', w) <==> if w == c.workflowId then StillBeingRemoved(s, n, a) else BeingRemoved(s, w)
    {
      BeingRemovedAfter(s, n, a, w);
    }
    hide Advance, BeingRemoved, IsAuthorization;
    assert c.kind.Removal? ==> !QueuesStartup(c);
    if Forgets(s, Step(n, a)) {
      assert c.workflowId in s'.queue && c.workflowId !in s'.errors && !BeingRemoved(s', c.workflowId);
    }
  }

  /** Whether the workflow of call `n` is being removed after its step. */
  ghost predicate StillBeingRemoved(s: State, n: nat, a: Answers)
    requires n in s.calls
  {
    var c := s.calls[n];
    || (c.kind.Removal? && TakesError(c, a))
    || exists m :: m in s.calls && m != n && RemovesNext(s.calls[m], c.workflowId)
  }

  lemma BeingRemovedAfter(s: State, n: nat, a: Answers, w: string)
    requires n in s.calls && a.Valid()
    ensures BeingRemoved(Advance(s, n, a), w) <==>
            if w == s.calls[n].workflowId then StillBeingRemoved(s, n, a) else BeingRemoved(s, w)
  {
    var c, s' := s.calls[n], Advance(s, n, a);
    StepQueueing(s, c, a);
    MovedRemoval(s, n, a, w);
    hide Effect, StageAfter, SameQueueing;
    forall m | m != n
      ensures (m in s'.calls && RemovesNext(s'.calls[m], w)) == (m in s.calls && RemovesNext(s.calls[m], w))
    {
    }
  }

  lemma MovedRemoval(s: State, n: nat, a: Answers, w: string)
    requires n in s.calls && a.Valid()
    ensures var s', c := Advance(s, n, a), s.calls[n];
            n in s'.calls && RemovesNext(s'.calls[n], w) <==> c.kind.Removal? && TakesError(c, a) && c.workflowId == w
  {
    hide AddEffect, RemoveEffect;
  }

  /** Exactly when an event leaves a queued workflow without an error. */
  lemma NextKeepsErrorsIff(s: State, e: Event)
    requires QueuedHasError(s) && CallsOk(s) && Enabled(s, e)
    ensures QueuedHasError(Next(s, e)) <==> !Forgets(s, e)
  {
    if e.Step? {
      StepKeepsErrorsIff(s, e.n, e.a);
      hide Advance, Forgets;
    } else {
      OtherKeepsErrorsIff(s, e);
    }
  }

  lemma OtherKeepsErrorsIff(s: State, e: Event)
    requires QueuedHasError(s) && CallsOk(s) && Enabled(s, e) && !e.Step?
    ensures QueuedHasError(Next(s, e)) <==> !Forgets(s, e)
  {
    var s' := Next(s, e);
    forall w ensures w in s'.queue <==> Queues(s, e, w) || (w in s.queue && !Dequeues(s, e, w)) { QueuedIff(s, e, w); }
    forall w ensures w in s'.errors <==> Registers(s, e, w) || (w in s.errors && !Deregisters(s, e, w)) {
      InErrorIff(s, e, w);
    }
    forall w ensures BeingRemoved(s', w) <==> BeingRemoved(s, w) { OtherKeepsRemovals(s, e, w); }
    hide Next, BeingRemoved;
    if e.ClearError? && Forgets(s, e) {
      assert e.w in s'.queue && e.w !in s'.errors && !BeingRemoved(s', e.w);
    }
    if e.ClearAllErrors? && Forgets(s, e) {
      var w :| w in s.queue && !BeingRemoved(s, w);
      assert w in s'.queue && w !in s'.errors && !BeingRemoved(s', w);
    }
  }

  lemma PreparingNotRemoved(s: State, n: nat, w: string)
    ensures n in s.calls && s.calls[n].stage == Preparing ==> !RemovesNext(s.calls[n], w)
  {
  }

  lemma OtherKeepsRemovals(s: State, e: Event, w: string)
    requires Enabled(s, e) && !e.Step? && CallsOk(s)
    ensures BeingRemoved(Next(s, e), w) <==> BeingRemoved(s, w)
  {
    hide Next, CallOk, RemovesNext;
    OtherKeepsCalls(s, e);
    PreparingNotRemoved(Next(s, e), s.nextCall, w);
    var s' := Next(s, e);
    if n :| n in s.calls && RemovesNext(s.calls[n], w) {
      assert n in s'.calls && RemovesNext(s'.calls[n], w);
    }
  }

  /** What is not a step of a call begins one at most. */
  lemma OtherKeepsCalls(s: State, e: Event)
    requires Enabled(s, e) && !e.Step?
    ensures var s' := Next(s, e);
            SameCalls(s, s') ||
            (s'.nextCall == s.nextCall + 1 && s.nextCall in s'.calls && s'.calls[s.nextCall].stage == Preparing
             && s'.calls == s.calls[s.nextCall := s'.calls[s.nextCall]])
  {
    match e
    case TriggerError(w, mode, message, closes) => EmitErrorQueues(s, w, mode, message, closes); hide EmitError;
    case FireTimer(timer) => hide Without;
    case AddOne(w, mode) =>
    case StartupOne(w, mode) =>
    case RemoveOne(w) =>
    case EmptyQueue =>
    case ClearError(w) =>
    case ClearAllErrors =>
    case Tick(ms) =>
  }

  lemma NextKeepsCallsOk(s: State, e: Event)
    requires CallsOk(s) && Enabled(s, e)
    ensures CallsOk(Next(s, e))
  {
    if e.Step? {
      StepKeepsCallsOk(s, e.n, e.a);
      hide Advance;
    } else {
      OtherKeepsCalls(s, e);
      hide Next;
    }
  }

  // ---------------------------------------------------------------- retries that end badly

  /** A retry reads a missing entry only if something has taken the entry out since its timer fired: an `add`
      that cleared the queue (itself, or another), a removal, or emptying the queue. */
  lemma CrashNeedsDequeue(s: State, timer: nat, events: seq<Event>, n: nat)
    requires Inv(s) && Enabled(s, FireTimer(timer)) && IsRun(RetryBegin(s, timer), events)
    requires var r := After(RetryBegin(s, timer), events);
             Crashes(r, n) && r.calls[n].workflowId == s.timers[timer].workflowId
    ensures !NeverDequeues(RetryBegin(s, timer), events, s.timers[timer].workflowId)
  {
    var w, s1 := s.timers[timer].workflowId, RetryBegin(s, timer);
    assert TimerRecorded(s, timer) && w in s1.queue;
    hide RetryBegin;
    if NeverDequeues(s1, events, w) {
      StaysQueued(s1, events, w);
    }
  }

  /** A call followed until its end, or until its caller is about to learn of it. */
  function UntilEnded(s: State, n: nat, a: Answers): State
    requires n in s.calls && !s.calls[n].kind.Removal? && a.Valid()
    decreases StepsLeft(s.calls[n].stage)
  {
    if s.calls[n].stage.Ended? then s else UntilEnded(Advance(s, n, a), n, a)
  }

  /** Whether the bookkeeping after the clearing of the queue fails. */
  predicate FailsLate(a: Answers) { a.deregistering.Some? || a.counting.Some? || a.saving.Some? }

  /** What a call that nothing interrupts will end in, by its stage. */
  predicate WillCrash(s: State, c: Call, a: Answers)
    requires !c.kind.Removal? && a.Valid()
  {
    match c.stage
    case Preparing =>
      if Prepare(s, c.workflowId, c.kind.mode, a).1.None? then FailsLate(a) else c.workflowId !in s.queue
    case Prepared => FailsLate(a)
    case Cleared => FailsLate(a) && c.workflowId !in s.queue
    case Deregistered => (a.counting.Some? || a.saving.Some?) && c.workflowId !in s.queue
    case Counted => a.saving.Some? && c.workflowId !in s.queue
    case Failing(_) => c.workflowId !in s.queue
    case Ended(outcome) => outcome.Threw? && c.workflowId !in s.queue
  }

  /** A retry that nothing interrupts ends in an unhandled error exactly when its failure comes after it has
      cleared the queue, or it finds no entry. */
  lemma {:induction false} UninterruptedCrashIff(s: State, n: nat, a: Answers)
    requires n in s.calls && s.calls[n].kind.Retry? && a.Valid()
    ensures n in UntilEnded(s, n, a).calls
    ensures Crashes(UntilEnded(s, n, a), n) <==> WillCrash(s, s.calls[n], a)
    decreases StepsLeft(s.calls[n].stage)
  {
    if !s.calls[n].stage.Ended? {
      OneStepCloser(s, n, a);
      hide Advance, WillCrash, Crashes;
      UninterruptedCrashIff(Advance(s, n, a), n, a);
    }
  }

  lemma OneStepCloser(s: State, n: nat, a: Answers)
    requires n in s.calls && s.calls[n].kind.Retry? && !s.calls[n].stage.Ended? && a.Valid()
    ensures var s' := Advance(s, n, a);
            && n in s'.calls && s'.calls[n].kind.Retry? && StepsLeft(s'.calls[n].stage) < StepsLeft(s.calls[n].stage)
            && (WillCrash(s', s'.calls[n], a) <==> WillCrash(s, s.calls[n], a))
  {
    var c, s' := s.calls[n], Advance(s, n, a);
    StepQueueing(s, c, a);
    QueueEffectQueue(s, c, c.workflowId);
    assert s'.queue == QueueEffect(s, c).queue;
    assert n in s'.calls && s'.calls[n].workflowId == c.workflowId && s'.calls[n].kind == c.kind;
    assert Some(s'.calls[n].stage) == AddStage(s, c, a);
    hide Effect, QueueEffect, Prepare, Moved, SameQueueing;
  }

  // ---------------------------------------------------------------- start-up

  /** The workflow waits for its first retry. */
  predicate Waits(s: State, w: string) {
    && w in s.queue && s.queue[w].mode == Init && s.queue[w].lastTimeout == INITIAL_TIMEOUT
    && s.queue[w].timer in s.timers && s.timers[s.queue[w].timer] == Timer(w, Init, s.clock + INITIAL_TIMEOUT)
  }

  lemma QueuedWaits(s: State, n: nat, a: Answers)
    requires n in s.calls && QueuesStartup(s.calls[n]) && a.Valid()
    ensures Waits(Advance(s, n, a), s.calls[n].workflowId) && s.calls[n].workflowId in Advance(s, n, a).queue
  {
    hide Dequeued, IsAuthorization;
    assert Effect(s, s.calls[n], a) == Enqueued(s, Init, s.calls[n].workflowId);
    DequeuedCalls(s, s.calls[n].workflowId);
    assert Dequeued(s, s.calls[n].workflowId).clock == s.clock by { SameClock(s, s.calls[n].workflowId); }
  }

  lemma SameClock(s: State, w: string)
    ensures Dequeued(s, w).clock == s.clock
  {
  }

  /** The start-up loop learns that an activation has failed: unless for authorization, the workflow waits for
      its first retry, and it stays queued, waiting for a timer or in a retry, until an `add` clears the queue,
      it is removed, or the queue is emptied. */
  lemma StartupFailureStays(s: State, n: nat, a: Answers, events: seq<Event>)
    requires Inv(s) && n in s.calls && QueuesStartup(s.calls[n]) && a.Valid()
    requires IsRun(Advance(s, n, a), events) && NeverDequeues(Advance(s, n, a), events, s.calls[n].workflowId)
    requires Undisturbed(Advance(s, n, a), events)
    ensures Waits(Advance(s, n, a), s.calls[n].workflowId)
    ensures var r := After(Advance(s, n, a), events);
            s.calls[n].workflowId in r.queue && EntryServed(r, s.calls[n].workflowId)
  {
    var w, s1 := s.calls[n].workflowId, Advance(s, n, a);
    QueuedWaits(s, n, a);
    hide Advance, Inv, Waits, IsAuthorization;
    StepKeepsInvIff(s, n, a);
    StaysQueued(s1, events, w);
    RunKeepsInv(s1, events);
    InvQueue(After(s1, events));
  }

  // ---------------------------------------------------------------- calls that nothing interrupts

  /** A step looks at no call but its own. */
  lemma StepIgnoresCalls(s: State, calls: map<nat, Call>, c: Call, a: Answers)
    requires !c.kind.Removal? && a.Valid()
    ensures AddEffect(s.(calls := calls), c, a) == AddEffect(s, c, a).(calls := calls)
    ensures AddStage(s.(calls := calls), c, a) == AddStage(s, c, a)
  {
    hide Prepare, Dequeued, Returned, Without;
    match c.stage
    case Preparing => PrepareIgnoresCalls(s, calls, c.workflowId, c.kind.mode, a);
    case Prepared => DequeuedIgnoresCalls(s, calls, c.workflowId);
    case Ended(outcome) => ReturnedIgnoresCalls(s, calls, c, outcome);
    case Cleared =>
    case Deregistered =>
    case Counted =>
    case Failing(_) =>
  }

  lemma PrepareIgnoresCalls(s: State, calls: map<nat, Call>, w: string, mode: Mode, a: Answers)
    requires a.Valid()
    ensures Prepare(s.(calls := calls), w, mode, a).0 == Prepare(s, w, mode, a).0.(calls := calls)
    ensures Prepare(s.(calls := calls), w, mode, a).1 == Prepare(s, w, mode, a).1
  {
    hide W.Registration;
    if a.refusal.None? {
      var (rows, result) :=
        if AddsWebhooks(mode) then W.Registration(s.webhooks, w, a.hooks, a.steps, mode == Init, a.clears, a.tail)
        else (s.webhooks, W.Returned);
      if !result.Threw? && a.hasTriggers {
        assert Prepare(s, w, mode, a).0 == s.(webhooks := rows, inMemory := s.inMemory + {w});
      } else {
        assert Prepare(s, w, mode, a).0 == s.(webhooks := rows);
      }
    }
  }

  lemma DequeuedIgnoresCalls(s: State, calls: map<nat, Call>, w: string)
    ensures Dequeued(s.(calls := calls), w) == Dequeued(s, w).(calls := calls)
  {
    hide Without;
  }

  lemma ReturnedIgnoresCalls(s: State, calls: map<nat, Call>, c: Call, outcome: Outcome)
    requires !c.kind.Removal?
    ensures Returned(s.(calls := calls), c, outcome) == Returned(s, c, outcome).(calls := calls)
  {
    hide Enqueued, Rescheduled, IsAuthorization;
    match c.kind
    case Retry(mode) =>
      if c.workflowId in s.queue {
        RescheduledIgnoresCalls(s, calls, c.workflowId, mode);
      }
    case Startup(_) => EnqueuedIgnoresCalls(s, calls, c.workflowId);
    case Direct(_) =>
  }

  lemma EnqueuedIgnoresCalls(s: State, calls: map<nat, Call>, w: string)
    ensures Enqueued(s.(calls := calls), Init, w) == Enqueued(s, Init, w).(calls := calls)
  {
    DequeuedIgnoresCalls(s, calls, w);
    hide Dequeued;
  }

  lemma RescheduledIgnoresCalls(s: State, calls: map<nat, Call>, w: string, mode: Mode)
    requires w in s.queue
    ensures Rescheduled(s.(calls := calls), w, mode) == Rescheduled(s, w, mode).(calls := calls)
  {
    hide NextTimeout;
  }

  /** The steps of a call, one after the other. */
  ghost function StepsOf(s: State, n: nat, a: Answers): seq<Event>
    requires (n in s.calls ==> !s.calls[n].kind.Removal?) && a.Valid()
    decreases if n in s.calls then StepsLeft(s.calls[n].stage) else 0
  {
    if n !in s.calls then [] else [Step(n, a)] + StepsOf(Advance(s, n, a), n, a)
  }

  /** A call that nothing interrupts ends as its steps, one after the other, say. */
  lemma {:induction false} CompletedIsSteps(s: State, n: nat, a: Answers)
    requires n in s.calls && !s.calls[n].kind.Removal? && a.Valid()
    ensures IsRun(s, StepsOf(s, n, a))
    ensures After(s, StepsOf(s, n, a)) == Completed(s.(calls := Without(s.calls, n)), s.calls[n], a)
    decreases StepsLeft(s.calls[n].stage)
  {
    var c, s', rest := s.calls[n], Advance(s, n, a), Without(s.calls, n);
    StepIgnoresCalls(s, rest, c, a);
    AdvanceOfAdd(s, n, a);
    assert StepsOf(s, n, a)[1..] == StepsOf(s', n, a) && StepsOf(s, n, a)[0] == Step(n, a);
    if n in s'.calls {
      CompletedIsSteps(s', n, a);
      CompletedIgnoresFlag(AddEffect(s.(calls := rest), c, a), c.(stage := AddStage(s, c, a).value), s'.calls[n], a);
    }
  }

  lemma AdvanceOfAdd(s: State, n: nat, a: Answers)
    requires n in s.calls && !s.calls[n].kind.Removal? && a.Valid()
    ensures var s', c, rest := Advance(s, n, a), s.calls[n], Without(s.calls, n);
            && s'.(calls := rest) == AddEffect(s, c, a).(calls := rest)
            && (n in s'.calls <==> AddStage(s, c, a).Some?)
            && (n in s'.calls ==> Without(s'.calls, n) == rest && s'.calls[n].stage == AddStage(s, c, a).value
                                  && s'.calls[n].workflowId == c.workflowId && s'.calls[n].kind == c.kind)
            && (n !in s'.calls ==> s'.calls == rest)
  {
    hide AddEffect, AddStage;
  }

  /** Nothing depends on the history of a call. */
  lemma {:induction false} CompletedIgnoresFlag(s: State, c: Call, d: Call, a: Answers)
    requires !c.kind.Removal? && a.Valid() && d == c.(cleared := d.cleared, counted := d.counted)
    ensures Completed(s, c, a) == Completed(s, d, a)
    decreases StepsLeft(c.stage)
  {
    hide Prepare, Dequeued, Enqueued, Rescheduled, Without, IsAuthorization;
    assert AddEffect(s, c, a) == AddEffect(s, d, a) && AddStage(s, c, a) == AddStage(s, d, a);
    var stage := AddStage(s, c, a);
    if stage.Some? {
      CompletedIgnoresFlag(AddEffect(s, c, a), c.(stage := stage.value), d.(stage := stage.value), a);
    }
  }

  /** Completing a call, one step at a time. */
  lemma CompletedOneStep(s: State, n: nat, a: Answers)
    requires n in s.calls && !s.calls[n].kind.Removal? && a.Valid()
    ensures var s', rest := Advance(s, n, a), Without(s.calls, n);
            if n in s'.calls then
              !s'.calls[n].kind.Removal? && Without(s'.calls, n) == rest
              && StepsLeft(s'.calls[n].stage) < StepsLeft(s.calls[n].stage)
              && Completed(s.(calls := rest), s.calls[n], a) == Completed(s'.(calls := rest), s'.calls[n], a)
            else s' == Completed(s.(calls := rest), s.calls[n], a)
  {
    var c, s', rest := s.calls[n], Advance(s, n, a), Without(s.calls, n);
    StepIgnoresCalls(s, rest, c, a);
    AdvanceOfAdd(s, n, a);
    if n in s'.calls {
      CompletedIgnoresFlag(AddEffect(s.(calls := rest), c, a), c.(stage := AddStage(s, c, a).value), s'.calls[n], a);
    }
    hide AddEffect, AddStage, Advance;
  }

  lemma {:induction false} CompletedCalls(s: State, c: Call, a: Answers)
    requires !c.kind.Removal? && a.Valid()
    ensures SameCalls(s, Completed(s, c, a))
    decreases StepsLeft(c.stage)
  {
    AddQueueing(s, c, a);
    hide AddEffect, AddStage, SameQueueing;
    var stage := AddStage(s, c, a);
    if stage.Some? {
      CompletedCalls(AddEffect(s, c, a), c.(stage := stage.value), a);
    }
  }
}
