/** Queued workflows and their activation errors, over every run in which calls for one workflow do not mix. */
module ActivationErrors {
  import opened Wrappers
  import opened Activation
  import opened ActivationTheorems
  import opened ActivationOutcomes
  import W = WebhookRegistration

  // ---------------------------------------------------------------- separate runs

  /** The workflow for which an event begins a call, or reports a trigger error. */
  function Concerns(s: State, e: Event): Option<string>
    requires e.FireTimer? ==> e.timer in s.timers
  {
    match e
    case AddOne(w, _) => Some(w)
    case StartupOne(w, _) => Some(w)
    case FireTimer(timer) => Some(s.timers[timer].workflowId)
    case RemoveOne(w) => Some(w)
    case TriggerError(w, _, _, _) => Some(w)
    case _ => None
  }

  /** While a call for a workflow is under way, no other begins for it, and no trigger of it reports an error.
      Errors are not cleared by hand. */
  ghost predicate SeparateEvent(s: State, e: Event)
    requires Enabled(s, e)
  {
    && !e.ClearError? && !e.ClearAllErrors?
    && forall n :: n in s.calls ==> Concerns(s, e) != Some(s.calls[n].workflowId)
  }

  ghost predicate Separate(s: State, events: seq<Event>)
    requires IsRun(s, events)
    decreases |events|
  {
    events == [] || (SeparateEvent(s, events[0]) && Separate(Next(s, events[0]), events[1..]))
  }

  /** What is known of the workflow of a call of `add`: cleared, it is not queued; deregistered, it has no error;
      refused, it has one; and once its bookkeeping is done it has none, even if saving failed. */
  predicate CallKnown(s: State, c: Call) {
    match c.stage
    case Preparing => !c.counted
    case Prepared => !c.counted
    case Cleared => !c.counted && c.workflowId !in s.queue
    case Deregistered => !c.counted && c.workflowId !in s.errors
    case Counted => !c.counted && c.workflowId !in s.errors
    case Failing(_) => !c.counted
    case Ended(_) => c.workflowId in s.errors <==> !c.counted
  }

  /** No two calls are for one workflow. */
  ghost predicate SeparateCalls(s: State) {
    && (forall n, m :: n in s.calls && m in s.calls && s.calls[n].workflowId == s.calls[m].workflowId ==> n == m)
    && forall n :: n in s.calls && !s.calls[n].kind.Removal? ==> CallKnown(s, s.calls[n])
  }

  /** A start-up call returns whose only failure was that of saving the static data, and not for authorization. */
  predicate LateStartup(s: State, e: Event)
    requires e.Step? ==> e.n in s.calls
  {
    e.Step? && QueuesStartup(s.calls[e.n]) && s.calls[e.n].counted
  }

  /** In such runs that, and nothing else, leaves a queued workflow without an error. */
  lemma ForgetsIff(s: State, e: Event)
    requires SeparateCalls(s) && CallsOk(s) && Enabled(s, e) && SeparateEvent(s, e)
    ensures Forgets(s, e) <==> LateStartup(s, e)
  {
    if e.Step? {
      var c := s.calls[e.n];
      assert !c.kind.Removal? ==> CallKnown(s, c) && !BeingRemoved(s, c.workflowId);
      hide SeparateCalls, CallsOk, BeingRemoved, IsAuthorization;
    }
  }

  /** A workflow of which no call is stepped and which the event does not concern stays as it is. */
  lemma Unconcerned(s: State, e: Event, w: string)
    requires Enabled(s, e) && !e.ClearError? && !e.ClearAllErrors? && Concerns(s, e) != Some(w)
    requires e.Step? ==> s.calls[e.n].workflowId != w
    ensures w in Next(s, e).queue ==> w in s.queue
    ensures w in Next(s, e).errors <==> w in s.errors
  {
    QueuedIff(s, e, w);
    InErrorIff(s, e, w);
    hide Next, QueuesStartup, ClearsQueue;
  }

  lemma KnownKept(s: State, s': State, c: Call)
    requires CallKnown(s, c) && (c.workflowId in s'.queue ==> c.workflowId in s.queue)
    requires c.workflowId in s'.errors <==> c.workflowId in s.errors
    ensures CallKnown(s', c)
  {
  }

  /** The stages an `add` goes through. */
  lemma StepKnown(s: State, n: nat, a: Answers)
    requires n in s.calls && !s.calls[n].kind.Removal? && CallKnown(s, s.calls[n])
    requires a.Valid() && n in Advance(s, n, a).calls
    ensures CallKnown(Advance(s, n, a), Advance(s, n, a).calls[n])
  {
    var c, s' := s.calls[n], Advance(s, n, a);
    StepErrors(s, c, a);
    StepQueueing(s, c, a);
    QueueEffectQueue(s, c, c.workflowId);
    assert s'.queue == QueueEffect(s, c).queue && s'.errors == Effect(s, c, a).errors;
    assert Some(s'.calls[n].stage) == AddStage(s, c, a) && s'.calls[n] == Marked(c).(stage := s'.calls[n].stage);
    hide Effect, QueueEffect, Prepare, Moved, SameQueueing, IsAuthorization;
  }

  lemma StepSeparate(s: State, n: nat, a: Answers)
    requires SeparateCalls(s) && n in s.calls && a.Valid()
    ensures SeparateCalls(Advance(s, n, a))
  {
    var s' := Advance(s, n, a);
    RetryMoves(s, n, a);
    OthersUnmoved(s, n, a);
    hide Advance, CallKnown;
    forall m | m in s'.calls && !s'.calls[m].kind.Removal? ensures CallKnown(s', s'.calls[m]) {
      if m == n {
        StepKnown(s, n, a);
      } else {
        Unconcerned(s, Step(n, a), s.calls[m].workflowId);
        KnownKept(s, s', s.calls[m]);
      }
    }
  }

  lemma OthersUnmoved(s: State, n: nat, a: Answers)
    requires n in s.calls && a.Valid()
    ensures var s' := Advance(s, n, a);
            forall m :: m != n && m in s'.calls ==> m in s.calls && s'.calls[m] == s.calls[m]
  {
    StepQueueing(s, s.calls[n], a);
    hide Effect, StageAfter, SameQueueing;
  }

  lemma NextSeparate(s: State, e: Event)
    requires SeparateCalls(s) && CallsOk(s) && Enabled(s, e) && SeparateEvent(s, e)
    ensures SeparateCalls(Next(s, e))
  {
    if e.Step? {
      StepSeparate(s, e.n, e.a);
      hide Advance, SeparateCalls;
    } else {
      OtherSeparate(s, e);
      hide Next, SeparateCalls;
    }
  }

  lemma OtherSeparate(s: State, e: Event)
    requires SeparateCalls(s) && CallsOk(s) && Enabled(s, e) && SeparateEvent(s, e) && !e.Step?
    ensures SeparateCalls(Next(s, e))
  {
    hide Next, CallKnown, Enabled;
    var s' := Next(s, e);
    OtherKeepsCalls(s, e);
    NewCallConcerned(s, e);
    forall m | m in s'.calls && !s'.calls[m].kind.Removal? ensures CallKnown(s', s'.calls[m]) {
      if m in s.calls && s'.calls[m] == s.calls[m] {
        Unconcerned(s, e, s.calls[m].workflowId);
        KnownKept(s, s', s.calls[m]);
      } else {
        NewCallKnown(s', s'.calls[m]);
      }
    }
  }

  lemma NewCallKnown(s: State, c: Call)
    requires c.stage == Preparing && !c.counted
    ensures CallKnown(s, c)
  {
  }

  /** A new call is for the workflow that the event concerns. */
  lemma NewCallConcerned(s: State, e: Event)
    requires Enabled(s, e) && !e.Step? && s.nextCall !in s.calls
    ensures var s' := Next(s, e);
            s.nextCall in s'.calls ==>
              Some(s'.calls[s.nextCall].workflowId) == Concerns(s, e) && !s'.calls[s.nextCall].counted
  {
    if e.TriggerError? {
      EmitErrorCalls(s, e.w, e.mode, e.message, e.closes);
      hide EmitError;
    } else {
      hide Without;
    }
  }

  // ---------------------------------------------------------------- runs

  /** Every state of the run has an error for each queued workflow. */
  ghost predicate AlwaysHasError(s: State, events: seq<Event>)
    requires IsRun(s, events)
    decreases |events|
  {
    QueuedHasError(s) && (events == [] || AlwaysHasError(Next(s, events[0]), events[1..]))
  }

  ghost predicate NeverLate(s: State, events: seq<Event>)
    requires IsRun(s, events)
    decreases |events|
  {
    events == [] || (!LateStartup(s, events[0]) && NeverLate(Next(s, events[0]), events[1..]))
  }

  /** Over every run in which calls for one workflow do not mix and errors are not cleared by hand: a queued
      workflow always has an activation error, or is being removed, if and only if no start-up call returns that
      has failed only in saving the static data. */
  lemma {:induction false} AlwaysHasErrorIff(s: State, events: seq<Event>)
    requires QueuedHasError(s) && SeparateCalls(s) && CallsOk(s) && IsRun(s, events) && Separate(s, events)
    ensures AlwaysHasError(s, events) <==> NeverLate(s, events)
    decreases |events|
  {
    hide QueuedHasError, SeparateCalls, CallsOk, SeparateEvent, Next, Forgets, LateStartup;
    if events != [] {
      ForgetsIff(s, events[0]);
      NextKeepsErrorsIff(s, events[0]);
      NextSeparate(s, events[0]);
      NextKeepsCallsOk(s, events[0]);
      if !Forgets(s, events[0]) {
        AlwaysHasErrorIff(Next(s, events[0]), events[1..]);
      } else {
        NoErrorAtOnce(Next(s, events[0]), events[1..]);
      }
    }
  }

  lemma NoErrorAtOnce(s: State, events: seq<Event>)
    requires IsRun(s, events) && !QueuedHasError(s)
    ensures !AlwaysHasError(s, events)
  {
  }

  lemma {:induction false} AlwaysAtTheEnd(s: State, events: seq<Event>)
    requires IsRun(s, events) && AlwaysHasError(s, events)
    ensures QueuedHasError(After(s, events))
    decreases |events|
  {
    hide QueuedHasError, Next, Enabled;
    if events != [] {
      AlwaysAtTheEnd(Next(s, events[0]), events[1..]);
    }
  }

  // ---------------------------------------------------------------- where saving works

  /** Saving the static data works, or fails for authorization. */
  predicate SavingWorks(e: Event) {
    e.Step? && e.a.saving.Some? ==> IsAuthorization(e.a.saving.value)
  }

  predicate SavedWell(c: Call) {
    c.counted ==> c.stage.Ended? && (c.stage.outcome.Added? || IsAuthorization(c.stage.outcome.message))
  }

  ghost predicate AllSavedWell(s: State) {
    forall n :: n in s.calls && !s.calls[n].kind.Removal? ==> SavedWell(s.calls[n])
  }

  lemma NextSavedWell(s: State, e: Event)
    requires AllSavedWell(s) && CallsOk(s) && Enabled(s, e) && SavingWorks(e)
    ensures AllSavedWell(Next(s, e)) && !LateStartup(s, e)
  {
    if e.Step? {
      StepSavedWell(s, e.n, e.a);
      hide Advance;
    } else {
      OtherKeepsCalls(s, e);
      NewCallConcerned(s, e);
      hide Next;
    }
  }

  lemma StepSavedWell(s: State, n: nat, a: Answers)
    requires AllSavedWell(s) && n in s.calls && a.Valid() && SavingWorks(Step(n, a))
    ensures AllSavedWell(Advance(s, n, a)) && !LateStartup(s, Step(n, a))
  {
    var c, s' := s.calls[n], Advance(s, n, a);
    OthersUnmoved(s, n, a);
    if n in s'.calls && !c.kind.Removal? {
      assert Some(s'.calls[n].stage) == AddStage(s, c, a) && s'.calls[n] == Marked(c).(stage := s'.calls[n].stage);
    }
    RetryMoves(s, n, a);
    hide Advance, Prepare, IsAuthorization;
  }

  lemma {:induction false} SavedWellNeverLate(s: State, events: seq<Event>)
    requires AllSavedWell(s) && CallsOk(s) && IsRun(s, events) && forall e :: e in events ==> SavingWorks(e)
    ensures NeverLate(s, events)
    decreases |events|
  {
    hide AllSavedWell, CallsOk, Next, LateStartup, SavingWorks, Enabled;
    if events != [] {
      assert events[0] in events;
      NextSavedWell(s, events[0]);
      NextKeepsCallsOk(s, events[0]);
      SavedWellNeverLate(Next(s, events[0]), events[1..]);
    }
  }

  /** Calls run to completion: while one is under way, only its steps happen, and time passes. */
  ghost predicate AtomicCalls(s: State, events: seq<Event>)
    requires IsRun(s, events)
    decreases |events|
  {
    events == [] ||
    ((s.calls == map[] || events[0].Step? || events[0].Tick?) && AtomicCalls(Next(s, events[0]), events[1..]))
  }

  lemma {:induction false} AtomicIsSeparate(s: State, events: seq<Event>)
    requires IsRun(s, events) && AtomicCalls(s, events)
    requires forall e :: e in events ==> !e.ClearError? && !e.ClearAllErrors?
    ensures Separate(s, events)
    decreases |events|
  {
    hide Next;
    if events != [] {
      assert events[0] in events;
      AtomicIsSeparate(Next(s, events[0]), events[1..]);
    }
  }

  /** From the beginning, over every run in which calls for one workflow do not mix, errors are not cleared by
      hand, and saving works: every queued workflow has an activation error, or is being removed. */
  lemma SeparateRunKeepsErrors(events: seq<Event>)
    requires IsRun(Initial(), events) && Separate(Initial(), events) && forall e :: e in events ==> SavingWorks(e)
    ensures AlwaysHasError(Initial(), events) && QueuedHasError(After(Initial(), events))
  {
    InitialInv();
    SavedWellNeverLate(Initial(), events);
    AlwaysHasErrorIff(Initial(), events);
    AlwaysAtTheEnd(Initial(), events);
  }

  /** The same with calls that run to completion, of whatever workflows. */
  lemma AtomicRunKeepsErrors(events: seq<Event>)
    requires IsRun(Initial(), events) && AtomicCalls(Initial(), events)
    requires forall e :: e in events ==> !e.ClearError? && !e.ClearAllErrors? && SavingWorks(e)
    ensures QueuedHasError(After(Initial(), events))
  {
    AtomicIsSeparate(Initial(), events);
    SeparateRunKeepsErrors(events);
  }

  // ---------------------------------------------------------------- where it goes wrong

  lemma {:induction false} TooShort(text: string, part: string)
    requires |text| < |part|
    ensures !Includes(text, part)
  {
    if text != "" {
      TooShort(text[1..], part);
    }
  }

  /** From the beginning: a workflow is started, everything works but saving its static data; it ends up queued,
      and nothing says why. */
  lemma StartupForgets(w: string) returns (events: seq<Event>)
    ensures IsRun(Initial(), events) && AtomicCalls(Initial(), events)
    ensures var r := After(Initial(), events); w in r.queue && r.errors == map[] && r.calls == map[]
  {
    var a := Answers(None, [], [], true, None, false, None, None, None, Some("disk"), true);
    var s0 := Initial();
    var s1 := Began(s0, w, Startup(Init));
    assert s1.calls == map[0 := Call(w, Startup(Init), Preparing, false, false)];
    var s2 := SixSteps(s1, w, a);
    events := [StartupOne(w, Init)] + StepsOf(s1, 0, a);
    OneStep(s0, StartupOne(w, Init));
    CompletedIsSteps(s1, 0, a);
    RunConcat(s0, [StartupOne(w, Init)], StepsOf(s1, 0, a));
    StepsAreAtomic(s1, 0, a);
    assert events[1..] == StepsOf(s1, 0, a) && events[0] == StartupOne(w, Init);
  }

  lemma {:induction false} StepsAreAtomic(s: State, n: nat, a: Answers)
    requires (n in s.calls ==> !s.calls[n].kind.Removal?) && a.Valid() && IsRun(s, StepsOf(s, n, a))
    ensures AtomicCalls(s, StepsOf(s, n, a))
    decreases if n in s.calls then StepsLeft(s.calls[n].stage) else 0
  {
    if n in s.calls {
      AdvanceOfAdd(s, n, a);
      assert StepsOf(s, n, a)[0] == Step(n, a) && StepsOf(s, n, a)[1..] == StepsOf(Advance(s, n, a), n, a);
      hide Advance;
      StepsAreAtomic(Advance(s, n, a), n, a);
    }
  }

  lemma SixSteps(s: State, w: string, a: Answers) returns (r: State)
    requires s.(calls := map[], nextCall := 0) == Initial()
    requires s.calls == map[0 := Call(w, Startup(Init), Preparing, false, false)]
    requires a == Answers(None, [], [], true, None, false, None, None, None, Some("disk"), true)
    ensures r == Completed(s.(calls := Without(s.calls, 0)), s.calls[0], a)
    ensures w in r.queue && r.errors == map[] && r.calls == map[]
  {
    hide Includes, NextTimeout;
    r := Completed(s.(calls := Without(s.calls, 0)), s.calls[0], a);
    var t, c := s.(calls := map[]), s.calls[0];
    assert Without(s.calls, 0) == map[];
    assert AddEffect(t, c, a) == t && AddStage(t, c, a) == Some(Prepared);
    assert AddEffect(t, c.(stage := Prepared), a) == t;
    assert Without(t.errors, w) == t.errors;
    assert AddEffect(t, c.(stage := Cleared), a) == t;
    TooShort("disk", "Authorization");
    var end := c.(stage := Ended(Threw("disk")));
    assert Completed(t, end, a) == Enqueued(t, Init, w);
    assert Completed(t, c.(stage := Counted), a) == Completed(t, end, a);
    assert Completed(t, c.(stage := Deregistered), a) == Completed(t, c.(stage := Counted), a);
    assert Completed(t, c.(stage := Cleared), a) == Completed(t, c.(stage := Deregistered), a);
    assert Completed(t, c.(stage := Prepared), a) == Completed(t, c.(stage := Cleared), a);
  }

  /** A trigger error between the clearing of the queue and the deregistering of an `add`: the workflow stays
      queued, and loses its error. */
  lemma RequeuedLosesError(s: State, n: nat, mode: Mode, message: string, closes: bool, a: Answers)
    requires n in s.calls && !s.calls[n].kind.Removal? && s.calls[n].stage.Cleared?
    requires a.Valid() && a.deregistering.None?
    ensures var w := s.calls[n].workflowId;
            var events := [TriggerError(w, mode, message, closes), Step(n, a)];
            && IsRun(s, events) && w in After(s, events).queue && w !in After(s, events).errors
  {
    hide EmitError, Advance;
    var w := s.calls[n].workflowId;
    var first, s1 := TriggerError(w, mode, message, closes), EmitError(s, w, mode, message, closes);
    EmitErrorQueues(s, w, mode, message, closes);
    QueuedIff(s1, Step(n, a), w);
    InErrorIff(s1, Step(n, a), w);
    hide IsRun, After, QueuesStartup;
    OneStep(s1, Step(n, a));
    OneStep(s, first);
    RunConcat(s, [first], [Step(n, a)]);
    assert [first] + [Step(n, a)] == [first, Step(n, a)];
  }
}
