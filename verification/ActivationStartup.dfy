/** The start-up loop that nothing interrupts, and the pace of retries. */
module ActivationStartup {
  import opened Wrappers
  import opened Activation
  import opened ActivationTheorems
  import opened ActivationOutcomes

  // ---------------------------------------------------------------- one workflow

  /** What a call that nothing interrupts ends in. */
  function OutcomeOf(s: State, c: Call, a: Answers): Outcome
    requires !c.kind.Removal? && a.Valid()
    decreases StepsLeft(c.stage)
  {
    if c.stage.Ended? then c.stage.outcome else OutcomeOf(AddEffect(s, c, a), c.(stage := AddStage(s, c, a).value), a)
  }

  /** The workflow has been activated: nothing is left of it in the queue or among the errors. */
  predicate Activated(s: State, w: string, a: Answers) {
    w !in s.queue && w !in s.errors && (a.hasTriggers ==> w in s.inMemory)
  }

  /** What has become of a workflow after start-up, by the outcome of its activation: activated, waiting for its
      first retry, or refused for an authorization error and not queued by start-up. */
  ghost predicate Fate(wasQueued: bool, s: State, w: string, a: Answers, outcome: Outcome) {
    if outcome.Added? then Activated(s, w, a)
    else if !IsAuthorization(outcome.message) then Waits(s, w)
    else (w in s.queue ==> wasQueued) && (w in s.errors || a.saving == Some(outcome.message))
  }

  /** What is known of the workflow of a call, by the stage of the call. */
  ghost predicate SoFar(wasQueued: bool, s: State, c: Call, a: Answers) {
    var w := c.workflowId;
    && (w in s.queue ==> wasQueued)
    && match c.stage
       case Preparing => true
       case Prepared => a.hasTriggers ==> w in s.inMemory
       case Cleared => w !in s.queue && (a.hasTriggers ==> w in s.inMemory)
       case Deregistered => Activated(s, w, a)
       case Counted => Activated(s, w, a)
       case Failing(_) => true
       case Ended(outcome) =>
         if outcome.Added? then Activated(s, w, a) else w in s.errors || a.saving == Some(outcome.message)
  }

  lemma SoFarKept(wasQueued: bool, s: State, c: Call, a: Answers)
    requires c.kind.Startup? && !c.stage.Ended? && a.Valid() && SoFar(wasQueued, s, c, a)
    ensures SoFar(wasQueued, AddEffect(s, c, a), c.(stage := AddStage(s, c, a).value), a)
  {
    hide Prepare, Without, Dequeued, SoFar, AddEffect;
    if c.stage.Preparing? {
      PreparedSoFar(wasQueued, s, c, a);
    } else if c.stage.Prepared? {
      ClearedSoFar(wasQueued, s, c, a);
    } else {
      LaterSoFar(wasQueued, s, c, a);
    }
  }

  lemma LaterSoFar(wasQueued: bool, s: State, c: Call, a: Answers)
    requires c.kind.Startup? && a.Valid() && SoFar(wasQueued, s, c, a)
    requires c.stage.Cleared? || c.stage.Deregistered? || c.stage.Counted? || c.stage.Failing?
    ensures SoFar(wasQueued, AddEffect(s, c, a), c.(stage := AddStage(s, c, a).value), a)
  {
    hide Without;
    WithoutOut(s.errors, c.workflowId);
  }

  lemma ClearedSoFar(wasQueued: bool, s: State, c: Call, a: Answers)
    requires c.kind.Startup? && c.stage.Prepared? && a.Valid() && SoFar(wasQueued, s, c, a)
    ensures SoFar(wasQueued, AddEffect(s, c, a), c.(stage := AddStage(s, c, a).value), a)
  {
    DequeuedOut(s, c.workflowId);
    hide Dequeued;
  }

  lemma PreparedSoFar(wasQueued: bool, s: State, c: Call, a: Answers)
    requires c.kind.Startup? && c.stage.Preparing? && a.Valid() && SoFar(wasQueued, s, c, a)
    ensures SoFar(wasQueued, AddEffect(s, c, a), c.(stage := AddStage(s, c, a).value), a)
  {
    PrepareEffects(s, c.workflowId, c.kind.mode, a);
    hide Prepare;
  }

  lemma WithoutOut(errors: map<string, string>, w: string)
    ensures w !in Without(errors, w)
  {
  }

  lemma DequeuedOut(s: State, w: string)
    ensures w !in Dequeued(s, w).queue && Dequeued(s, w).inMemory == s.inMemory
  {
  }

  /** One workflow of the list, at its turn. */
  lemma {:induction false} StartFate(wasQueued: bool, s: State, c: Call, a: Answers)
    requires c.kind.Startup? && a.Valid() && SoFar(wasQueued, s, c, a)
    ensures Fate(wasQueued, Completed(s, c, a), c.workflowId, a, OutcomeOf(s, c, a))
    decreases StepsLeft(c.stage)
  {
    if c.stage.Ended? {
      EndFate(wasQueued, s, c, a);
    } else {
      SoFarKept(wasQueued, s, c, a);
      hide AddEffect, AddStage, SoFar, Fate;
      StartFate(wasQueued, AddEffect(s, c, a), c.(stage := AddStage(s, c, a).value), a);
    }
  }

  lemma EndFate(wasQueued: bool, s: State, c: Call, a: Answers)
    requires c.kind.Startup? && c.stage.Ended? && a.Valid() && SoFar(wasQueued, s, c, a)
    ensures Fate(wasQueued, Completed(s, c, a), c.workflowId, a, c.stage.outcome)
  {
    hide IsAuthorization;
  }

  // ---------------------------------------------------------------- the other workflows

  ghost predicate SameTimer(s: State, s': State, timer: nat) {
    (timer in s.timers <==> timer in s'.timers) && (timer in s.timers ==> s.timers[timer] == s'.timers[timer])
  }

  /** What is recorded about one workflow. */
  ghost predicate SameFor(s: State, s': State, w: string) {
    && (w in s.queue <==> w in s'.queue)
    && (w in s.queue ==> s.queue[w] == s'.queue[w] && SameTimer(s, s', s.queue[w].timer))
    && (w in s.errors <==> w in s'.errors)
    && (w in s.inMemory <==> w in s'.inMemory)
    && s.clock == s'.clock
  }

  lemma OtherTimer(s: State, w: string, u: string)
    requires QueueOk(s) && w in s.queue && w != u
    ensures s.queue[w].timer < s.nextTimer
    ensures u in s.queue && s.queue[w].timer in s.timers ==> s.queue[u].timer != s.queue[w].timer
  {
    assert EntryServed(s, w);
    if u in s.queue { assert EntryServed(s, u); }
  }

  lemma DequeuedFrame(s: State, u: string, w: string)
    requires QueueOk(s) && w != u
    ensures SameFor(s, Dequeued(s, u), w)
  {
    if w in s.queue {
      OtherTimer(s, w, u);
    }
    hide QueueOk;
  }

  lemma EnqueuedFrame(s: State, u: string, mode: Mode, w: string)
    requires QueueOk(s) && w != u
    ensures SameFor(s, Enqueued(s, mode, u), w)
  {
    if w in s.queue {
      OtherTimer(s, w, u);
    }
    hide QueueOk;
  }

  lemma StepFrame(s: State, c: Call, a: Answers, w: string)
    requires c.kind.Startup? && a.Valid() && QueueOk(s)
    ensures QueueOk(AddEffect(s, c, a)) && (w != c.workflowId ==> SameFor(s, AddEffect(s, c, a), w))
  {
    var u := c.workflowId;
    hide QueueOk, Prepare, Dequeued, Enqueued, Without, IsAuthorization;
    if c.stage.Prepared? {
      DequeuedKeeps(s, u);
      if w != u { DequeuedFrame(s, u, w); }
      hide SameFor;
    } else if c.stage.Ended? {
      EnqueuedKeeps(s, Init, u);
      SameForItself(s, w);
      if w != u { EnqueuedFrame(s, u, Init, w); }
      hide SameFor;
    } else {
      QuietFrame(s, c, a, w);
      hide AddEffect, SameFor;
    }
  }

  /** The steps that leave the queue alone. */
  lemma QuietFrame(s: State, c: Call, a: Answers, w: string)
    requires c.kind.Startup? && !c.stage.Prepared? && !c.stage.Ended? && a.Valid() && QueueOk(s)
    ensures QueueOk(AddEffect(s, c, a)) && (w != c.workflowId ==> SameFor(s, AddEffect(s, c, a), w))
  {
    hide QueueOk, Prepare, Without;
    if c.stage.Preparing? {
      PrepareEffects(s, c.workflowId, c.kind.mode, a);
    } else {
      ErrorsFrame(s, c.workflowId, w);
    }
    AddQueueing(s, c, a);
    assert QueueEffect(s, c) == s;
    SameQueueingKeeps(s, AddEffect(s, c, a));
  }

  lemma SameForItself(s: State, w: string)
    ensures SameFor(s, s, w)
  {
  }

  lemma ErrorsFrame(s: State, u: string, w: string)
    ensures w != u ==> (w in Without(s.errors, u) <==> w in s.errors)
  {
  }

  lemma SameForTransitive(s: State, s1: State, s2: State, w: string)
    requires SameFor(s, s1, w) && SameFor(s1, s2, w)
    ensures SameFor(s, s2, w)
  {
  }

  lemma {:induction false} CompletedFrame(s: State, c: Call, a: Answers, w: string)
    requires c.kind.Startup? && a.Valid() && QueueOk(s)
    ensures QueueOk(Completed(s, c, a)) && (w != c.workflowId ==> SameFor(s, Completed(s, c, a), w))
    decreases StepsLeft(c.stage)
  {
    StepFrame(s, c, a, w);
    hide AddEffect, QueueOk, SameFor;
    var s', stage := AddEffect(s, c, a), AddStage(s, c, a);
    if stage.Some? {
      CompletedFrame(s', c.(stage := stage.value), a, w);
      if w != c.workflowId {
        SameForTransitive(s, s', Completed(s, c, a), w);
      }
    }
  }

  lemma StartOneFrame(s: State, u: string, mode: Mode, a: Answers, w: string)
    requires a.Valid() && QueueOk(s)
    ensures QueueOk(StartOne(s, u, mode, a)) && (w != u ==> SameFor(s, StartOne(s, u, mode, a), w))
  {
    var s1 := s.(nextCall := s.nextCall + 1);
    SameQueueingKeeps(s, s1);
    SameForItself(s, w);
    assert SameFor(s, s1, w);
    hide QueueOk, SameFor, Completed;
    CompletedFrame(s1, Call(u, Startup(mode), Preparing, false), a, w);
    if w != u {
      SameForTransitive(s, s1, StartOne(s, u, mode, a), w);
    }
  }

  lemma {:induction false} StartAllFrame(s: State, ids: seq<string>, mode: Mode, answers: seq<Answers>, m: nat, n: nat,
                                         w: string)
    requires m <= n <= |ids| == |answers| && (forall a :: a in answers ==> a.Valid()) && QueueOk(s)
    requires forall i :: m <= i < n ==> ids[i] != w
    ensures QueueOk(StartAll(s, ids, mode, answers, m)) && QueueOk(StartAll(s, ids, mode, answers, n))
    ensures SameFor(StartAll(s, ids, mode, answers, m), StartAll(s, ids, mode, answers, n), w)
    decreases n
  {
    hide QueueOk, StartOne, SameFor;
    if m < n {
      StartAllFrame(s, ids, mode, answers, m, n - 1, w);
      StartOneFrame(StartAll(s, ids, mode, answers, n - 1), ids[n - 1], mode, answers[n - 1], w);
      SameForTransitive(StartAll(s, ids, mode, answers, m), StartAll(s, ids, mode, answers, n - 1),
                        StartAll(s, ids, mode, answers, n), w);
    } else {
      SameForItself(StartAll(s, ids, mode, answers, n), w);
      if n > 0 {
        StartAllFrame(s, ids, mode, answers, n - 1, n - 1, w);
        StartOneFrame(StartAll(s, ids, mode, answers, n - 1), ids[n - 1], mode, answers[n - 1], w);
      }
    }
  }

  // ---------------------------------------------------------------- the whole list

  lemma FateKept(wasQueued: bool, s: State, s': State, w: string, a: Answers, outcome: Outcome)
    requires Fate(wasQueued, s, w, a, outcome) && SameFor(s, s', w)
    ensures Fate(wasQueued, s', w, a, outcome)
  {
    hide IsAuthorization;
  }

  /** The outcome of the activation of workflow `i`, at its turn. */
  ghost function OutcomeAt(s: State, ids: seq<string>, mode: Mode, answers: seq<Answers>, i: nat): Outcome
    requires i < |ids| == |answers| && forall a :: a in answers ==> a.Valid()
  {
    OutcomeOf(StartAll(s, ids, mode, answers, i).(nextCall := StartAll(s, ids, mode, answers, i).nextCall + 1),
              Call(ids[i], Startup(mode), Preparing, false), answers[i])
  }

  /** Start-up loses no workflow: whatever fails, each workflow of a list without repetitions ends as exactly
      one of activated, waiting for its first retry, or refused; a refused one is queued only if it was queued
      before. */
  lemma StartupLosesNothing(s: State, ids: seq<string>, mode: Mode, answers: seq<Answers>, i: nat)
    requires i < |ids| == |answers| && (forall a :: a in answers ==> a.Valid()) && QueueOk(s)
    requires forall j, k :: 0 <= j < k < |ids| ==> ids[j] != ids[k]
    ensures Fate(ids[i] in s.queue, StartAll(s, ids, mode, answers, |ids|), ids[i], answers[i],
                 OutcomeAt(s, ids, mode, answers, i))
  {
    hide QueueOk, SameFor, Fate, StartAll, OutcomeAt;
    var w := ids[i];
    StartAllFrame(s, ids, mode, answers, 0, i, w);
    StartAllFrame(s, ids, mode, answers, i + 1, |ids|, w);
    FateAtTurn(s, ids, mode, answers, i);
    FateKept(w in s.queue, StartAll(s, ids, mode, answers, i + 1), StartAll(s, ids, mode, answers, |ids|), w,
             answers[i], OutcomeAt(s, ids, mode, answers, i));
  }

  lemma FateAtTurn(s: State, ids: seq<string>, mode: Mode, answers: seq<Answers>, i: nat)
    requires i < |ids| == |answers| && (forall a :: a in answers ==> a.Valid())
    requires SameFor(StartAll(s, ids, mode, answers, 0), StartAll(s, ids, mode, answers, i), ids[i])
    ensures Fate(ids[i] in s.queue, StartAll(s, ids, mode, answers, i + 1), ids[i], answers[i],
                 OutcomeAt(s, ids, mode, answers, i))
  {
    hide Completed, Fate, OutcomeOf, SameFor, SoFar;
    var before, c := StartAll(s, ids, mode, answers, i), Call(ids[i], Startup(mode), Preparing, false);
    var s1 := before.(nextCall := before.nextCall + 1);
    NothingSoFar(s, before, s1, c, answers[i]);
    StartFate(ids[i] in s.queue, s1, c, answers[i]);
  }

  lemma NothingSoFar(s: State, before: State, s1: State, c: Call, a: Answers)
    requires SameFor(s, before, c.workflowId) && s1.queue == before.queue && c.stage.Preparing?
    ensures SoFar(c.workflowId in s.queue, s1, c, a)
  {
  }

  // ---------------------------------------------------------------- pace

  /** No retry begins early: the retry after `failures` failed ones begins no sooner after queueing
      than all delays so far, in closed form. */
  lemma RetryNotEarly(s: State, timer: nat)
    requires Inv(s) && Enabled(s, FireTimer(timer))
    ensures var w := s.timers[timer].workflowId;
            && w in s.history
            && var n := s.history[w].failures + 1;
               s.clock - s.history[w].since >=
               if n <= 17 then 1000 * (Pow2(n) - 1) else 1000 * (Pow2(17) - 1) + (n - 17) * 86400000
  {
    var w := s.timers[timer].workflowId;
    assert TimerRecorded(s, timer) && EntryPaced(s, w);
    TotalDelayClosed(s.history[w].failures + 1);
  }

  // ---------------------------------------------------------------- the loop as a run

  lemma StartOneIsRun(s: State, w: string, mode: Mode, a: Answers)
    requires a.Valid() && s.nextCall !in s.calls
    ensures var events := [StartupOne(w, mode)] + StepsOf(Began(s, w, Startup(mode)), s.nextCall, a);
            IsRun(s, events) && After(s, events) == StartOne(s, w, mode, a)
  {
    var n, s1 := s.nextCall, Began(s, w, Startup(mode));
    assert s1.calls[n] == Call(w, Startup(mode), Preparing, false) && Without(s1.calls, n) == s.calls;
    CompletedIsSteps(s1, n, a);
    hide Completed, StepsOf, IsRun, After;
    OneStep(s, StartupOne(w, mode));
    RunConcat(s, [StartupOne(w, mode)], StepsOf(s1, n, a));
  }

  lemma {:induction false} OnlySteps(s: State, n: nat, a: Answers)
    requires (n in s.calls ==> !s.calls[n].kind.Removal?) && a.Valid()
    ensures forall e :: e in StepsOf(s, n, a) ==> e == Step(n, a)
    decreases if n in s.calls then StepsLeft(s.calls[n].stage) else 0
  {
    if n in s.calls {
      AdvanceOfAdd(s, n, a);
      hide Advance;
      OnlySteps(Advance(s, n, a), n, a);
    }
  }

  /** The events of the loop over the first `n` workflows: for each of them a call begins in the mode of the loop,
      and its steps follow. */
  ghost predicate LoopEvents(events: seq<Event>, ids: seq<string>, mode: Mode, answers: seq<Answers>, next: nat, n: nat)
    requires n <= |ids| == |answers|
    decreases n
  {
    if n == 0 then events == []
    else exists m :: LoopTurn(events, m, ids[n - 1], mode, answers[n - 1], next + n - 1)
                     && LoopEvents(events[..m], ids, mode, answers, next, n - 1)
  }

  predicate LoopTurn(events: seq<Event>, m: int, w: string, mode: Mode, a: Answers, call: nat) {
    && 0 <= m < |events| && events[m] == StartupOne(w, mode)
    && forall j :: m < j < |events| ==> events[j] == Step(call, a)
  }

  /** The loop that nothing interrupts is a run of these events. */
  lemma {:induction false} StartAllIsRun(s: State, ids: seq<string>, mode: Mode, answers: seq<Answers>, n: nat)
    returns (events: seq<Event>)
    requires n <= |ids| == |answers| && forall a :: a in answers ==> a.Valid()
    requires forall m :: m in s.calls ==> m < s.nextCall
    ensures IsRun(s, events) && After(s, events) == StartAll(s, ids, mode, answers, n)
    ensures LoopEvents(events, ids, mode, answers, s.nextCall, n)
    ensures After(s, events).calls == s.calls && After(s, events).nextCall == s.nextCall + n
  {
    hide *;
    events := [];
    if n > 0 {
      var w, a := ids[n - 1], answers[n - 1];
      var first := StartAllIsRun(s, ids, mode, answers, n - 1);
      var turn := OneTurn(After(s, first), w, mode, a);
      RunConcat(s, first, turn);
      events := first + turn;
      LoopGoesOn(first, turn, ids, mode, answers, s.nextCall, n);
      LoopUnfolds(s, ids, mode, answers, n);
    } else {
      LoopStarts(s, ids, mode, answers);
    }
  }

  lemma LoopUnfolds(s: State, ids: seq<string>, mode: Mode, answers: seq<Answers>, n: nat)
    requires 0 < n <= |ids| == |answers| && forall a :: a in answers ==> a.Valid()
    ensures StartAll(s, ids, mode, answers, n) ==
            StartOne(StartAll(s, ids, mode, answers, n - 1), ids[n - 1], mode, answers[n - 1])
  {
  }

  lemma LoopGoesOn(first: seq<Event>, turn: seq<Event>, ids: seq<string>, mode: Mode, answers: seq<Answers>, next: nat,
                   n: nat)
    requires 0 < n <= |ids| == |answers| && LoopEvents(first, ids, mode, answers, next, n - 1)
    requires LoopTurn(turn, 0, ids[n - 1], mode, answers[n - 1], next + n - 1)
    ensures LoopEvents(first + turn, ids, mode, answers, next, n)
  {
    TurnAppended(first, turn, ids[n - 1], mode, answers[n - 1], next + n - 1);
    hide LoopTurn;
  }

  lemma LoopStarts(s: State, ids: seq<string>, mode: Mode, answers: seq<Answers>)
    requires |ids| == |answers| && forall a :: a in answers ==> a.Valid()
    ensures IsRun(s, []) && After(s, []) == s == StartAll(s, ids, mode, answers, 0)
    ensures LoopEvents([], ids, mode, answers, s.nextCall, 0)
  {
  }

  lemma TurnAppended(first: seq<Event>, turn: seq<Event>, w: string, mode: Mode, a: Answers, call: nat)
    requires LoopTurn(turn, 0, w, mode, a, call)
    ensures LoopTurn(first + turn, |first|, w, mode, a, call) && (first + turn)[..|first|] == first
  {
  }

  lemma OneTurn(s: State, w: string, mode: Mode, a: Answers) returns (turn: seq<Event>)
    requires a.Valid() && s.nextCall !in s.calls
    ensures IsRun(s, turn) && LoopTurn(turn, 0, w, mode, a, s.nextCall)
    ensures var r := After(s, turn);
            r == StartOne(s, w, mode, a) && r.calls == s.calls && r.nextCall == s.nextCall + 1
  {
    var s1 := Began(s, w, Startup(mode));
    assert s1.calls[s.nextCall].kind == Startup(mode);
    hide Began, Advance, IsRun, After, StartOne;
    StartOneIsRun(s, w, mode, a);
    StartOneCalls(s, w, mode, a);
    OnlySteps(s1, s.nextCall, a);
    hide StepsOf;
    var steps := StepsOf(s1, s.nextCall, a);
    turn := [StartupOne(w, mode)] + steps;
    forall j | 0 < j < |turn| ensures turn[j] == Step(s.nextCall, a) {
      assert turn[j] == steps[j - 1] && steps[j - 1] in steps;
    }
  }

  lemma StartOneCalls(s: State, w: string, mode: Mode, a: Answers)
    requires a.Valid()
    ensures var r := StartOne(s, w, mode, a); r.calls == s.calls && r.nextCall == s.nextCall + 1
  {
    CompletedCalls(s.(nextCall := s.nextCall + 1), Call(w, Startup(mode), Preparing, false), a);
    hide Completed;
  }
}
