/** What the activation manager keeps, over every run. */
module ActivationTheorems {
  import opened Wrappers
  import opened Activation
  import W = WebhookRegistration

  // ---------------------------------------------------------------- the backoff

  /** The delay set after `failures` failed retries. */
  function Delay(failures: nat): nat {
    if failures == 0 then INITIAL_TIMEOUT else NextTimeout(Delay(failures - 1))
  }

  /** The delays of the first `n` timers of a queue entry together. */
  function TotalDelay(n: nat): nat {
    if n == 0 then 0 else TotalDelay(n - 1) + Delay(n - 1)
  }

  function Pow2(n: nat): nat {
    if n == 0 then 1 else 2 * Pow2(n - 1)
  }

  lemma {:induction false} Pow2Grows(n: nat, m: nat)
    requires n <= m
    ensures Pow2(n) <= Pow2(m)
  {
    if n < m {
      Pow2Grows(n, m - 1);
    }
  }

  lemma Pow2At17()
    ensures Pow2(17) == 131072 && Pow2(16) == 65536
  {
    assert Pow2(4) == 16;
    assert Pow2(8) == 256;
    assert Pow2(12) == 4096;
    assert Pow2(16) == 65536;
  }

  lemma {:induction false} DelayIsCappedPower(k: nat)
    ensures Delay(k) == Min(1000 * Pow2(k), 86400000)
    ensures Delay(k) == 86400000 <==> k >= 17
  {
    Pow2At17();
    if k > 0 {
      DelayIsCappedPower(k - 1);
      if k <= 16 { Pow2Grows(k, 16); } else { Pow2Grows(17, k); }
    }
  }

  /** Retry `n` of a queue entry comes after 1000 * (2^n - 1) ms of delay while the delay doubles,
      and one day after the previous retry from then on. */
  lemma {:induction false} TotalDelayClosed(n: nat)
    ensures n <= 17 ==> TotalDelay(n) == 1000 * (Pow2(n) - 1)
    ensures n >= 17 ==> TotalDelay(n) == 1000 * (Pow2(17) - 1) + (n - 17) * 86400000
  {
    if n > 0 {
      TotalDelayClosed(n - 1);
      DelayIsCappedPower(n - 1);
      Pow2At17();
      if n <= 17 { Pow2Grows(n - 1, 16); }
    }
  }

  // ---------------------------------------------------------------- timers and queue

  /** A live timer is the one recorded in the queue entry of its workflow. */
  ghost predicate TimerRecorded(s: State, timer: nat)
    requires timer in s.timers
  {
    var t := s.timers[timer];
    timer < s.nextTimer && t.workflowId in s.queue && s.queue[t.workflowId].timer == timer
  }

  /** A retry of the workflow that has not cleared the queue. */
  predicate Serves(c: Call, w: string) { c.kind.Retry? && c.workflowId == w && !c.cleared }

  ghost predicate HasRetry(calls: map<nat, Call>, w: string) {
    exists n :: n in calls && Serves(calls[n], w)
  }

  /** A queue entry waits for its timer, or for a retry that has begun. */
  ghost predicate EntryServed(s: State, w: string)
    requires w in s.queue
  {
    var q := s.queue[w];
    && q.timer < s.nextTimer
    && (q.timer in s.timers ==> s.timers[q.timer].workflowId == w)
    && (q.timer !in s.timers ==> HasRetry(s.calls, w))
  }

  /** The delay of an entry is that of its failures, and no retry is due before the delays so far. */
  ghost predicate EntryPaced(s: State, w: string)
    requires w in s.queue
  {
    var q := s.queue[w];
    && w in s.history && q.lastTimeout == Delay(s.history[w].failures)
    && (if q.timer in s.timers then s.timers[q.timer].due else s.clock)
         >= s.history[w].since + TotalDelay(s.history[w].failures + 1)
  }

  /** A call past the clearing of the queue has cleared it. */
  predicate CallOk(c: Call) {
    match c.stage
    case Preparing => true
    case Prepared => true
    case Failing(_) => true
    case Ended(outcome) => outcome.Threw? || c.cleared
    case _ => c.cleared || c.kind.Removal?
  }

  ghost predicate QueueOk(s: State) {
    && (forall timer :: timer in s.timers ==> TimerRecorded(s, timer))
    && (forall w :: w in s.queue ==> EntryServed(s, w) && EntryPaced(s, w))
  }

  ghost predicate CallsOk(s: State) {
    forall n :: n in s.calls ==> n < s.nextCall && CallOk(s.calls[n])
  }

  ghost predicate Inv(s: State) { QueueOk(s) && CallsOk(s) }

  /** Each workflow has at most one live timer; without a queue entry it has none, so an empty queue
      leaves no timers. */
  lemma OneTimerPerWorkflow(s: State)
    requires Inv(s)
    ensures forall t, u :: t in s.timers && u in s.timers && s.timers[t].workflowId == s.timers[u].workflowId ==> t == u
    ensures forall t :: t in s.timers ==> s.timers[t].workflowId in s.queue
    ensures s.queue == map[] ==> s.timers == map[]
  {
    forall t, u | t in s.timers && u in s.timers && s.timers[t].workflowId == s.timers[u].workflowId
      ensures t == u
    {
      assert TimerRecorded(s, t) && TimerRecorded(s, u);
    }
    forall t | t in s.timers ensures s.timers[t].workflowId in s.queue {
      assert TimerRecorded(s, t);
    }
  }

  /** Queue and timers are untouched. */
  ghost predicate SameQueueing(s: State, s': State) {
    && s.queue == s'.queue && s.timers == s'.timers && s.nextTimer == s'.nextTimer
    && s.history == s'.history && s.clock == s'.clock
  }

  lemma SameQueueingKeeps(s: State, s': State)
    requires QueueOk(s) && SameQueueing(s, s')
    requires forall w :: w in s.queue && HasRetry(s.calls, w) ==> HasRetry(s'.calls, w)
    ensures QueueOk(s')
  {
    forall timer | timer in s'.timers ensures TimerRecorded(s', timer) { assert TimerRecorded(s, timer); }
    forall w | w in s'.queue ensures EntryServed(s', w) && EntryPaced(s', w) {
      assert EntryServed(s, w) && EntryPaced(s, w);
    }
  }

  lemma DequeuedKeeps(s: State, w: string)
    requires QueueOk(s)
    ensures QueueOk(Dequeued(s, w)) && w !in Dequeued(s, w).queue
  {
    var s' := Dequeued(s, w);
    forall timer | timer in s'.timers ensures TimerRecorded(s', timer) { assert TimerRecorded(s, timer); }
    forall u | u in s'.queue ensures EntryServed(s', u) && EntryPaced(s', u) {
      assert EntryServed(s, u) && EntryPaced(s, u);
      if w in s.queue { assert EntryServed(s, w); }
    }
  }

  /** Setting a fresh timer for an entry that has none. */
  lemma TimerSetKeeps(s: State, s': State, w: string, q: Queued, t: Timer, h: History)
    requires QueueOk(s) && (w in s.queue ==> s.queue[w].timer !in s.timers)
    requires s'.queue == s.queue[w := q] && s'.timers == s.timers[s.nextTimer := t] && s'.nextTimer == s.nextTimer + 1
    requires s'.history == s.history[w := h] && s'.clock == s.clock && s'.calls == s.calls
    requires q.timer == s.nextTimer && t.workflowId == w && q.lastTimeout == Delay(h.failures)
    requires t.due >= h.since + TotalDelay(h.failures + 1)
    ensures QueueOk(s')
  {
    forall timer | timer in s'.timers ensures TimerRecorded(s', timer) {
      if timer != s.nextTimer { assert TimerRecorded(s, timer); }
    }
    forall u | u in s'.queue ensures EntryServed(s', u) && EntryPaced(s', u) {
      if u != w {
        assert EntryServed(s, u) && EntryPaced(s, u);
      }
    }
  }

  lemma EnqueuedKeeps(s: State, mode: Mode, w: string)
    requires QueueOk(s)
    ensures QueueOk(Enqueued(s, mode, w))
  {
    DequeuedKeeps(s, w);
    assert TotalDelay(1) == TotalDelay(0) + Delay(0);
    TimerSetKeeps(Dequeued(s, w), Enqueued(s, mode, w), w, Queued(mode, INITIAL_TIMEOUT, s.nextTimer),
                  Timer(w, mode, s.clock + INITIAL_TIMEOUT), History(s.clock, 0));
  }

  /** A failing retry puts its entry, whose timer is spent, back on a timer. */
  lemma RescheduledKeeps(s: State, w: string, mode: Mode)
    requires QueueOk(s) && w in s.queue && s.queue[w].timer !in s.timers
    ensures QueueOk(Rescheduled(s, w, mode))
  {
    var s' := Rescheduled(s, w, mode);
    assert EntryServed(s, w) && EntryPaced(s, w);
    var h := s'.history[w];
    assert TotalDelay(h.failures + 1) == TotalDelay(h.failures) + Delay(h.failures);
    hide NextTimeout, Delay;
    assert s'.queue[w].lastTimeout == NextTimeout(Delay(h.failures - 1));
    NextDelay(h.failures - 1);
    TimerSetKeeps(s, s', w, s'.queue[w], s'.timers[s.nextTimer], h);
  }

  lemma NextDelay(failures: nat)
    ensures NextTimeout(Delay(failures)) == Delay(failures + 1)
  {
  }

  /** The timer of an entry that is replaced without being cleared is recorded nowhere. */
  lemma RescheduledOrphans(s: State, w: string, mode: Mode)
    requires QueueOk(s) && w in s.queue && s.queue[w].timer in s.timers
    ensures var s', orphan := Rescheduled(s, w, mode), s.queue[w].timer;
            && orphan in s'.timers && s'.timers[orphan].workflowId == w && !TimerRecorded(s', orphan)
            && orphan in AllDequeued(s').timers
  {
    var s', orphan := Rescheduled(s, w, mode), s.queue[w].timer;
    assert EntryServed(s, w);
    forall u | u in s'.queue ensures s'.queue[u].timer != orphan {
      if u != w { assert EntryServed(s, u); }
    }
  }

  // ---------------------------------------------------------------- one step of a call

  /** `add` before the clearing of the queue touches webhooks and memory only. */
  lemma PrepareEffects(s: State, w: string, mode: Mode, a: Answers)
    requires a.Valid()
    ensures Prepare(s, w, mode, a).0 ==
            s.(webhooks := Prepare(s, w, mode, a).0.webhooks, inMemory := Prepare(s, w, mode, a).0.inMemory)
    ensures s.inMemory <= Prepare(s, w, mode, a).0.inMemory <= s.inMemory + {w}
    ensures Prepare(s, w, mode, a).1.None? && a.hasTriggers ==> w in Prepare(s, w, mode, a).0.inMemory
  {
    hide W.Registration;
  }

  /** The steps that change the queue: an `add` clears it, a removal clears it, the start-up loop queues a
      workflow that failed, and a failed retry is put back. */
  predicate ClearsQueue(c: Call) {
    if c.kind.Removal? then c.stage.Deregistered? else c.stage.Prepared?
  }

  predicate QueuesStartup(c: Call) {
    c.kind.Startup? && c.stage.Ended? && c.stage.outcome.Threw? && !IsAuthorization(c.stage.outcome.message)
  }

  predicate EndsRetry(c: Call) {
    c.kind.Retry? && c.stage.Ended? && c.stage.outcome.Threw?
  }

  function QueueEffect(s: State, c: Call): State {
    var w := c.workflowId;
    if ClearsQueue(c) then Dequeued(s, w)
    else if QueuesStartup(c) then Enqueued(s, Init, w)
    else if EndsRetry(c) && w in s.queue then Rescheduled(s, w, c.kind.mode)
    else s
  }

  ghost predicate SameCalls(s: State, s': State) { s.calls == s'.calls && s.nextCall == s'.nextCall }

  /** What a step does to queue and timers, by the call. */
  lemma StepQueueing(s: State, c: Call, a: Answers)
    requires a.Valid()
    ensures SameCalls(s, Effect(s, c, a)) && SameQueueing(Effect(s, c, a), QueueEffect(s, c))
  {
    hide AddEffect, RemoveEffect, QueueEffect;
    if c.kind.Removal? {
      RemoveQueueing(s, c, a);
    } else {
      AddQueueing(s, c, a);
    }
  }

  lemma RemoveQueueing(s: State, c: Call, a: Answers)
    requires a.Valid() && c.kind.Removal?
    ensures SameCalls(s, RemoveEffect(s, c, a)) && SameQueueing(RemoveEffect(s, c, a), QueueEffect(s, c))
  {
    hide Without, Dequeued, Enqueued, Rescheduled, W.Cleared;
    DequeuedCalls(s, c.workflowId);
    if c.stage.Deregistered? {
      assert RemoveEffect(s, c, a) == QueueEffect(s, c);
    } else {
      assert QueueEffect(s, c) == s;
    }
  }

  lemma AddQueueing(s: State, c: Call, a: Answers)
    requires a.Valid() && !c.kind.Removal?
    ensures SameCalls(s, AddEffect(s, c, a)) && SameQueueing(AddEffect(s, c, a), QueueEffect(s, c))
  {
    hide Prepare, Without, Dequeued, Enqueued, Rescheduled, Returned;
    match c.stage
    case Preparing => PrepareEffects(s, c.workflowId, c.kind.mode, a);
    case Prepared => DequeuedCalls(s, c.workflowId);
    case Ended(_) => ReturnedQueueing(s, c); hide QueueEffect;
    case Cleared =>
    case Deregistered =>
    case Counted =>
    case Failing(_) =>
  }

  lemma ReturnedQueueing(s: State, c: Call)
    requires !c.kind.Removal? && c.stage.Ended?
    ensures Returned(s, c, c.stage.outcome) == QueueEffect(s, c)
    ensures SameCalls(s, QueueEffect(s, c))
  {
    EnqueuedCalls(s, c.workflowId);
    RescheduledCalls(s, c);
    hide Enqueued, Rescheduled, IsAuthorization;
  }

  lemma DequeuedCalls(s: State, w: string)
    ensures Dequeued(s, w).calls == s.calls && Dequeued(s, w).nextCall == s.nextCall
  {
  }

  lemma EnqueuedCalls(s: State, w: string)
    ensures Enqueued(s, Init, w).calls == s.calls && Enqueued(s, Init, w).nextCall == s.nextCall
  {
    hide Without;
  }

  lemma RescheduledCalls(s: State, c: Call)
    ensures c.kind.Retry? && c.workflowId in s.queue ==>
              var s' := Rescheduled(s, c.workflowId, c.kind.mode); s'.calls == s.calls && s'.nextCall == s.nextCall
  {
  }

  /** A retry ends in failure while the entry of its workflow has a live timer: the workflow has been queued
      anew since the retry began. */
  predicate Disturbs(s: State, e: Event)
    requires e.Step? ==> e.n in s.calls
  {
    && e.Step?
    && var c := s.calls[e.n];
       EndsRetry(c) && c.workflowId in s.queue && s.queue[c.workflowId].timer in s.timers
  }

  lemma StepKeepsCallsOk(s: State, n: nat, a: Answers)
    requires CallsOk(s) && n in s.calls && a.Valid()
    ensures CallsOk(Advance(s, n, a))
  {
    StepQueueing(s, s.calls[n], a);
    hide Effect, Prepare, SameQueueing;
    var s' := Advance(s, n, a);
    forall m | m in s'.calls ensures m < s'.nextCall && CallOk(s'.calls[m]) {
      assert m in s.calls && CallOk(s.calls[n]);
    }
  }

  /** Only the retry that moved may no longer serve, and then its workflow needs no retry. */
  lemma StepKeepsRetries(s: State, n: nat, a: Answers, w: string)
    requires CallsOk(s) && n in s.calls && a.Valid() && HasRetry(s.calls, w)
    requires w == s.calls[n].workflowId ==> !ClearsQueue(s.calls[n]) && !EndsRetry(s.calls[n])
    ensures HasRetry(Advance(s, n, a).calls, w)
  {
    var m :| m in s.calls && Serves(s.calls[m], w);
    StepQueueing(s, s.calls[n], a);
    hide Effect, Prepare, SameQueueing;
    assert m < s.nextCall && CallOk(s.calls[m]);
    assert m in Advance(s, n, a).calls && Serves(Advance(s, n, a).calls[m], w);
  }

  /** One step of a call keeps the invariant unless it disturbs. */
  lemma StepKeepsInvIff(s: State, n: nat, a: Answers)
    requires Inv(s) && n in s.calls && a.Valid()
    ensures Inv(Advance(s, n, a)) <==> !Disturbs(s, Step(n, a))
  {
    var c, s', q := s.calls[n], Advance(s, n, a), QueueEffect(s, s.calls[n]);
    StepQueueing(s, c, a);
    StepKeepsCallsOk(s, n, a);
    hide Effect, Moved, StageAfter, CallsOk, IsAuthorization;
    assert SameQueueing(q, s');
    QueueEffectKeepsIff(s, c);
    if Disturbs(s, Step(n, a)) {
      RescheduledOrphans(s, c.workflowId, c.kind.mode);
      var orphan := s.queue[c.workflowId].timer;
      assert orphan in s'.timers && !TimerRecorded(s', orphan);
    } else {
      forall w | w in q.queue && HasRetry(q.calls, w) ensures HasRetry(s'.calls, w) || (q.queue[w].timer in q.timers) {
        StepKeepsRetriesOrTimer(s, n, a, w);
      }
      SameQueueingKeepsOr(q, s');
    }
  }

  lemma SameQueueingKeepsOr(s: State, s': State)
    requires QueueOk(s) && SameQueueing(s, s')
    requires forall w :: w in s.queue && HasRetry(s.calls, w) ==> HasRetry(s'.calls, w) || s.queue[w].timer in s.timers
    ensures QueueOk(s')
  {
    hide HasRetry;
    forall timer | timer in s'.timers ensures TimerRecorded(s', timer) { assert TimerRecorded(s, timer); }
    forall w | w in s'.queue ensures EntryServed(s', w) && EntryPaced(s', w) {
      assert EntryServed(s, w) && EntryPaced(s, w);
    }
  }

  lemma QueueEffectKeepsIff(s: State, c: Call)
    requires QueueOk(s)
    ensures SameCalls(s, QueueEffect(s, c))
    ensures QueueOk(QueueEffect(s, c)) ||
            (EndsRetry(c) && c.workflowId in s.queue && s.queue[c.workflowId].timer in s.timers)
  {
    hide QueueOk, Dequeued, Enqueued, Rescheduled, IsAuthorization;
    DequeuedCalls(s, c.workflowId);
    EnqueuedCalls(s, c.workflowId);
    RescheduledCalls(s, c);
    DequeuedKeeps(s, c.workflowId);
    EnqueuedKeeps(s, Init, c.workflowId);
    if EndsRetry(c) && c.workflowId in s.queue && s.queue[c.workflowId].timer !in s.timers {
      RescheduledKeeps(s, c.workflowId, c.kind.mode);
    }
  }

  lemma StepKeepsRetriesOrTimer(s: State, n: nat, a: Answers, w: string)
    requires Inv(s) && n in s.calls && a.Valid() && HasRetry(s.calls, w)
    requires w in QueueEffect(s, s.calls[n]).queue
    ensures HasRetry(Advance(s, n, a).calls, w) ||
            QueueEffect(s, s.calls[n]).queue[w].timer in QueueEffect(s, s.calls[n]).timers
  {
    var c := s.calls[n];
    hide Advance, HasRetry, QueueOk, CallsOk, IsAuthorization;
    if w == c.workflowId && (ClearsQueue(c) || EndsRetry(c)) {
      hide NextTimeout, Without, Enqueued;
    } else {
      hide QueueEffect;
      StepKeepsRetries(s, n, a, w);
    }
  }

  /** A new call changes nothing but the calls. */
  lemma BeganKeepsInv(s: State, w: string, kind: Kind)
    requires Inv(s)
    ensures Inv(Began(s, w, kind))
  {
    var s' := Began(s, w, kind);
    forall u | HasRetry(s.calls, u) ensures HasRetry(s'.calls, u) {
      var n :| n in s.calls && Serves(s.calls[n], u);
      assert n in s'.calls && Serves(s'.calls[n], u);
    }
    hide HasRetry;
    SameQueueingKeeps(s, s');
  }

  lemma FireKeepsInv(s: State, timer: nat)
    requires Inv(s) && Enabled(s, FireTimer(timer))
    ensures Inv(RetryBegin(s, timer))
  {
    var s', t := RetryBegin(s, timer), s.timers[timer];
    assert TimerRecorded(s, timer);
    assert s.nextCall in s'.calls && Serves(s'.calls[s.nextCall], t.workflowId);
    forall u | HasRetry(s.calls, u) ensures HasRetry(s'.calls, u) {
      var n :| n in s.calls && Serves(s.calls[n], u);
      assert n in s'.calls && Serves(s'.calls[n], u);
    }
    hide HasRetry;
    forall u | u in s'.timers ensures TimerRecorded(s', u) { assert TimerRecorded(s, u); }
    forall w | w in s'.queue ensures EntryServed(s', w) && EntryPaced(s', w) {
      assert EntryServed(s, w) && EntryPaced(s, w);
    }
  }

  lemma TickKeepsInv(s: State, ms: nat)
    requires Inv(s)
    ensures Inv(s.(clock := s.clock + ms))
  {
    var s' := s.(clock := s.clock + ms);
    forall u | u in s'.timers ensures TimerRecorded(s', u) { assert TimerRecorded(s, u); }
    forall w | w in s'.queue ensures EntryServed(s', w) && EntryPaced(s', w) {
      assert EntryServed(s, w) && EntryPaced(s, w);
    }
  }

  lemma EmptyQueueLeavesNoTimers(s: State)
    requires Inv(s)
    ensures AllDequeued(s).queue == map[] && AllDequeued(s).timers == map[]
    ensures Inv(AllDequeued(s))
  {
    forall timer | timer in s.timers ensures timer in (set w | w in s.queue.Keys && w in s.queue :: s.queue[w].timer) {
      assert TimerRecorded(s, timer);
    }
  }

  lemma NoneDequeued(s: State)
    ensures SomeDequeued(s, s.queue.Keys - s.queue.Keys) == s
  {
    assert s.queue.Keys - s.queue.Keys == {} && s.timers - {} == s.timers && s.queue - {} == s.queue;
  }

  /** Entries can be taken out one by one, in any order. */
  lemma DequeuedOneMore(s: State, done: set<string>, w: string)
    requires w in s.queue && w !in done
    ensures Dequeued(SomeDequeued(s, done), w) == SomeDequeued(s, done + {w})
  {
    var before, after := SomeDequeued(s, done), SomeDequeued(s, done + {w});
    assert (set u | u in done + {w} && u in s.queue :: s.queue[u].timer)
           == (set u | u in done && u in s.queue :: s.queue[u].timer) + {s.queue[w].timer};
    assert Without(before.timers, s.queue[w].timer) == after.timers;
    assert Without(before.queue, w) == after.queue;
  }

  lemma EmitErrorKeepsInv(s: State, w: string, mode: Mode, message: string, closes: bool)
    requires Inv(s)
    ensures Inv(EmitError(s, w, mode, message, closes))
  {
    hide QueueOk, Without;
    var s1 := Registered(if closes then s.(inMemory := s.inMemory - {w}) else s, w, message);
    SameQueueingKeeps(s, s1);
    EnqueuedKeeps(s1, mode, w);
  }

  /** Exactly when an event keeps the invariant. */
  lemma NextKeepsInvIff(s: State, e: Event)
    requires Inv(s) && Enabled(s, e)
    ensures Inv(Next(s, e)) <==> !Disturbs(s, e)
  {
    hide Inv, Began, RetryBegin, Advance, EmitError, AllDequeued, EndsRetry;
    match e
    case AddOne(w, mode) => BeganKeepsInv(s, w, Direct(mode));
    case StartupOne(w, mode) => BeganKeepsInv(s, w, Startup(mode));
    case FireTimer(timer) => FireKeepsInv(s, timer);
    case RemoveOne(w) => BeganKeepsInv(s, w, Removal);
    case Step(n, a) => StepKeepsInvIff(s, n, a);
    case TriggerError(w, mode, message, closes) => EmitErrorKeepsInv(s, w, mode, message, closes);
    case EmptyQueue => EmptyQueueLeavesNoTimers(s);
    case ClearError(w) => ErrorsKeepInv(s, Next(s, e));
    case ClearAllErrors => ErrorsKeepInv(s, Next(s, e));
    case Tick(ms) => TickKeepsInv(s, ms);
  }

  lemma ErrorsKeepInv(s: State, s': State)
    requires Inv(s) && SameQueueing(s, s') && SameCalls(s, s')
    ensures Inv(s')
  {
    SameQueueingKeeps(s, s');
  }

  // ---------------------------------------------------------------- runs

  /** A run from `s`: every event is possible where it happens. */
  ghost predicate IsRun(s: State, events: seq<Event>)
    decreases |events|
  {
    events == [] || (Enabled(s, events[0]) && IsRun(Next(s, events[0]), events[1..]))
  }

  ghost function After(s: State, events: seq<Event>): State
    requires IsRun(s, events)
    decreases |events|
  {
    if events == [] then s else After(Next(s, events[0]), events[1..])
  }

  ghost predicate Undisturbed(s: State, events: seq<Event>)
    requires IsRun(s, events)
    decreases |events|
  {
    events == [] || (!Disturbs(s, events[0]) && Undisturbed(Next(s, events[0]), events[1..]))
  }

  /** Every run in which no failing retry meets a new timer of its workflow keeps timers and queue in step,
      whatever happens between the steps of calls. */
  lemma {:induction false} RunKeepsInv(s: State, events: seq<Event>)
    requires Inv(s) && IsRun(s, events) && Undisturbed(s, events)
    ensures Inv(After(s, events))
    decreases |events|
  {
    hide Inv, Next, Disturbs;
    if events != [] {
      NextKeepsInvIff(s, events[0]);
      RunKeepsInv(Next(s, events[0]), events[1..]);
    }
  }

  // ---------------------------------------------------------------- retries of workflows that nothing queues

  /** The events that put a workflow into the queue. */
  predicate Queues(s: State, e: Event, w: string)
    requires e.Step? ==> e.n in s.calls
  {
    (e.TriggerError? && e.w == w) || (e.Step? && s.calls[e.n].workflowId == w && QueuesStartup(s.calls[e.n]))
  }

  /** A trigger error, or a failed start-up, of a workflow of which a retry is under way. */
  ghost predicate Requeues(s: State, e: Event)
    requires e.Step? ==> e.n in s.calls
  {
    exists n :: n in s.calls && s.calls[n].kind.Retry? && Queues(s, e, s.calls[n].workflowId)
  }

  ghost predicate NeverRequeues(s: State, events: seq<Event>)
    requires IsRun(s, events)
    decreases |events|
  {
    events == [] || (!Requeues(s, events[0]) && NeverRequeues(Next(s, events[0]), events[1..]))
  }

  /** A workflow has one retry at most, and while it is under way no live timer. */
  ghost predicate RetriesAlone(s: State) {
    && (forall n, m :: n in s.calls && m in s.calls && BothRetry(s.calls[n], s.calls[m]) ==> n == m)
    && forall n :: n in s.calls && s.calls[n].kind.Retry? ==> NoLiveTimer(s, s.calls[n].workflowId)
  }

  predicate BothRetry(c: Call, d: Call) { c.kind.Retry? && d.kind.Retry? && c.workflowId == d.workflowId }

  predicate NoLiveTimer(s: State, w: string) { w in s.queue ==> s.queue[w].timer !in s.timers }

  /** A workflow whose entry is not made anew gets no live timer. */
  lemma QueueEffectFrame(s: State, c: Call, w: string)
    requires QueueOk(s) && NoLiveTimer(s, w) && (w == c.workflowId ==> !QueuesStartup(c) && !EndsRetry(c))
    ensures NoLiveTimer(QueueEffect(s, c), w)
  {
    if w in s.queue { assert EntryServed(s, w); }
    hide QueueOk, IsAuthorization, NextTimeout;
  }

  lemma EmitErrorFrame(s: State, u: string, mode: Mode, message: string, closes: bool, w: string)
    requires QueueOk(s) && NoLiveTimer(s, w) && w != u
    ensures NoLiveTimer(EmitError(s, u, mode, message, closes), w)
  {
    if w in s.queue { assert EntryServed(s, w); }
    hide QueueOk;
  }

  lemma EmitErrorCalls(s: State, w: string, mode: Mode, message: string, closes: bool)
    ensures EmitError(s, w, mode, message, closes).calls == s.calls
  {
    hide Without;
  }

  lemma StepKeepsAlone(s: State, n: nat, a: Answers)
    requires QueueOk(s) && RetriesAlone(s) && n in s.calls && a.Valid() && !Requeues(s, Step(n, a))
    ensures RetriesAlone(Advance(s, n, a))
  {
    var c, s' := s.calls[n], Advance(s, n, a);
    StepQueueing(s, c, a);
    RetryMoves(s, n, a);
    hide Effect, Moved, StageAfter, QueueOk;
    forall m | m in s'.calls && s'.calls[m].kind.Retry? ensures NoLiveTimer(s', s'.calls[m].workflowId) {
      var w := s.calls[m].workflowId;
      assert NoLiveTimer(s, w) && !Queues(s, Step(n, a), w);
      QueueEffectFrame(s, c, w);
    }
  }

  /** A step keeps the kinds and workflows of calls, and a retry that has returned is over. */
  lemma RetryMoves(s: State, n: nat, a: Answers)
    requires n in s.calls && a.Valid()
    ensures var s' := Advance(s, n, a);
            && (forall m :: m in s'.calls ==> m in s.calls && s'.calls[m].kind == s.calls[m].kind
                                              && s'.calls[m].workflowId == s.calls[m].workflowId)
            && (EndsRetry(s.calls[n]) ==> n !in s'.calls)
  {
    hide AddEffect, RemoveEffect;
  }

  lemma FireKeepsAlone(s: State, timer: nat)
    requires Inv(s) && RetriesAlone(s) && timer in s.timers
    ensures RetriesAlone(RetryBegin(s, timer))
  {
    assert TimerRecorded(s, timer);
    forall n | n in s.calls && s.calls[n].kind.Retry? ensures s.calls[n].workflowId != s.timers[timer].workflowId {
      assert NoLiveTimer(s, s.calls[n].workflowId);
    }
    hide QueueOk, CallsOk;
  }

  lemma BeganKeepsAlone(s: State, w: string, kind: Kind)
    requires RetriesAlone(s) && !kind.Retry?
    ensures RetriesAlone(Began(s, w, kind))
  {
    forall n | n in s.calls && s.calls[n].kind.Retry? ensures NoLiveTimer(Began(s, w, kind), s.calls[n].workflowId) {
      assert NoLiveTimer(s, s.calls[n].workflowId);
    }
  }

  lemma EmitErrorKeepsAlone(s: State, w: string, mode: Mode, message: string, closes: bool)
    requires QueueOk(s) && RetriesAlone(s) && !Requeues(s, TriggerError(w, mode, message, closes))
    ensures RetriesAlone(EmitError(s, w, mode, message, closes))
  {
    var s' := EmitError(s, w, mode, message, closes);
    EmitErrorCalls(s, w, mode, message, closes);
    hide EmitError, QueueOk;
    forall n | n in s.calls && s.calls[n].kind.Retry? ensures NoLiveTimer(s', s.calls[n].workflowId) {
      assert !Queues(s, TriggerError(w, mode, message, closes), s.calls[n].workflowId);
      EmitErrorFrame(s, w, mode, message, closes, s.calls[n].workflowId);
    }
  }

  /** The timers of a state are no more than those of another, and so are its entries. */
  lemma FewerKeepAlone(s: State, s': State)
    requires RetriesAlone(s) && s'.calls == s.calls && s'.timers.Keys <= s.timers.Keys
    requires forall w :: w in s'.queue ==> w in s.queue && s'.queue[w] == s.queue[w]
    ensures RetriesAlone(s')
  {
    forall n | n in s.calls && s.calls[n].kind.Retry? ensures NoLiveTimer(s', s.calls[n].workflowId) {
      assert NoLiveTimer(s, s.calls[n].workflowId);
    }
  }

  lemma NextKeepsAlone(s: State, e: Event)
    requires Inv(s) && RetriesAlone(s) && Enabled(s, e) && !Requeues(s, e)
    ensures RetriesAlone(Next(s, e)) && !Disturbs(s, e)
  {
    hide QueueOk, CallsOk, Began, RetryBegin, Advance, EmitError;
    match e
    case AddOne(w, mode) => BeganKeepsAlone(s, w, Direct(mode)); hide RetriesAlone, Requeues;
    case StartupOne(w, mode) => BeganKeepsAlone(s, w, Startup(mode)); hide RetriesAlone, Requeues;
    case FireTimer(timer) => FireKeepsAlone(s, timer); hide RetriesAlone, Requeues;
    case RemoveOne(w) => BeganKeepsAlone(s, w, Removal); hide RetriesAlone, Requeues;
    case Step(n, a) =>
      StepKeepsAlone(s, n, a);
      assert s.calls[n].kind.Retry? ==> NoLiveTimer(s, s.calls[n].workflowId);
      hide RetriesAlone, Requeues;
    case TriggerError(w, mode, message, closes) =>
      EmitErrorKeepsAlone(s, w, mode, message, closes);
      hide RetriesAlone, Requeues;
    case EmptyQueue => FewerKeepAlone(s, Next(s, e)); hide RetriesAlone, Requeues;
    case ClearError(w) => FewerKeepAlone(s, Next(s, e)); hide RetriesAlone, Requeues;
    case ClearAllErrors => FewerKeepAlone(s, Next(s, e)); hide RetriesAlone, Requeues;
    case Tick(ms) => FewerKeepAlone(s, Next(s, e)); hide RetriesAlone, Requeues;
  }

  /** Over every run in which no workflow is queued while a retry of it is under way, timers and queue stay in
      step, whatever else happens between the steps of calls. */
  lemma {:induction false} UnqueuedIsUndisturbed(s: State, events: seq<Event>)
    requires Inv(s) && RetriesAlone(s) && IsRun(s, events) && NeverRequeues(s, events)
    ensures Undisturbed(s, events) && Inv(After(s, events)) && RetriesAlone(After(s, events))
    decreases |events|
  {
    hide Inv, RetriesAlone, Requeues, Enabled, Next, Disturbs;
    if events != [] {
      NextKeepsAlone(s, events[0]);
      NextKeepsInvIff(s, events[0]);
      UnqueuedIsUndisturbed(Next(s, events[0]), events[1..]);
    }
  }

  /** Retries run to completion: while one is under way, only its steps happen, and time passes. */
  ghost predicate AtomicRetries(s: State, events: seq<Event>)
    requires IsRun(s, events)
    decreases |events|
  {
    events == [] || (LeavesRetries(s, events[0]) && AtomicRetries(Next(s, events[0]), events[1..]))
  }

  ghost predicate LeavesRetries(s: State, e: Event) {
    forall n :: n in s.calls && s.calls[n].kind.Retry? ==> e.Tick? || (e.Step? && e.n == n)
  }

  /** With atomic retries timers and queue stay in step over every run. */
  lemma {:induction false} AtomicIsUndisturbed(s: State, events: seq<Event>)
    requires Inv(s) && RetriesAlone(s) && IsRun(s, events) && AtomicRetries(s, events)
    ensures NeverRequeues(s, events) && Undisturbed(s, events) && Inv(After(s, events))
  {
    AtomicNeverRequeues(s, events);
    UnqueuedIsUndisturbed(s, events);
  }

  lemma {:induction false} AtomicNeverRequeues(s: State, events: seq<Event>)
    requires IsRun(s, events) && AtomicRetries(s, events)
    ensures NeverRequeues(s, events)
    decreases |events|
  {
    hide Next, Enabled;
    if events != [] {
      LeavesIsNoRequeue(s, events[0]);
      hide LeavesRetries, Requeues;
      AtomicNeverRequeues(Next(s, events[0]), events[1..]);
    }
  }

  lemma LeavesIsNoRequeue(s: State, e: Event)
    requires Enabled(s, e) && LeavesRetries(s, e)
    ensures !Requeues(s, e)
  {
  }
}
