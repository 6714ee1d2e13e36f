/** What every event does to the calls under way, to the workflows in memory, to the stored webhooks, to the errors
    and to the entries of the queue, said of the event and its answers alone. */
module ActivationEffects {
  import opened Wrappers
  import opened Activation
  import opened ActivationTheorems
  import opened ActivationOutcomes
  import W = WebhookRegistration
  import R = WebhookRegistrationRows

  // ---------------------------------------------------------------- messages

  predicate WordAt(text: string, word: string, i: int) {
    0 <= i <= |text| - |word| && text[i..i + |word|] == word
  }

  /** The text contains the word at some position. */
  ghost predicate Contains(text: string, word: string) {
    exists i :: WordAt(text, word, i)
  }

  lemma WordAtStart(text: string, word: string)
    ensures WordAt(text, word, 0) <==> word <= text
  {
  }

  lemma WordAtRest(text: string, word: string, i: nat)
    requires text != ""
    ensures WordAt(text, word, i + 1) <==> WordAt(text[1..], word, i)
  {
    if 0 <= i <= |text| - 1 - |word| {
      assert text[1..][i..i + |word|] == text[i + 1..i + 1 + |word|];
    }
  }

  lemma {:induction false} IncludesIff(text: string, word: string)
    ensures Includes(text, word) <==> Contains(text, word)
  {
    WordAtStart(text, word);
    if text != "" {
      IncludesIff(text[1..], word);
      hide WordAt;
      if i: int :| WordAt(text, word, i) {
        WordNotBefore(text, word, i);
        if i > 0 { WordAtRest(text, word, i - 1); }
      }
      if i: int :| WordAt(text[1..], word, i) {
        WordNotBefore(text[1..], word, i);
        WordAtRest(text, word, i);
      }
    } else {
      NoWordIn(word);
    }
  }

  lemma WordNotBefore(text: string, word: string, i: int)
    requires WordAt(text, word, i)
    ensures i >= 0
  {
  }

  lemma NoWordIn(word: string)
    ensures Contains("", word) ==> word == ""
  {
  }

  /** What start-up does not retry. */
  lemma AuthorizationIff(message: string)
    ensures IsAuthorization(message) <==> Contains(message, "Authorization")
  {
    IncludesIff(message, "Authorization");
  }

  // ---------------------------------------------------------------- calls

  /** The webhooks of the call are registered, or it leaves them to the instance that has them. */
  ghost predicate WebhooksReady(c: Call, a: Answers)
    requires !c.kind.Removal?
  {
    c.kind.mode == LeadershipChange || R.Returns(a.hooks, a.steps, c.kind.mode == Init, a.tail)
  }

  /** The next step of an `add` fails with this message. */
  ghost predicate FailsWith(c: Call, a: Answers, message: string)
    requires !c.kind.Removal? && a.Valid()
  {
    match c.stage
    case Preparing =>
      || a.refusal == Some(message)
      || (a.refusal == None && c.kind.mode != LeadershipChange
          && R.Throws(a.hooks, a.steps, c.kind.mode == Init, a.tail, message))
      || (a.refusal == None && WebhooksReady(c, a) && a.hasTriggers && a.triggerFailure == Some(message))
    case Cleared => a.deregistering == Some(message)
    case Deregistered => a.counting == Some(message)
    case _ => false
  }

  /** The stages of an `add`, one awaited answer after the other; an activation message is shown on start-up and on
      a change of leader. */
  ghost predicate AddMoves(c: Call, a: Answers, after: Option<Stage>)
    requires !c.kind.Removal? && a.Valid()
  {
    && (forall m :: FailsWith(c, a, m) ==> after == Some(Failing(m)))
    && ((forall m :: !FailsWith(c, a, m)) ==>
          match c.stage
          case Preparing => after == Some(Prepared)
          case Prepared => after == Some(Cleared)
          case Cleared => after == Some(Deregistered)
          case Deregistered => after == Some(Counted)
          case Counted =>
            (match a.saving
             case Some(m) => after == Some(Ended(Threw(m)))
             case None => after == Some(Ended(Added(c.kind.mode == Init || c.kind.mode == LeadershipChange))))
          case Failing(m) => after == Some(Ended(Threw(m)))
          case Ended(_) => after == None)
  }

  /** The stages of a `remove`. */
  predicate RemoveMoves(c: Call, a: Answers, after: Option<Stage>) {
    match c.stage
    case Preparing => after == Some(Prepared)
    case Prepared => after == if a.deregistering == None then Some(Deregistered) else None
    case Deregistered => after == Some(Cleared)
    case _ => after == None
  }

  lemma PrepareFailsWith(s: State, c: Call, a: Answers)
    requires !c.kind.Removal? && a.Valid() && c.stage == Preparing
    ensures forall m :: Prepare(s, c.workflowId, c.kind.mode, a).1 == Some(m) <==> FailsWith(c, a, m)
  {
    hide W.Registration, R.Returns, R.Throws;
    R.ResultIff(s.webhooks, c.workflowId, a.hooks, a.steps, c.kind.mode == Init, a.clears, a.tail);
  }

  lemma AddStageMoves(s: State, c: Call, a: Answers)
    requires !c.kind.Removal? && a.Valid()
    ensures AddMoves(c, a, AddStage(s, c, a))
  {
    if c.stage == Preparing {
      hide Prepare, FailsWith;
      PrepareFailsWith(s, c, a);
      var failure := Prepare(s, c.workflowId, c.kind.mode, a).1;
      assert failure.Some? ==> FailsWith(c, a, failure.value);
    } else {
      hide Prepare;
      if m :| FailsWith(c, a, m) {
      } else {
        assert c.stage == Cleared && a.deregistering.Some? ==> FailsWith(c, a, a.deregistering.value);
        assert c.stage == Deregistered && a.counting.Some? ==> FailsWith(c, a, a.counting.value);
      }
    }
  }

  /** A step moves its own call through its stages, and no other. */
  lemma StepMovesCall(s: State, n: nat, a: Answers)
    requires n in s.calls && a.Valid()
    ensures var c, s' := s.calls[n], Next(s, Step(n, a));
            var after := if n in s'.calls then Some(s'.calls[n].stage) else None;
            && (if c.kind.Removal? then RemoveMoves(c, a, after) else AddMoves(c, a, after))
            && (n in s'.calls ==> s'.calls[n].workflowId == c.workflowId && s'.calls[n].kind == c.kind)
            && forall m :: m != n ==> (m in s'.calls <==> m in s.calls) && (m in s.calls ==> s'.calls[m] == s.calls[m])
  {
    hide AddMoves, AddStage, Effect;
    if !s.calls[n].kind.Removal? {
      AddStageMoves(s, s.calls[n], a);
    }
  }

  /** A call that begins. */
  ghost predicate Begins(s: State, s': State, w: string, kind: Kind) {
    && s'.nextCall == s.nextCall + 1 && s.nextCall in s'.calls
    && s'.calls[s.nextCall].workflowId == w && s'.calls[s.nextCall].kind == kind
    && s'.calls[s.nextCall].stage == Preparing
    && forall m :: m != s.nextCall ==> (m in s'.calls <==> m in s.calls) && (m in s.calls ==> s'.calls[m] == s.calls[m])
  }

  /** Which call an event begins: a due timer that of the workflow and mode it was set for. */
  lemma CallsBegin(s: State, e: Event)
    requires Enabled(s, e) && !e.Step?
    ensures var s' := Next(s, e);
            match e
            case AddOne(w, mode) => Begins(s, s', w, Direct(mode))
            case StartupOne(w, mode) => Begins(s, s', w, Startup(mode))
            case RemoveOne(w) => Begins(s, s', w, Removal)
            case FireTimer(t) => Begins(s, s', s.timers[t].workflowId, Retry(s.timers[t].mode))
            case _ => s'.calls == s.calls && s'.nextCall == s.nextCall
  {
    if e.TriggerError? {
      EmitErrorQueues(s, e.w, e.mode, e.message, e.closes);
      hide EmitError;
    } else {
      hide Without;
    }
  }

  /** The clock goes on by itself only. */
  lemma ClockTicks(s: State, e: Event)
    requires Enabled(s, e)
    ensures Next(s, e).clock == if e.Tick? then s.clock + e.ms else s.clock
  {
    hide Effect, Moved;
    if e.Step? {
      StepQueueing(s, s.calls[e.n], e.a);
      QueueEffectClock(s, s.calls[e.n]);
    }
    hide QueueEffect;
  }

  lemma QueueEffectClock(s: State, c: Call)
    ensures QueueEffect(s, c).clock == s.clock
  {
    hide Without, IsAuthorization, NextTimeout;
  }

  // ---------------------------------------------------------------- workflows in memory

  /** An `add` gets to the triggers of the workflow. */
  ghost predicate LoadsTriggers(s: State, e: Event, w: string)
    requires Enabled(s, e)
  {
    && e.Step?
    && var c, a := s.calls[e.n], e.a;
       && c.workflowId == w && !c.kind.Removal? && c.stage == Preparing
       && a.refusal == None && WebhooksReady(c, a) && a.hasTriggers
  }

  /** The last step of a `remove`, or an error of a trigger, whose closing works. */
  predicate Unloads(s: State, e: Event, w: string)
    requires e.Step? ==> e.n in s.calls
  {
    || (e.TriggerError? && e.w == w && e.closes)
    || (e.Step?
        && var c := s.calls[e.n];
           && c.workflowId == w && c.kind == Removal && e.a.closes
           && c.stage != Preparing && c.stage != Prepared && c.stage != Deregistered)
  }

  lemma MemoryIff(s: State, e: Event, w: string)
    requires Enabled(s, e)
    ensures w in Next(s, e).inMemory <==> LoadsTriggers(s, e, w) || (w in s.inMemory && !Unloads(s, e, w))
  {
    hide Moved, WebhooksReady;
    if e.Step? {
      StepMemory(s, s.calls[e.n], e.a, w);
      hide Effect;
    } else {
      OtherServices(s, e);
      hide Next;
    }
  }

  /** What is not a step of a call leaves the services alone, but for a trigger error whose triggers close. */
  lemma OtherServices(s: State, e: Event)
    requires Enabled(s, e) && !e.Step?
    ensures Next(s, e).webhooks == s.webhooks
    ensures Next(s, e).inMemory == if e.TriggerError? && e.closes then s.inMemory - {e.w} else s.inMemory
  {
    if e.TriggerError? {
      EmitErrorServices(s, e.w, e.mode, e.message, e.closes);
      hide EmitError;
    } else {
      hide Without;
    }
  }

  lemma EmitErrorServices(s: State, w: string, mode: Mode, message: string, closes: bool)
    ensures var s' := EmitError(s, w, mode, message, closes);
            s'.webhooks == s.webhooks && s'.inMemory == if closes then s.inMemory - {w} else s.inMemory
  {
    hide Without;
  }

  lemma StepMemory(s: State, c: Call, a: Answers, w: string)
    requires a.Valid()
    ensures w in Effect(s, c, a).inMemory <==>
            (c.workflowId == w && !c.kind.Removal? && c.stage == Preparing
             && a.refusal == None && WebhooksReady(c, a) && a.hasTriggers)
            || (w in s.inMemory
                && !(c.workflowId == w && c.kind == Removal && a.closes
                     && c.stage != Preparing && c.stage != Prepared && c.stage != Deregistered))
  {
    hide W.Registration, W.Cleared, R.Returns, R.Throws, Without;
    if c.kind.Removal? {
    } else if c.stage == Preparing {
      R.ResultIff(s.webhooks, c.workflowId, a.hooks, a.steps, c.kind.mode == Init, a.clears, a.tail);
      var result := W.Registration(s.webhooks, c.workflowId, a.hooks, a.steps, c.kind.mode == Init, a.clears, a.tail).1;
      assert result == W.Returned <==> R.Returns(a.hooks, a.steps, c.kind.mode == Init, a.tail);
    } else {
      hide Prepare, WebhooksReady;
      ReturnKeepsServices(s, c);
    }
  }

  lemma ReturnKeepsServices(s: State, c: Call)
    requires !c.kind.Removal?
    ensures c.stage.Ended? ==> Returned(s, c, c.stage.outcome).inMemory == s.inMemory
                               && Returned(s, c, c.stage.outcome).webhooks == s.webhooks
    ensures Dequeued(s, c.workflowId).inMemory == s.inMemory && Dequeued(s, c.workflowId).webhooks == s.webhooks
  {
    hide Without, IsAuthorization, NextTimeout;
  }

  // ---------------------------------------------------------------- stored webhooks

  /** What the event makes of the table of webhooks. */
  ghost predicate WebhooksAfter(s: State, e: Event, after: W.Table)
    requires Enabled(s, e)
  {
    if e.Step? && s.calls[e.n].stage == Preparing then
      var c, a := s.calls[e.n], e.a;
      match c.kind
      case Removal => if a.clears then R.LosesRowsOf(s.webhooks, c.workflowId, after) else after == s.webhooks
      case _ =>
        if a.refusal.Some? || c.kind.mode == LeadershipChange then after == s.webhooks
        else exists n :: R.EndsAt(a.steps, c.kind.mode == Init, n)
                         && R.Leaves(s.webhooks, c.workflowId, a.hooks, a.steps, a.clears, n, after)
    else after == s.webhooks
  }

  /** The table of webhooks changes with the first step of `add` and `remove` only. */
  lemma NextWebhooks(s: State, e: Event)
    requires Enabled(s, e)
    ensures WebhooksAfter(s, e, Next(s, e).webhooks)
  {
    if e.Step? {
      hide Moved, Effect, WebhooksAfter;
      StepWebhooks(s, e.n, e.a);
    } else {
      hide Next;
      OtherServices(s, e);
    }
  }

  lemma StepWebhooks(s: State, n: nat, a: Answers)
    requires n in s.calls && a.Valid()
    ensures WebhooksAfter(s, Step(n, a), Effect(s, s.calls[n], a).webhooks)
  {
    var c := s.calls[n];
    if c.stage == Preparing && c.kind.Removal? {
      R.ClearedLoses(s.webhooks, c.workflowId);
      hide W.Cleared, R.LosesRowsOf, AddEffect;
    } else if c.stage == Preparing {
      hide RemoveEffect, R.LosesRowsOf;
      AddWebhooksAfter(s, c, a);
      hide Prepare, R.EndsAt, R.Leaves;
    } else {
      hide Prepare, R.EndsAt, R.Leaves, R.LosesRowsOf, W.Cleared, Returned, Dequeued, Without;
      if !c.kind.Removal? {
        ReturnKeepsServices(s, c);
      } else {
        DequeuedKeepsWebhooks(s, c.workflowId);
      }
    }
  }

  lemma DequeuedKeepsWebhooks(s: State, w: string)
    ensures Dequeued(s, w).webhooks == s.webhooks
  {
  }

  lemma AddWebhooksAfter(s: State, c: Call, a: Answers)
    requires !c.kind.Removal? && a.Valid() && c.stage == Preparing
    ensures var after := Prepare(s, c.workflowId, c.kind.mode, a).0.webhooks;
            if a.refusal.Some? || c.kind.mode == LeadershipChange then after == s.webhooks
            else exists n :: R.EndsAt(a.steps, c.kind.mode == Init, n)
                             && R.Leaves(s.webhooks, c.workflowId, a.hooks, a.steps, a.clears, n, after)
  {
    hide W.Registration, R.EndsAt, R.Leaves;
    R.RegistrationLeaves(s.webhooks, c.workflowId, a.hooks, a.steps, c.kind.mode == Init, a.clears, a.tail);
  }

  // ---------------------------------------------------------------- errors

  /** The error of a workflow after an event is the message just registered, or the one it had. */
  lemma ErrorText(s: State, e: Event, w: string)
    requires Enabled(s, e) && w in Next(s, e).errors
    ensures !Registers(s, e, w) ==> w in s.errors
    ensures Next(s, e).errors[w] ==
            if e.TriggerError? && e.w == w then e.message
            else if Registers(s, e, w) then s.calls[e.n].stage.message
            else if w in s.errors then s.errors[w] else ""
  {
    hide Moved, Effect;
    InErrorIff(s, e, w);
    if e.Step? {
      StepErrors(s, s.calls[e.n], e.a);
    } else if e.TriggerError? {
      EmitErrorErrors(s, e.w, e.mode, e.message, e.closes);
      hide EmitError;
    } else {
      hide Dequeued;
    }
  }

  lemma EmitErrorErrors(s: State, w: string, mode: Mode, message: string, closes: bool)
    ensures EmitError(s, w, mode, message, closes).errors == s.errors[w := message]
  {
    hide Without;
  }

  // ---------------------------------------------------------------- entries of the queue

  /** The entry and its timer, set now. */
  ghost predicate SetAnew(s: State, s': State, w: string, mode: Mode, timerMode: Mode, delay: nat)
    requires w in s'.queue
  {
    && s'.queue[w] == Queued(mode, delay, s.nextTimer) && s'.nextTimer == s.nextTimer + 1
    && s.nextTimer in s'.timers && s'.timers[s.nextTimer] == Timer(w, timerMode, s.clock + delay)
  }

  /** A failed retry returns to the entry of its workflow. */
  predicate PutsBack(s: State, e: Event, w: string)
    requires e.Step? ==> e.n in s.calls
  {
    && e.Step?
    && var c := s.calls[e.n];
       c.workflowId == w && c.kind.Retry? && c.stage.Ended? && c.stage.outcome.Threw? && w in s.queue
  }

  /** Every entry after an event: a trigger error makes it anew in the mode of the trigger, a failed start-up in
      mode `init`, both for a second; a failed retry sets it back for twice as long, up to a day, in the modes that
      the entry and the retry had; and every other entry is as it was. */
  lemma EntryAfter(s: State, e: Event, w: string)
    requires Enabled(s, e) && w in Next(s, e).queue
    ensures var s' := Next(s, e);
            if e.TriggerError? && e.w == w then SetAnew(s, s', w, e.mode, e.mode, 1000)
            else if Queues(s, e, w) then SetAnew(s, s', w, Init, Init, 1000)
            else if PutsBack(s, e, w) then
              var last := s.queue[w].lastTimeout;
              SetAnew(s, s', w, s.queue[w].mode, s.calls[e.n].kind.mode,
                      if last >= 86400000 then last else if 2 * last <= 86400000 then 2 * last else 86400000)
            else w in s.queue && s'.queue[w] == s.queue[w]
  {
    hide Moved, Effect, IsAuthorization, NextTimeout, SetAnew;
    if e.Step? {
      StepQueueing(s, s.calls[e.n], e.a);
      StepEntry(s, Next(s, e), s.calls[e.n], w);
      hide QueueEffect;
    } else if e.TriggerError? {
      EmitErrorEntry(s, e.w, e.mode, e.message, e.closes, w);
      hide EmitError;
    } else {
      hide Without;
    }
  }

  lemma EmitErrorEntry(s: State, u: string, mode: Mode, message: string, closes: bool, w: string)
    requires w in EmitError(s, u, mode, message, closes).queue
    ensures var s' := EmitError(s, u, mode, message, closes);
            if w == u then SetAnew(s, s', w, mode, mode, 1000) else w in s.queue && s'.queue[w] == s.queue[w]
  {
  }

  lemma StepEntry(s: State, s': State, c: Call, w: string)
    requires SameQueueing(s', QueueEffect(s, c)) && w in s'.queue
    ensures if c.workflowId == w && QueuesStartup(c) then SetAnew(s, s', w, Init, Init, 1000)
            else if c.workflowId == w && EndsRetry(c) && w in s.queue then
              var last := s.queue[w].lastTimeout;
              SetAnew(s, s', w, s.queue[w].mode, c.kind.mode,
                      if last >= 86400000 then last else if 2 * last <= 86400000 then 2 * last else 86400000)
            else w in s.queue && s'.queue[w] == s.queue[w]
  {
    hide IsAuthorization;
  }

  /** A live timer is new, or was live and has not been spent. */
  lemma TimersAfter(s: State, e: Event, t: nat)
    requires Enabled(s, e) && t in Next(s, e).timers && t != s.nextTimer
    ensures t in s.timers && Next(s, e).timers[t] == s.timers[t] && e != FireTimer(t)
  {
    hide Moved, Effect;
    if e.Step? {
      StepQueueing(s, s.calls[e.n], e.a);
      QueueEffectTimers(s, s.calls[e.n], t);
      hide QueueEffect;
    } else if e.TriggerError? {
      EmitErrorTimers(s, e.w, e.mode, e.message, e.closes, t);
      hide EmitError;
    }
  }

  lemma QueueEffectTimers(s: State, c: Call, t: nat)
    requires t in QueueEffect(s, c).timers && t != s.nextTimer
    ensures t in s.timers && QueueEffect(s, c).timers[t] == s.timers[t]
  {
    hide IsAuthorization, NextTimeout, Dequeued, Enqueued, ClearsQueue, QueuesStartup, EndsRetry;
    DequeuedTimers(s, c.workflowId, t);
    EnqueuedTimers(s, Init, c.workflowId, t);
  }

  lemma DequeuedTimers(s: State, w: string, t: nat)
    ensures t in Dequeued(s, w).timers ==> t in s.timers && Dequeued(s, w).timers[t] == s.timers[t]
  {
  }

  lemma EnqueuedTimers(s: State, mode: Mode, w: string, t: nat)
    ensures t in Enqueued(s, mode, w).timers && t != s.nextTimer ==>
              t in s.timers && Enqueued(s, mode, w).timers[t] == s.timers[t]
  {
    DequeuedTimers(s, w, t);
    hide Without;
  }

  lemma EmitErrorTimers(s: State, w: string, mode: Mode, message: string, closes: bool, t: nat)
    requires t in EmitError(s, w, mode, message, closes).timers && t != s.nextTimer
    ensures t in s.timers && EmitError(s, w, mode, message, closes).timers[t] == s.timers[t]
  {
  }
}
