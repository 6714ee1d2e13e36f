/** A workflow is retried in the mode in which it was queued. */
module ActivationModes {
  import opened Wrappers
  import opened Activation
  import opened ActivationTheorems
  import opened ActivationOutcomes
  import opened ActivationEffects

  predicate TimerInMode(s: State, t: nat)
    requires t in s.timers
  {
    var w := s.timers[t].workflowId;
    w in s.queue ==> s.queue[w].mode == s.timers[t].mode
  }

  predicate RetryInMode(s: State, c: Call) {
    c.kind.Retry? && c.workflowId in s.queue ==> s.queue[c.workflowId].mode == c.kind.mode
  }

  /** Live timers, and retries under way, have the mode of the entry of their workflow. */
  ghost predicate ModesOk(s: State) {
    && (forall t :: t in s.timers ==> TimerInMode(s, t))
    && (forall n :: n in s.calls ==> RetryInMode(s, s.calls[n]))
  }

  /** The entry of a workflow keeps its mode unless it is made anew, by a trigger error or by start-up. */
  lemma EntryKeepsMode(s: State, e: Event, w: string)
    requires Enabled(s, e) && w in Next(s, e).queue && !Queues(s, e, w)
    ensures w in s.queue && Next(s, e).queue[w].mode == s.queue[w].mode
  {
    hide Next, QueuesStartup;
    EntryAfter(s, e, w);
  }

  lemma TimerKeepsMode(s: State, e: Event, t: nat)
    requires QueueOk(s) && ModesOk(s) && Enabled(s, e) && t in Next(s, e).timers && QueueOk(Next(s, e))
    ensures TimerInMode(Next(s, e), t)
  {
    hide Next, QueuesStartup, QueueOk;
    var s' := Next(s, e);
    RecordedIn(s', t);
    var w := s'.timers[t].workflowId;
    EntryAfter(s, e, w);
    if t != s.nextTimer {
      TimersAfter(s, e, t);
      assert TimerInMode(s, t);
    }
    OldTimer(s, w);
    if PutsBack(s, e, w) { assert RetryInMode(s, s.calls[e.n]); }
  }

  lemma RecordedIn(s: State, t: nat)
    requires QueueOk(s) && t in s.timers
    ensures s.timers[t].workflowId in s.queue && s.queue[s.timers[t].workflowId].timer == t
  {
    assert TimerRecorded(s, t);
  }

  lemma OldTimer(s: State, w: string)
    requires QueueOk(s)
    ensures w in s.queue ==> s.queue[w].timer < s.nextTimer
  {
    if w in s.queue { assert EntryServed(s, w); }
  }

  lemma RetryKeepsMode(s: State, e: Event, n: nat)
    requires Inv(s) && ModesOk(s) && Enabled(s, e) && !Requeues(s, e) && n in Next(s, e).calls
    ensures RetryInMode(Next(s, e), Next(s, e).calls[n])
  {
    hide Next, QueuesStartup, QueueOk, Inv, Requeues;
    var s' := Next(s, e);
    var c := s'.calls[n];
    if c.kind.Retry? && c.workflowId in s'.queue {
      if e.Step? {
        StepMovesCall(s, e.n, e.a);
        assert RetryInMode(s, s.calls[n]);
        NotRequeued(s, e, n);
      } else {
        CallsBegin(s, e);
        if n in s.calls && s'.calls[n] == s.calls[n] {
          assert RetryInMode(s, s.calls[n]);
          NotRequeued(s, e, n);
        } else {
          assert TimerInMode(s, e.timer);
          EntryKeepsMode(s, e, c.workflowId);
        }
      }
    }
  }

  lemma NotRequeued(s: State, e: Event, n: nat)
    requires Enabled(s, e) && !Requeues(s, e) && n in s.calls && s.calls[n].kind.Retry?
    ensures !Queues(s, e, s.calls[n].workflowId)
    ensures var w := s.calls[n].workflowId;
            w in Next(s, e).queue ==> w in s.queue && Next(s, e).queue[w].mode == s.queue[w].mode
  {
    hide Next, QueuesStartup;
    if s.calls[n].workflowId in Next(s, e).queue {
      EntryKeepsMode(s, e, s.calls[n].workflowId);
    }
  }

  lemma NextKeepsModes(s: State, e: Event)
    requires Inv(s) && ModesOk(s) && Enabled(s, e) && !Requeues(s, e) && Inv(Next(s, e))
    ensures ModesOk(Next(s, e))
  {
    hide Next, QueueOk, CallsOk, TimerInMode, RetryInMode, Requeues;
    forall t | t in Next(s, e).timers ensures TimerInMode(Next(s, e), t) { TimerKeepsMode(s, e, t); }
    forall n | n in Next(s, e).calls ensures RetryInMode(Next(s, e), Next(s, e).calls[n]) { RetryKeepsMode(s, e, n); }
  }

  /** From the beginning, over every run in which no workflow is queued while a retry of it is under way: every
      retry, waiting or under way, is in the mode of the queue entry of its workflow. */
  lemma RetriedInItsMode(events: seq<Event>)
    requires IsRun(Initial(), events) && NeverRequeues(Initial(), events)
    ensures ModesOk(After(Initial(), events))
  {
    InitialInv();
    RunKeepsModes(Initial(), events);
  }

  lemma {:induction false} RunKeepsModes(s: State, events: seq<Event>)
    requires Inv(s) && RetriesAlone(s) && ModesOk(s) && IsRun(s, events) && NeverRequeues(s, events)
    ensures ModesOk(After(s, events))
    decreases |events|
  {
    hide Inv, RetriesAlone, ModesOk, Requeues, Enabled, Next, Disturbs;
    if events != [] {
      NextKeepsAlone(s, events[0]);
      NextKeepsInvIff(s, events[0]);
      NextKeepsModes(s, events[0]);
      RunKeepsModes(Next(s, events[0]), events[1..]);
    }
  }
}
