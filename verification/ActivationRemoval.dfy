/** What `remove` and `add` amount to once they are through, and what stays so. */
module ActivationRemoval {
  import opened Wrappers
  import opened Activation
  import opened ActivationTheorems
  import opened ActivationOutcomes
  import opened ActivationEffects
  import W = WebhookRegistration
  import R = WebhookRegistrationRows

  ghost predicate NoRowOf(table: W.Table, w: string) {
    forall key :: key in table ==> table[key].workflowId != w
  }

  /** What a removal takes from the services: the rows of the workflow, if they can be cleared, and no others. */
  ghost predicate RowsTaken(before: W.Table, w: string, clears: bool, after: W.Table) {
    && (NoRowOf(after, w) <==> clears || NoRowOf(before, w))
    && (forall key :: key in after ==> key in before && after[key] == before[key])
    && (forall key :: key in before && before[key].workflowId != w ==> key in after)
    && (!clears ==> after == before)
  }

  lemma ClearingTakesRows(before: W.Table, w: string, clears: bool)
    ensures RowsTaken(before, w, clears, if clears then W.Cleared(before, w) else before)
  {
  }

  lemma TwoSteps(s: State, w: string, a1: Answers, a2: Answers) returns (r: State)
    requires a1.Valid() && a2.Valid()
    ensures IsRun(s, [RemoveOne(w), Step(s.nextCall, a1), Step(s.nextCall, a2)])
    ensures r == After(s, [RemoveOne(w), Step(s.nextCall, a1), Step(s.nextCall, a2)])
    ensures r.webhooks == (if a1.clears then W.Cleared(s.webhooks, w) else s.webhooks) && r.inMemory == s.inMemory
    ensures r.queue == s.queue && r.timers == s.timers
    ensures if a2.deregistering.None?
            then s.nextCall in r.calls && r.calls[s.nextCall] == Call(w, Removal, Deregistered, false)
                 && r.errors == Without(s.errors, w)
            else s.nextCall !in r.calls && r.errors == s.errors
  {
    hide W.Cleared, Without, IsRun, After;
    var n, s1 := s.nextCall, Began(s, w, Removal);
    var s2 := Advance(s1, n, a1);
    assert s1.calls[n] == Call(w, Removal, Preparing, false) && s2.calls[n] == Call(w, Removal, Prepared, false);
    r := Advance(s2, n, a2);
    OneStep(s2, Step(n, a2));
    RunCons(s1, Step(n, a1), [Step(n, a2)]);
    RunCons(s, RemoveOne(w), [Step(n, a1)] + [Step(n, a2)]);
    assert [RemoveOne(w)] + ([Step(n, a1)] + [Step(n, a2)]) == [RemoveOne(w), Step(n, a1), Step(n, a2)];
    LastGone(s2.calls, n);
  }

  lemma LastGone(calls: map<nat, Call>, n: nat)
    ensures n !in Without(calls, n)
  {
  }

  /** A `remove` whose deregistering works, from any state: its workflow has no webhook left if they can be cleared,
      and is out of memory if its triggers can be closed; it is neither queued nor in error. */
  lemma RemovalRemoves(s: State, w: string, a1: Answers, a2: Answers, a3: Answers, a4: Answers)
    requires a1.Valid() && a2.Valid() && a3.Valid() && a4.Valid() && a2.deregistering == None
    ensures var n := s.nextCall;
            var events := [RemoveOne(w), Step(n, a1), Step(n, a2), Step(n, a3), Step(n, a4)];
            && IsRun(s, events)
            && var r := After(s, events);
               && RowsTaken(s.webhooks, w, a1.clears, r.webhooks)
               && (forall u :: u in r.inMemory <==> u in s.inMemory && !(u == w && a4.closes))
               && (forall u :: u in r.queue <==> u in s.queue && u != w)
               && (forall u :: u in r.errors <==> u in s.errors && u != w)
               && n !in r.calls
  {
    var n := s.nextCall;
    var r2 := TwoSteps(s, w, a1, a2);
    ClearingTakesRows(s.webhooks, w, a1.clears);
    var first := [RemoveOne(w), Step(n, a1), Step(n, a2)];
    LastTwoSteps(r2, n, w, a3, a4);
    hide W.Cleared, RowsTaken, IsRun, After, Next;
    RunConcat(s, first, [Step(n, a3), Step(n, a4)]);
    assert first + [Step(n, a3), Step(n, a4)] == [RemoveOne(w), Step(n, a1), Step(n, a2), Step(n, a3), Step(n, a4)];
  }

  lemma LastTwoSteps(s: State, n: nat, w: string, a3: Answers, a4: Answers)
    requires a3.Valid() && a4.Valid() && n in s.calls && s.calls[n] == Call(w, Removal, Deregistered, false)
    ensures IsRun(s, [Step(n, a3), Step(n, a4)])
    ensures var r := After(s, [Step(n, a3), Step(n, a4)]);
            && r.webhooks == s.webhooks && r.errors == s.errors && n !in r.calls
            && r.inMemory == (if a4.closes then s.inMemory - {w} else s.inMemory)
            && (forall u :: u in r.queue <==> u in s.queue && u != w)
  {
    hide IsRun, After;
    var s3 := Advance(s, n, a3);
    var r := Advance(s3, n, a4);
    assert s3.calls[n] == Call(w, Removal, Cleared, false);
    OneStep(s3, Step(n, a4));
    RunCons(s, Step(n, a3), [Step(n, a4)]);
    assert [Step(n, a3)] + [Step(n, a4)] == [Step(n, a3), Step(n, a4)];
  }

  /** A failing deregistering ends a `remove` half-way: the webhooks are gone, if they can be cleared, but the
      workflow stays in memory, in error and in the queue, with its timer. */
  lemma RemovalStopsHalfway(s: State, w: string, a1: Answers, a2: Answers)
    requires a1.Valid() && a2.Valid() && a2.deregistering.Some?
    ensures var n := s.nextCall;
            var events := [RemoveOne(w), Step(n, a1), Step(n, a2)];
            && IsRun(s, events)
            && var r := After(s, events);
               && RowsTaken(s.webhooks, w, a1.clears, r.webhooks) && r.inMemory == s.inMemory
               && r.queue == s.queue && r.timers == s.timers && r.errors == s.errors && n !in r.calls
  {
    var r := TwoSteps(s, w, a1, a2);
    ClearingTakesRows(s.webhooks, w, a1.clears);
    hide W.Cleared, RowsTaken, IsRun, After;
  }

  // ---------------------------------------------------------------- what is gone stays gone

  /** An `add` of the workflow begins its work. */
  predicate Prepares(s: State, e: Event, w: string)
    requires e.Step? ==> e.n in s.calls
  {
    e.Step? && s.calls[e.n].workflowId == w && !s.calls[e.n].kind.Removal? && s.calls[e.n].stage == Preparing
  }

  ghost predicate NeverPrepares(s: State, events: seq<Event>, w: string)
    requires IsRun(s, events)
    decreases |events|
  {
    events == [] || (!Prepares(s, events[0], w) && NeverPrepares(Next(s, events[0]), events[1..], w))
  }

  lemma NextStaysGone(s: State, e: Event, w: string)
    requires Enabled(s, e) && !Prepares(s, e, w)
    ensures NoRowOf(s.webhooks, w) ==> NoRowOf(Next(s, e).webhooks, w)
    ensures w !in s.inMemory ==> w !in Next(s, e).inMemory
  {
    hide Next, R.Leaves, WebhooksReady;
    MemoryIff(s, e, w);
    NextWebhooks(s, e);
    var after := Next(s, e).webhooks;
    if e.Step? && s.calls[e.n].stage == Preparing && !s.calls[e.n].kind.Removal? && after != s.webhooks {
      var c, a := s.calls[e.n], e.a;
      var n :| R.EndsAt(a.steps, c.kind.mode == Init, n)
               && R.Leaves(s.webhooks, c.workflowId, a.hooks, a.steps, a.clears, n, after);
      forall key | key in after
        ensures after[key].workflowId == c.workflowId || (key in s.webhooks && after[key] == s.webhooks[key])
      {
        R.LeavesOthers(s.webhooks, c.workflowId, a.hooks, a.steps, a.clears, n, after, key);
      }
    }
  }

  /** A workflow without webhooks, or out of memory, stays so over every run in which no `add` of it begins its
      work, whatever other workflows do. */
  lemma {:induction false} GoneStaysGone(s: State, events: seq<Event>, w: string)
    requires IsRun(s, events) && NeverPrepares(s, events, w)
    ensures NoRowOf(s.webhooks, w) ==> NoRowOf(After(s, events).webhooks, w)
    ensures w !in s.inMemory ==> w !in After(s, events).inMemory
    decreases |events|
  {
    hide Next, NoRowOf, Prepares, Enabled;
    if events != [] {
      NextStaysGone(s, events[0], w);
      GoneStaysGone(Next(s, events[0]), events[1..], w);
    }
  }

  // ---------------------------------------------------------------- add

  /** Nothing that an `add` awaits fails. */
  ghost predicate AllWorks(c: Call, a: Answers)
    requires !c.kind.Removal?
  {
    && a.refusal == None && WebhooksReady(c, a) && !(a.hasTriggers && a.triggerFailure.Some?)
    && a.deregistering == None && a.counting == None && a.saving == None
  }

  /** An `add` that nothing fails, from any state, five steps on: its webhooks are stored, its triggers run, it is
      neither queued nor in error, and its caller is told so. */
  lemma AddActivates(s: State, w: string, mode: Mode, a: Answers)
    requires a.Valid() && AllWorks(Call(w, Direct(mode), Preparing, false), a)
    ensures var n := s.nextCall;
            var events := [AddOne(w, mode), Step(n, a), Step(n, a), Step(n, a), Step(n, a), Step(n, a)];
            && IsRun(s, events)
            && var r := After(s, events);
               && n in r.calls && r.calls[n].stage == Ended(Added(mode == Init || mode == LeadershipChange))
               && (if mode == LeadershipChange then r.webhooks == s.webhooks
                   else R.StoresFirst(s.webhooks, w, a.hooks, a.steps, |a.steps|, r.webhooks))
               && (forall u :: u in r.inMemory <==> u in s.inMemory || (u == w && a.hasTriggers))
               && (forall u :: u in r.queue <==> u in s.queue && u != w)
               && (forall u :: u in r.errors <==> u in s.errors && u != w)
  {
    hide Prepare, IsRun, After, WebhooksReady, R.StoresFirst;
    var n, s1 := s.nextCall, Began(s, w, Direct(mode));
    var c := s1.calls[n];
    assert c == Call(w, Direct(mode), Preparing, false);
    PrepareWorks(s1, c, a);
    var s2 := Advance(s1, n, a);
    PrepareEffects(s1, w, mode, a);
    assert s2 == Prepare(s1, w, mode, a).0.(calls := s1.calls[n := c.(stage := Prepared)]);
    LaterSteps(s2, n, w, mode, a);
    hide Advance;
    var later := [Step(n, a), Step(n, a), Step(n, a), Step(n, a)];
    RunCons(s1, Step(n, a), later);
    RunCons(s, AddOne(w, mode), [Step(n, a)] + later);
    assert [AddOne(w, mode)] + ([Step(n, a)] + later)
        == [AddOne(w, mode), Step(n, a), Step(n, a), Step(n, a), Step(n, a), Step(n, a)];
  }

  lemma PrepareWorks(s: State, c: Call, a: Answers)
    requires !c.kind.Removal? && a.Valid() && c.stage == Preparing && AllWorks(c, a)
    ensures var (r, failure) := Prepare(s, c.workflowId, c.kind.mode, a);
            && failure == None
            && (if c.kind.mode == LeadershipChange then r.webhooks == s.webhooks
                else R.StoresFirst(s.webhooks, c.workflowId, a.hooks, a.steps, |a.steps|, r.webhooks))
            && (forall u :: u in r.inMemory <==> u in s.inMemory || (u == c.workflowId && a.hasTriggers))
  {
    hide W.Registration, R.StoresFirst, R.Returns, R.Leaves, R.Throws;
    var init := c.kind.mode == Init;
    R.ResultIff(s.webhooks, c.workflowId, a.hooks, a.steps, init, a.clears, a.tail);
    AddWebhooksAfter(s, c, a);
    if c.kind.mode != LeadershipChange {
      var after := Prepare(s, c.workflowId, c.kind.mode, a).0.webhooks;
      var n :| R.EndsAt(a.steps, init, n) && R.Leaves(s.webhooks, c.workflowId, a.hooks, a.steps, a.clears, n, after);
      ReturnsToTheEnd(a, init, n);
      StoresAll(s, c, a, after);
    }
  }

  lemma ReturnsToTheEnd(a: Answers, init: bool, n: int)
    requires a.Valid() && R.Returns(a.hooks, a.steps, init, a.tail) && R.EndsAt(a.steps, init, n)
    ensures n == |a.steps|
  {
  }

  lemma StoresAll(s: State, c: Call, a: Answers, after: W.Table)
    requires a.Valid() && R.Leaves(s.webhooks, c.workflowId, a.hooks, a.steps, a.clears, |a.steps|, after)
    ensures R.StoresFirst(s.webhooks, c.workflowId, a.hooks, a.steps, |a.steps|, after)
  {
  }

  lemma LaterSteps(s: State, n: nat, w: string, mode: Mode, a: Answers)
    requires a.Valid() && n in s.calls && s.calls[n] == Call(w, Direct(mode), Prepared, false)
    requires a.deregistering == None && a.counting == None && a.saving == None
    ensures var events := [Step(n, a), Step(n, a), Step(n, a), Step(n, a)];
            && IsRun(s, events)
            && var r := After(s, events);
               && n in r.calls && r.calls[n].stage == Ended(Added(mode == Init || mode == LeadershipChange))
               && r.webhooks == s.webhooks && r.inMemory == s.inMemory
               && (forall u :: u in r.queue <==> u in s.queue && u != w)
               && (forall u :: u in r.errors <==> u in s.errors && u != w)
  {
    hide IsRun, After;
    var e := Step(n, a);
    var s3 := Advance(s, n, a);
    assert s3.calls[n] == Call(w, Direct(mode), Cleared, true);
    var s4 := Advance(s3, n, a);
    assert s4.calls[n] == Call(w, Direct(mode), Deregistered, true);
    var s5 := Advance(s4, n, a);
    assert s5 == s4.(calls := s4.calls[n := Call(w, Direct(mode), Counted, true)]);
    var s6 := Advance(s5, n, a);
    assert s6.calls[n].stage == Ended(Added(Displays(mode)));
    OneStep(s5, e);
    RunCons(s4, e, [e]);
    RunCons(s3, e, [e] + [e]);
    RunCons(s, e, [e] + ([e] + [e]));
    assert [e] + ([e] + ([e] + [e])) == [e, e, e, e];
  }
}
