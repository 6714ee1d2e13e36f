/** The registry of running executions and the service that limits them; the methods are proved to
    take the state where `Executions` says. */
module ActiveExecutions {
  import opened Wrappers
  import opened Executions

  class ActiveExecutions {
    var isEnabled: bool
    const productionLimit: int
    var capacity: int
    var queue: seq<nat>
    var tickets: map<nat, Ticket>
    var nextTicket: nat
    var activeExecutions: map<string, Execution>
    var promises: map<nat, Promise>
    var nextPromise: nat
    ghost var slots: set<nat>
    ghost var released: seq<nat>
    ghost var settled: seq<nat>

    /** A limit below -1 counts as none. */
    constructor (limit: int)
      requires limit != 0
      ensures Model() == Initial(if limit < -1 then -1 else limit)
    {
      productionLimit := if limit < -1 then -1 else limit;
      isEnabled := limit > 0;
      capacity := if limit < -1 then -1 else limit;
      queue, tickets, nextTicket, slots := [], map[], 0, {};
      activeExecutions, released := map[], [];
      promises, nextPromise, settled := map[], 0, [];
    }

    ghost function Model(): State
      reads this
    {
      State(isEnabled, productionLimit, capacity, queue, slots, tickets, nextTicket, activeExecutions, released,
            promises, nextPromise, settled)
    }

    // -------------------------------------------------------------- the concurrency queue

    method ResolveNextItem()
      requires Linked(Model())
      modifies this`queue, this`slots, this`tickets
      ensures Model() == ResolveNext(old(Model()))
    {
      if |queue| == 0 {
        return;
      }
      var item := queue[0];
      assert item in queue;
      queue := queue[1..];
      slots := slots + {item};
      tickets := tickets[item := tickets[item].(place := Granted)];
    }

    method Release(t: nat)
      requires Linked(Model()) && t in tickets
      modifies this`queue, this`slots, this`tickets, this`capacity
      ensures Model() ==
              if Counts(old(Model()), old(tickets)[t].call.mode)
              then ResolveNext(old(Model()).(capacity := old(capacity) + 1, slots := old(slots) - {t}))
              else old(Model())
    {
      if !isEnabled || IsUnlimited(tickets[t].call.mode, productionLimit) {
        return;
      }
      capacity := capacity + 1;
      slots := slots - {t};
      ResolveNextItem();
    }

    /** Taking an execution out of the queue: the first item of that id, if there is one. */
    method RemoveFromQueue(id: string)
      requires Linked(Model())
      modifies this`queue, this`slots, this`tickets, this`capacity
      ensures Model() == Cancel(old(Model()), id)
    {
      if !isEnabled {
        return;
      }
      var index := 0;
      while index < |queue| && tickets[queue[index]].call.id != id
        invariant index <= |queue|
        invariant FirstWaiting(Model(), id, 0) == FirstWaiting(Model(), id, index)
      {
        assert queue[index + 1..] == queue[index..][1..];
        index := index + 1;
      }
      if index < |queue| {
        var t := queue[index];
        tickets := tickets[t := tickets[t].(place := Cancelled)];
        queue := queue[..index] + queue[index + 1..];
        capacity := capacity + 1;
        ResolveNextItem();
      }
    }

    // -------------------------------------------------------------- add

    /** `add` until it has passed the throttle, or waits there. */
    method BeginAdd(call: Call) returns (t: nat)
      modifies this
      ensures t == old(nextTicket) && Model() == AddBegin(old(Model()), call)
    {
      t := nextTicket;
      nextTicket := nextTicket + 1;
      tickets := tickets[t := Ticket(call, Granted)];
      if !isEnabled || IsUnlimited(call.mode, productionLimit) {
        return;
      }
      capacity := capacity - 1;
      if capacity < 0 {
        queue := queue + [t];
        tickets := tickets[t := tickets[t].(place := Waiting)];
      } else {
        slots := slots + {t};
      }
    }

    /** The rest of `add`, once past the throttle. */
    method FinishAdd(t: nat, updateWorks: bool) returns (threw: bool)
      requires t in tickets && tickets[t].place == Granted
      modifies this
      ensures Model() == AddEnd(old(Model()), t, updateWorks)
      ensures threw <==> old(tickets)[t].call.resumed && !updateWorks
    {
      var call := tickets[t].call;
      if call.resumed && !updateWorks {
        tickets := tickets[t := tickets[t].(place := Failed)];
        return true;
      }
      activeExecutions := activeExecutions[call.id := Execution(t, call.mode, [], false)];
      tickets := tickets[t := tickets[t].(place := Active)];
      return false;
    }

    // -------------------------------------------------------------- promises

    method GetPostExecutePromise(id: string) returns (p: Option<nat>)
      modifies this
      ensures Model() == GetPromise(old(Model()), id)
      ensures p == if id in old(activeExecutions) then Some(old(nextPromise)) else None
    {
      if id !in activeExecutions {
        return None;
      }
      p := Some(nextPromise);
      promises := promises[nextPromise := Pending(id)];
      var execution := activeExecutions[id];
      activeExecutions := activeExecutions[id := execution.(promises := execution.promises + [nextPromise])];
      nextPromise := nextPromise + 1;
    }

    method AttachWorkflowExecution(id: string) returns (threw: bool)
      modifies this
      ensures Model() == Attach(old(Model()), id) && (threw <==> id !in old(activeExecutions))
    {
      if id !in activeExecutions {
        return true;
      }
      activeExecutions := activeExecutions[id := activeExecutions[id].(attached := true)];
      return false;
    }

    /** The loop over the promises of an execution. */
    method SettleAll(ps: seq<nat>, outcome: Promise)
      requires !outcome.Pending? && forall p :: p in ps ==> p in promises
      modifies this`promises, this`settled
      ensures promises == Settled(old(promises), ps, outcome) && settled == old(settled) + ps
    {
      for i := 0 to |ps|
        invariant promises == Settled(old(promises), ps[..i], outcome)
        invariant settled == old(settled) + ps[..i]
      {
        var p := ps[i];
        assert ps[..i + 1] == ps[..i] + [p] && p in ps;
        SettledStep(old(promises), ps[..i], p, outcome);
        if promises[p].Pending? {
          promises := promises[p := outcome];
        }
        settled := settled + [p];
      }
      assert ps[..|ps|] == ps;
    }

    // -------------------------------------------------------------- ending

    method PostExecuteCleanup(id: string)
      requires Linked(Model())
      modifies this
      ensures Model() == if id in old(activeExecutions) then Cleanup(old(Model()), id) else old(Model())
    {
      if id !in activeExecutions {
        return;
      }
      var t := activeExecutions[id].ticket;
      activeExecutions := Without(activeExecutions, id);
      tickets := tickets[t := tickets[t].(place := Released)];
      released := released + [t];
      Release(t);
    }

    method Remove(id: string, fullRunData: string)
      requires Linked(Model())
      modifies this
      ensures Model() == Executions.Remove(old(Model()), id, fullRunData)
    {
      hide Cleanup, Settled;
      if id !in activeExecutions {
        return;
      }
      SettleAll(activeExecutions[id].promises, Resolved(fullRunData));
      PostExecuteCleanup(id);
    }

    method StopExecution(id: string) returns (threw: bool)
      requires Linked(Model())
      modifies this
      ensures Model() == Stop(old(Model()), id) && (threw <==> StopThrows(old(Model()), id))
    {
      hide Cleanup, Settled;
      if id !in activeExecutions {
        return false;
      }
      if !activeExecutions[id].attached {
        return true;
      }
      SettleAll(activeExecutions[id].promises, Rejected(id));
      PostExecuteCleanup(id);
      return false;
    }

    /** `shutdown` with cancelling, up to the point where it waits for the registry to be empty. */
    method ShutdownCancellingAll(executionIds: seq<string>) returns (threw: bool)
      requires Linked(Model())
      modifies this
      ensures (Model(), !threw) == StopAll(old(Model()).(enabled := false), executionIds)
    {
      hide Finish, StopThrows;
      ghost var start := Model().(enabled := false);
      isEnabled := false;
      // Emptying the queue at this point does nothing, because the service has just been disabled.
      for i := 0 to |executionIds|
        invariant Linked(Model()) && Linked(start)
        invariant (Model(), true) == StopAll(start, executionIds[..i])
      {
        assert executionIds[..i + 1][..i] == executionIds[..i];
        threw := StopExecution(executionIds[i]);
        if threw {
          StopAllStuck(start, executionIds, i + 1, |executionIds|);
          assert executionIds[..|executionIds|] == executionIds;
          return;
        }
      }
      assert executionIds[..|executionIds|] == executionIds;
      return false;
    }
  }

  /** Once a stop has thrown, nothing more happens. */
  lemma {:induction false} StopAllStuck(s: State, ids: seq<string>, m: nat, n: nat)
    requires Linked(s) && m <= n <= |ids| && !StopAll(s, ids[..m]).1
    ensures StopAll(s, ids[..n]) == StopAll(s, ids[..m])
  {
    hide Stop, StopThrows;
    if m < n {
      StopAllStuck(s, ids, m, n - 1);
      assert ids[..n][..n - 1] == ids[..n - 1];
    }
  }

  lemma SettledStep(promises: map<nat, Promise>, ps: seq<nat>, p: nat, outcome: Promise)
    requires !outcome.Pending? && p in promises && forall q :: q in ps ==> q in promises
    ensures p in Settled(promises, ps, outcome)
    ensures var before := Settled(promises, ps, outcome);
            Settled(promises, ps + [p], outcome) == if before[p].Pending? then before[p := outcome] else before
  {
    var before, after := Settled(promises, ps, outcome), Settled(promises, ps + [p], outcome);
    assert after.Keys == before.Keys == promises.Keys;
    forall q | q in promises ensures after[q] == if q == p && before[p].Pending? then outcome else before[q] {
    }
  }
}
