/** What every event does to the calls that are throttled, to the active executions and to their promises, said of
    the event and of the state before it. */
module ExecutionsEffects {
  import opened Wrappers
  import opened Executions
  import opened ExecutionsTheorems

  /** The modes that the limit is for. */
  predicate Production(mode: Mode) {
    match mode
    case Webhook => true
    case Trigger => true
    case _ => false
  }

  /** The service limits executions of this mode. */
  predicate Limits(s: State, mode: Mode) { s.enabled && s.limit != -1 && Production(mode) }

  lemma CountsIff(s: State, mode: Mode)
    ensures Counts(s, mode) <==> Limits(s, mode)
  {
  }

  /** The service itself, but for what is listed, is as it was. */
  ghost predicate SameService(s: State, s': State) {
    s'.enabled == s.enabled && s'.limit == s.limit
  }

  // ---------------------------------------------------------------- beginning and inserting

  /** A call of `add` takes capacity exactly when its mode is limited, and waits exactly when then none is left; the
      next step of the others is unaffected. */
  lemma BeginThrottles(s: State, call: Call)
    requires Linked(s)
    ensures var s', t := Next(s, Begin(call)), s.nextTicket;
            var waits := Limits(s, call.mode) && s.capacity <= 0;
            && SameService(s, s') && s'.active == s.active && s'.promises == s.promises
            && s'.tickets == s.tickets[t := Ticket(call, if waits then Waiting else Granted)]
            && s'.waiting == (if waits then s.waiting + [t] else s.waiting)
            && s'.capacity == (if Limits(s, call.mode) then s.capacity - 1 else s.capacity)
  {
    CountsIff(s, call.mode);
  }

  /** Past the throttle the execution becomes active, with no promises and no run attached, in the place of an
      entry that has its id; only a resumed execution whose update fails does not. */
  lemma EndInserts(s: State, t: nat, ok: bool)
    requires Linked(s) && Enabled(s, End(t, ok))
    ensures var s', call := Next(s, End(t, ok)), s.tickets[t].call;
            && SameService(s, s') && s'.promises == s.promises && s'.waiting == s.waiting && s'.capacity == s.capacity
            && (if call.resumed && !ok then
                  s'.active == s.active && s'.tickets == s.tickets[t := Ticket(call, Failed)]
                else
                  && s'.active == s.active[call.id := Execution(t, call.mode, [], false)]
                  && s'.tickets == s.tickets[t := Ticket(call, Active)])
  {
  }

  // ---------------------------------------------------------------- promises and runs

  /** An active execution gets one more pending promise at the end of its list; another id gets none. */
  lemma PromiseAppended(s: State, id: string)
    requires Linked(s)
    ensures var s', p := Next(s, NewPromise(id)), s.nextPromise;
            if id in s.active then
              && s'.promises == s.promises[p := Pending(id)] && s'.nextPromise == p + 1
              && s'.active.Keys == s.active.Keys && s'.active[id].promises == s.active[id].promises + [p]
              && s'.active[id].ticket == s.active[id].ticket && s'.active[id].attached == s.active[id].attached
              && (forall i :: i in s.active && i != id ==> s'.active[i] == s.active[i])
              && s'.tickets == s.tickets && s'.waiting == s.waiting && s'.capacity == s.capacity
            else s' == s
  {
  }

  /** A run is attached to an active execution, and nothing else changes. */
  lemma RunAttached(s: State, id: string)
    requires Linked(s)
    ensures var s' := Next(s, AttachTo(id));
            if id in s.active then
              && s'.active.Keys == s.active.Keys && s'.active[id].attached
              && s'.active[id].promises == s.active[id].promises && s'.active[id].ticket == s.active[id].ticket
              && (forall i :: i in s.active && i != id ==> s'.active[i] == s.active[i])
              && s'.promises == s.promises && s'.tickets == s.tickets
              && s'.waiting == s.waiting && s'.capacity == s.capacity
            else s' == s
  {
  }

  // ---------------------------------------------------------------- ending

  /** Exactly these promises are settled, with this outcome. */
  ghost predicate Settles(s: State, s': State, ps: seq<nat>, outcome: Promise) {
    && (forall p :: p in s.promises ==>
          p in s'.promises && s'.promises[p] == if p in ps then outcome else s.promises[p])
    && (forall p :: p in s'.promises ==> p in s.promises)
  }

  /** The first waiting call passes, if there is one. */
  ghost predicate LetsOnePass(waiting: seq<nat>, s': State) {
    if waiting == [] then s'.waiting == []
    else s'.waiting == waiting[1..] && waiting[0] in s'.tickets && s'.tickets[waiting[0]].place == Granted
  }

  /** The execution leaves; in a limited mode its capacity comes back and one call passes, otherwise neither. */
  ghost predicate Leaves(s: State, s': State, id: string)
    requires Linked(s) && id in s.active
  {
    var e := s.active[id];
    && s'.active.Keys == s.active.Keys - {id} && (forall i :: i in s'.active ==> s'.active[i] == s.active[i])
    && e.ticket in s'.tickets && s'.tickets[e.ticket].place == Released
    && SameService(s, s')
    && (if Limits(s, e.mode) then s'.capacity == s.capacity + 1 && LetsOnePass(s.waiting, s')
        else s'.capacity == s.capacity && s'.waiting == s.waiting)
  }

  lemma FinishLeaves(s: State, id: string, outcome: Promise)
    requires Inv(s) && Linked(s) && id in s.active && !outcome.Pending?
    ensures Leaves(s, Finish(s, id, outcome), id)
    ensures Settles(s, Finish(s, id, outcome), s.active[id].promises, outcome)
  {
    hide QueueOk, EntriesOk, SlotsOk, CapacityOk, PromisesOk, Counts, Finish, Limits;
    var t, s1 := s.active[id].ticket, Detached(s, id, outcome);
    CountsIff(s, s.active[id].mode);
    EntryTicket(s, id);
    FinishIsDetached(s, id, outcome);
    DetachedPromises(s, id, outcome);
    hide Settles;
    assert s1.tickets[t].place == Released && t !in s1.waiting;
  }

  lemma EntryTicket(s: State, id: string)
    requires QueueOk(s.waiting, s.tickets, s.nextTicket) && EntriesOk(s.active, s.tickets, s.released) && id in s.active
    ensures var t := s.active[id].ticket;
            t in s.tickets && t !in s.waiting && s.tickets[t].call.mode == s.active[id].mode
  {
    var t := s.active[id].ticket;
    assert EntryOk(s.active, s.tickets, id);
    assert t in s.waiting ==> IsAt(s.tickets, t, Waiting);
  }

  lemma DetachedPromises(s: State, id: string, outcome: Promise)
    requires Inv(s) && Linked(s) && id in s.active && !outcome.Pending?
    ensures Settles(s, Detached(s, id, outcome), s.active[id].promises, outcome)
  {
    hide QueueOk, EntriesOk, SlotsOk, CapacityOk, Distinct;
    FinishKeepsPromises(s.promises, s.nextPromise, s.active, s.settled, id, outcome);
  }

  /** Removing an execution resolves all its promises with the data, and no others. */
  lemma RemoveResolves(s: State, id: string, data: string)
    requires Inv(s) && Linked(s)
    ensures var s' := Next(s, RemoveOne(id, data));
            if id in s.active then Settles(s, s', s.active[id].promises, Resolved(data)) && Leaves(s, s', id)
            else s' == s
  {
    if id in s.active {
      FinishLeaves(s, id, Resolved(data));
      hide Finish;
    }
  }

  /** Stopping an execution that a run is attached to rejects all its promises, and no others; without a run nothing
      happens. */
  lemma StopRejects(s: State, id: string)
    requires Inv(s) && Linked(s)
    ensures var s' := Next(s, StopOne(id));
            if id in s.active && s.active[id].attached then
              Settles(s, s', s.active[id].promises, Rejected(id)) && Leaves(s, s', id)
            else s' == s
  {
    if id in s.active && s.active[id].attached {
      FinishLeaves(s, id, Rejected(id));
      hide Finish;
    }
  }

  // ---------------------------------------------------------------- leaving the queue

  /** Call `i` is the first one of the execution that waits. */
  ghost predicate FirstOf(s: State, id: string, i: int)
    requires Linked(s)
  {
    && 0 <= i < |s.waiting| && s.tickets[s.waiting[i]].call.id == id
    && forall j :: 0 <= j < i ==> s.tickets[s.waiting[j]].call.id != id
  }

  lemma FirstWaitingIs(s: State, id: string, i: nat)
    requires Linked(s) && i <= |s.waiting| && forall j :: 0 <= j < i ==> s.tickets[s.waiting[j]].call.id != id
    ensures forall k :: FirstOf(s, id, k) ==> FirstWaiting(s, id, i) == Some(k)
    ensures (forall k :: 0 <= k < |s.waiting| ==> s.tickets[s.waiting[k]].call.id != id) ==>
              FirstWaiting(s, id, i) == None
    decreases |s.waiting| - i
  {
    hide Linked;
  }

  /** Taking an execution out of the queue of an enabled service: the first call of it that waits goes, and with it
      one unit of capacity comes back, so that the call then in front passes; otherwise nothing happens. */
  lemma CancelTakesOut(s: State, id: string, i: int)
    requires Inv(s) && Linked(s)
    ensures !s.enabled || (forall k :: 0 <= k < |s.waiting| ==> s.tickets[s.waiting[k]].call.id != id) ==>
              Next(s, CancelOne(id)) == s
    ensures s.enabled && FirstOf(s, id, i) ==>
              var s' := Next(s, CancelOne(id));
              && LetsOnePass(s.waiting[..i] + s.waiting[i + 1..], s')
              && s.waiting[i] in s'.tickets && s'.tickets[s.waiting[i]].place == Cancelled
              && s'.capacity == s.capacity + 1 && SameService(s, s')
              && s'.active == s.active && s'.promises == s.promises
  {
    hide EntriesOk, SlotsOk, CapacityOk, PromisesOk;
    FirstWaitingIs(s, id, 0);
    if s.enabled && FirstOf(s, id, i) {
      var rest := s.waiting[..i] + s.waiting[i + 1..];
      assert rest != [] ==> rest[0] == if i == 0 then s.waiting[1] else s.waiting[0];
      assert rest != [] ==> rest[0] != s.waiting[i];
    }
  }

  /** Disabling the service touches nothing else. */
  lemma DisableOnly(s: State)
    requires Linked(s)
    ensures Next(s, Disable) == s.(enabled := false)
  {
  }

  // ---------------------------------------------------------------- shutdown

  lemma {:induction false} StopAllStaysStuck(s: State, ids: seq<string>, more: seq<string>)
    requires Linked(s) && !StopAll(s, ids).1
    ensures StopAll(s, ids + more) == StopAll(s, ids)
  {
    if more == [] {
      assert ids + more == ids;
    } else {
      StopAllStaysStuck(s, ids, more[..|more| - 1]);
      assert (ids + more)[..|ids + more| - 1] == ids + more[..|more| - 1];
    }
  }

  /** Cancelling on shutdown ends at the first execution without a run: those before it are stopped, it and all
      others stay active, with their promises. */
  lemma ShutdownEndsWithoutRun(s: State, before: seq<string>, id: string, rest: seq<string>)
    requires Inv(s) && Linked(s) && !s.enabled && id in s.active && !s.active[id].attached && id !in before
    requires forall i :: i in before && i in s.active ==> s.active[i].attached
    ensures var r := StopAll(s, before + [id] + rest);
            && !r.1
            && (forall i :: i in r.0.active <==> i in s.active && i !in before)
            && (forall i :: i in r.0.active ==> r.0.active[i] == s.active[i])
            && (forall p :: p in s.promises ==>
                  p in r.0.promises
                  && r.0.promises[p] == match s.promises[p] {
                       case Pending(i) => if i in before then Rejected(i) else Pending(i)
                       case settled => settled })
  {
    hide Inv, Linked, StopAll;
    StopAllStops(s, before);
    StuckWithoutRun(s, before, id);
    StopAllStaysStuck(s, before + [id], rest);
  }

  lemma StuckWithoutRun(s: State, before: seq<string>, id: string)
    requires Linked(s) && StopAll(s, before).1 && StopThrows(StopAll(s, before).0, id)
    ensures StopAll(s, before + [id]) == (StopAll(s, before).0, false)
  {
    assert (before + [id])[..|before|] == before;
    hide Linked;
  }

  // ---------------------------------------------------------------- the limit

  /** The calls of production modes that have passed the throttle and whose executions have not ended. */
  ghost function Running(s: State): set<nat> {
    set t | t in s.tickets && Production(s.tickets[t].call.mode)
            && (s.tickets[t].place == Granted || s.tickets[t].place == Active)
  }

  /** From the beginning, over every run that takes nothing out of a queue of several, in which no id is added while
      active: as long as the service is enabled, no more production executions run than the limit allows. */
  lemma ProductionWithinLimit(limit: int, events: seq<Event>)
    requires limit > 0 && IsRun(Initial(limit), events)
    requires NeverReplaces(Initial(limit), events) && NeverOvertakes(Initial(limit), events)
    ensures var s := After(Initial(limit), events); s.enabled ==> |Running(s)| <= limit
  {
    InitialInv(limit);
    RunKeepsLimit(Initial(limit), events);
    RunKeepsInv(Initial(limit), events);
    var s := After(Initial(limit), events);
    hide NeverReplaces, NeverOvertakes, IsRun, After;
    if s.enabled {
      RunningHasSlots(s);
      FewerThan(Running(s), s.slots);
    }
  }

  lemma RunningHasSlots(s: State)
    requires SlotsOk(s.enabled, s.limit, s.slots, s.tickets) && s.enabled && s.limit != -1
    ensures Running(s) <= s.slots
  {
    forall t | t in Running(s) ensures t in s.slots {
      assert SlotOk(s.enabled, s.limit, t in s.slots, s.tickets[t]);
    }
  }

  lemma {:induction false} FewerThan(a: set<nat>, b: set<nat>)
    requires a <= b
    ensures |a| <= |b|
  {
    if x :| x in a {
      FewerThan(a - {x}, b - {x});
    }
  }
}
