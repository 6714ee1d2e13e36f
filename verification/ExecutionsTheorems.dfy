/** What the running executions and their queue keep, over every run. */
module ExecutionsTheorems {
  import opened Wrappers
  import opened Executions

  type Tickets = map<nat, Ticket>
  type Entries = map<string, Execution>

  ghost predicate Distinct(s: seq<nat>) {
    forall i, j :: 0 <= i < j < |s| ==> s[i] != s[j]
  }

  predicate Holds(place: Place) { place == Granted || place == Active || place == Failed }

  predicate IsAt(tickets: Tickets, t: nat, place: Place) { t in tickets && tickets[t].place == place }

  // ---------------------------------------------------------------- the invariant, in four parts

  /** The queue holds exactly the waiting tickets, once each. */
  ghost predicate QueueOk(waiting: seq<nat>, tickets: Tickets, nextTicket: nat) {
    && Distinct(waiting)
    && (forall t :: t in waiting <==> IsAt(tickets, t, Waiting))
    && (forall t :: t in tickets ==> t < nextTicket)
  }

  /** The entry of `id` and its ticket belong together. */
  ghost predicate EntryOk(active: Entries, tickets: Tickets, id: string)
    requires id in active
  {
    IsAt(tickets, active[id].ticket, Active)
    && tickets[active[id].ticket].call.id == id && tickets[active[id].ticket].call.mode == active[id].mode
  }

  ghost predicate TicketOk(active: Entries, tickets: Tickets, t: nat)
    requires t in tickets
  {
    tickets[t].call.id in active && active[tickets[t].call.id].ticket == t
  }

  /** Entries and active tickets correspond one to one, and each released ticket was released once. */
  ghost predicate EntriesOk(active: Entries, tickets: Tickets, released: seq<nat>) {
    && (forall id :: id in active ==> EntryOk(active, tickets, id))
    && (forall t :: IsAt(tickets, t, Active) ==> TicketOk(active, tickets, t))
    && Distinct(released)
    && (forall t :: t in released <==> IsAt(tickets, t, Released))
  }

  predicate Counted(ticket: Ticket, limit: int) {
    Holds(ticket.place) && !IsUnlimited(ticket.call.mode, limit)
  }

  /** A ticket has a slot only in a counted mode; while the service is enabled, exactly between
      throttling and release; a waiting ticket is of a counted mode and has none. */
  predicate SlotOk(enabled: bool, limit: int, hasSlot: bool, ticket: Ticket) {
    && (hasSlot ==> !IsUnlimited(ticket.call.mode, limit))
    && (enabled ==> (hasSlot <==> Counted(ticket, limit)))
    && (ticket.place == Waiting ==> !IsUnlimited(ticket.call.mode, limit) && !hasSlot)
  }

  ghost predicate SlotsOk(enabled: bool, limit: int, slots: set<nat>, tickets: Tickets) {
    slots <= tickets.Keys && forall t :: t in tickets ==> SlotOk(enabled, limit, t in slots, tickets[t])
  }

  /** Capacity is the limit less the slots taken and the tickets waiting; nobody waits for a free slot. */
  ghost predicate CapacityOk(s: State) {
    s.capacity == s.limit - |s.slots| - |s.waiting| && (s.waiting != [] ==> |s.slots| >= s.limit)
  }

  /** Pending promises are those in the entries, each in one place; settled ones were settled once. */
  ghost predicate PromisesOk(promises: map<nat, Promise>, next: nat, active: Entries, settled: seq<nat>) {
    && (forall p :: p in promises ==> p < next)
    && (forall id :: id in active ==> Distinct(active[id].promises))
    && (forall id, p :: id in active && p in active[id].promises ==> p in promises && promises[p] == Pending(id))
    && (forall p :: p in promises && promises[p].Pending? ==>
          promises[p].id in active && p in active[promises[p].id].promises)
    && Distinct(settled)
    && (forall p :: p in settled <==> p in promises && !promises[p].Pending?)
  }

  ghost predicate Inv(s: State) {
    && QueueOk(s.waiting, s.tickets, s.nextTicket)
    && EntriesOk(s.active, s.tickets, s.released)
    && SlotsOk(s.enabled, s.limit, s.slots, s.tickets)
    && CapacityOk(s)
    && PromisesOk(s.promises, s.nextPromise, s.active, s.settled)
  }

  lemma InvLinked(s: State)
    requires Inv(s)
    ensures Linked(s)
  {
    hide SlotsOk, Distinct;
    forall t | t in s.waiting ensures t in s.tickets { assert IsAt(s.tickets, t, Waiting); }
    forall id | id in s.active ensures s.active[id].ticket in s.tickets { assert EntryOk(s.active, s.tickets, id); }
  }

  // ---------------------------------------------------------------- moving a ticket

  /** A ticket that is neither active nor released moves to another such place. */
  lemma MoveKeepsEntries(active: Entries, tickets: Tickets, tickets': Tickets, released: seq<nat>, t: nat)
    requires EntriesOk(active, tickets, released)
    requires t in tickets' && tickets' == tickets[t := tickets'[t]]
    requires !IsAt(tickets, t, Active) && !IsAt(tickets, t, Released) && !IsAt(tickets', t, Active)
             && !IsAt(tickets', t, Released)
    ensures EntriesOk(active, tickets', released)
  {
    hide Distinct;
    forall id | id in active ensures EntryOk(active, tickets', id) { assert EntryOk(active, tickets, id); }
    forall u | IsAt(tickets', u, Active) ensures TicketOk(active, tickets', u) {
      assert IsAt(tickets, u, Active) && TicketOk(active, tickets, u);
    }
    forall u ensures u in released <==> IsAt(tickets', u, Released) {
      assert u in released <==> IsAt(tickets, u, Released);
    }
  }

  /** Entries that change neither ticket nor mode. */
  lemma EntriesKept(active: Entries, active': Entries, tickets: Tickets, released: seq<nat>)
    requires EntriesOk(active, tickets, released) && active.Keys == active'.Keys
    requires forall id :: id in active ==>
             active[id].ticket == active'[id].ticket && active[id].mode == active'[id].mode
    ensures EntriesOk(active', tickets, released)
  {
    hide Distinct;
    forall id | id in active' ensures EntryOk(active', tickets, id) { assert EntryOk(active, tickets, id); }
    forall u | IsAt(tickets, u, Active) ensures TicketOk(active', tickets, u) { assert TicketOk(active, tickets, u); }
  }

  /** A ticket that neither waits nor comes to wait. */
  lemma MoveKeepsQueue(waiting: seq<nat>, tickets: Tickets, tickets': Tickets, next: nat, next': nat, t: nat)
    requires QueueOk(waiting, tickets, next) && next <= next' && t < next'
    requires t in tickets' && tickets' == tickets[t := tickets'[t]]
    requires !IsAt(tickets, t, Waiting) && !IsAt(tickets', t, Waiting)
    ensures QueueOk(waiting, tickets', next')
  {
    hide Distinct;
    forall u ensures u in waiting <==> IsAt(tickets', u, Waiting) {
      assert u in waiting <==> IsAt(tickets, u, Waiting);
    }
  }

  lemma JoinsQueue(waiting: seq<nat>, tickets: Tickets, tickets': Tickets, next: nat, t: nat)
    requires QueueOk(waiting, tickets, next) && t == next
    requires IsAt(tickets', t, Waiting) && tickets' == tickets[t := tickets'[t]]
    ensures QueueOk(waiting + [t], tickets', next + 1)
  {
    assert t in waiting <==> IsAt(tickets, t, Waiting);
    forall u ensures u in waiting + [t] <==> IsAt(tickets', u, Waiting) {
      assert u in waiting <==> IsAt(tickets, u, Waiting);
    }
  }

  lemma LeavesQueue(waiting: seq<nat>, tickets: Tickets, tickets': Tickets, next: nat, i: nat)
    requires QueueOk(waiting, tickets, next) && i < |waiting|
    requires waiting[i] in tickets' && !IsAt(tickets', waiting[i], Waiting)
             && tickets' == tickets[waiting[i] := tickets'[waiting[i]]]
    ensures QueueOk(waiting[..i] + waiting[i + 1..], tickets', next)
  {
    var t, rest := waiting[i], waiting[..i] + waiting[i + 1..];
    assert waiting == waiting[..i] + [t] + waiting[i + 1..];
    assert t in waiting;
    forall j | 0 <= j < |rest| ensures rest[j] == waiting[if j < i then j else j + 1] && rest[j] != t {
    }
    forall u ensures u in rest <==> IsAt(tickets', u, Waiting) {
      assert u in waiting <==> IsAt(tickets, u, Waiting);
      assert u in waiting <==> u in rest || u == t;
    }
  }

  // ---------------------------------------------------------------- add

  lemma BeginKeepsInv(s: State, call: Call)
    requires Inv(s)
    ensures Inv(AddBegin(s, call))
  {
    var t, s' := s.nextTicket, AddBegin(s, call);
    BeginShape(s, call);
    BeginSlots(s, call);
    hide AddBegin, SlotsOk, PromisesOk;
    MoveKeepsEntries(s.active, s.tickets, s'.tickets, s.released, t);
    hide EntriesOk;
    if s'.waiting == s.waiting {
      MoveKeepsQueue(s.waiting, s.tickets, s'.tickets, t, t + 1, t);
    } else {
      JoinsQueue(s.waiting, s.tickets, s'.tickets, t, t);
    }
    hide QueueOk, CapacityOk;
  }

  lemma BeginShape(s: State, call: Call)
    requires QueueOk(s.waiting, s.tickets, s.nextTicket)
    ensures var t, s' := s.nextTicket, AddBegin(s, call);
            && t !in s.tickets && t in s'.tickets && s'.tickets == s.tickets[t := s'.tickets[t]]
            && (s'.tickets[t].place == Granted || s'.tickets[t].place == Waiting)
            && s'.waiting == (if s'.tickets[t].place == Waiting then s.waiting + [t] else s.waiting)
            && s' == s.(capacity := s'.capacity, waiting := s'.waiting, slots := s'.slots, tickets := s'.tickets,
                        nextTicket := t + 1)
  {
  }

  /** A new ticket, with a slot if it holds one of those that are counted. */
  lemma NewTicketSlots(enabled: bool, limit: int, slots: set<nat>, slots': set<nat>, tickets: Tickets, t: nat,
                       ticket: Ticket)
    requires SlotsOk(enabled, limit, slots, tickets) && t !in tickets
    requires slots' == if Counted(ticket, limit) && enabled then slots + {t} else slots
    requires ticket.place == Waiting ==> !IsUnlimited(ticket.call.mode, limit)
    ensures SlotsOk(enabled, limit, slots', tickets[t := ticket])
    ensures |slots'| == |slots| + if Counted(ticket, limit) && enabled then 1 else 0
  {
    assert t !in slots;
    forall u | u in tickets[t := ticket] ensures SlotOk(enabled, limit, u in slots', tickets[t := ticket][u]) {
      if u != t { assert SlotOk(enabled, limit, u in slots, tickets[u]); }
    }
  }

  lemma BeginSlots(s: State, call: Call)
    requires SlotsOk(s.enabled, s.limit, s.slots, s.tickets) && CapacityOk(s) && s.nextTicket !in s.tickets
    ensures SlotsOk(s.enabled, s.limit, AddBegin(s, call).slots, AddBegin(s, call).tickets)
            && CapacityOk(AddBegin(s, call))
  {
    hide SlotsOk;
    if Counts(s, call.mode) {
      if s.capacity <= 0 {
        WaitingSlots(s, call);
      } else {
        GrantedSlots(s, call);
      }
    } else {
      UncountedSlots(s, call);
    }
  }

  lemma UncountedSlots(s: State, call: Call)
    requires SlotsOk(s.enabled, s.limit, s.slots, s.tickets) && CapacityOk(s) && s.nextTicket !in s.tickets
    requires !Counts(s, call.mode)
    ensures var s' := AddBegin(s, call);
            SlotsOk(s.enabled, s.limit, s'.slots, s'.tickets) && CapacityOk(s')
  {
    NewTicketSlots(s.enabled, s.limit, s.slots, s.slots, s.tickets, s.nextTicket, Ticket(call, Granted));
    hide SlotsOk;
  }

  lemma WaitingSlots(s: State, call: Call)
    requires SlotsOk(s.enabled, s.limit, s.slots, s.tickets) && CapacityOk(s) && s.nextTicket !in s.tickets
    requires Counts(s, call.mode) && s.capacity <= 0
    ensures var s' := AddBegin(s, call);
            SlotsOk(s.enabled, s.limit, s'.slots, s'.tickets) && CapacityOk(s')
  {
    hide SlotsOk;
    var t, s' := s.nextTicket, AddBegin(s, call);
    NewTicketSlots(s.enabled, s.limit, s.slots, s.slots, s.tickets, t, Ticket(call, Waiting));
    assert s'.tickets == s.tickets[t := Ticket(call, Waiting)];
  }

  lemma GrantedSlots(s: State, call: Call)
    requires SlotsOk(s.enabled, s.limit, s.slots, s.tickets) && CapacityOk(s) && s.nextTicket !in s.tickets
    requires Counts(s, call.mode) && s.capacity > 0
    ensures var s' := AddBegin(s, call);
            SlotsOk(s.enabled, s.limit, s'.slots, s'.tickets) && CapacityOk(s')
  {
    var t, s' := s.nextTicket, AddBegin(s, call);
    assert t !in s.slots;
    NewTicketSlots(s.enabled, s.limit, s.slots, s.slots + {t}, s.tickets, t, Ticket(call, Granted));
    hide SlotsOk;
    assert |s.slots + {t}| == |s.slots| + 1;
  }

  /** An id is added while it is active: the new entry replaces the old one. */
  predicate Replaces(s: State, e: Event)
    requires Enabled(s, e)
  {
    e.End? && var call := s.tickets[e.t].call; (call.resumed ==> e.ok) && call.id in s.active
  }

  lemma EndKeepsInvIff(s: State, t: nat, ok: bool)
    requires Inv(s) && Enabled(s, End(t, ok))
    ensures Inv(AddEnd(s, t, ok)) <==> !Replaces(s, End(t, ok))
  {
    hide SlotsOk, EntriesOk, PromisesOk, Distinct;
    var s', id := AddEnd(s, t, ok), s.tickets[t].call.id;
    MoveKeepsQueue(s.waiting, s.tickets, s'.tickets, s.nextTicket, s.nextTicket, t);
    EndSlots(s, t, ok);
    hide QueueOk;
    if Replaces(s, End(t, ok)) {
      ReplacingBreaksEntries(s, t, ok);
    } else if s'.active == s.active {
      MoveKeepsEntries(s.active, s.tickets, s'.tickets, s.released, t);
    } else {
      InsertKeepsEntries(s.active, s.tickets, s.released, t);
      InsertKeepsPromises(s.promises, s.nextPromise, s.active, s.settled, id, s'.active[id]);
    }
  }

  /** The ticket of an entry that is replaced is active without an entry. */
  lemma ReplacingBreaksEntries(s: State, t: nat, ok: bool)
    requires EntriesOk(s.active, s.tickets, s.released) && Enabled(s, End(t, ok)) && Replaces(s, End(t, ok))
    ensures var s' := AddEnd(s, t, ok); !EntriesOk(s'.active, s'.tickets, s'.released)
  {
    hide Distinct;
    var s', id := AddEnd(s, t, ok), s.tickets[t].call.id;
    var u := s.active[id].ticket;
    assert EntryOk(s.active, s.tickets, id);
    assert IsAt(s'.tickets, u, Active) && !TicketOk(s'.active, s'.tickets, u);
  }

  /** A ticket moves to a place other than waiting, and its slot with it. */
  lemma MoveKeepsSlots(enabled: bool, limit: int, slots: set<nat>, slots': set<nat>, tickets: Tickets, t: nat,
                       place: Place)
    requires SlotsOk(enabled, limit, slots, tickets) && t in tickets && place != Waiting
    requires slots' == slots || slots' == slots + {t} || slots' == slots - {t}
    requires t in slots' ==> !IsUnlimited(tickets[t].call.mode, limit)
    requires enabled ==> (t in slots' <==> Counted(tickets[t].(place := place), limit))
    ensures SlotsOk(enabled, limit, slots', tickets[t := tickets[t].(place := place)])
  {
    var tickets' := tickets[t := tickets[t].(place := place)];
    forall u | u in tickets' ensures SlotOk(enabled, limit, u in slots', tickets'[u]) {
      if u != t { assert SlotOk(enabled, limit, u in slots, tickets[u]); }
    }
  }

  lemma EndSlots(s: State, t: nat, ok: bool)
    requires SlotsOk(s.enabled, s.limit, s.slots, s.tickets) && CapacityOk(s) && IsAt(s.tickets, t, Granted)
    ensures var s' := AddEnd(s, t, ok); SlotsOk(s'.enabled, s'.limit, s'.slots, s'.tickets) && CapacityOk(s')
  {
    MoveKeepsSlots(s.enabled, s.limit, s.slots, s.slots, s.tickets, t, AddEnd(s, t, ok).tickets[t].place);
    hide SlotsOk;
  }

  lemma InsertKeepsEntries(active: Entries, tickets: Tickets, released: seq<nat>, t: nat)
    requires EntriesOk(active, tickets, released) && IsAt(tickets, t, Granted) && tickets[t].call.id !in active
    ensures EntriesOk(active[tickets[t].call.id := Execution(t, tickets[t].call.mode, [], false)],
                      tickets[t := Ticket(tickets[t].call, Active)], released)
  {
    hide Distinct;
    var id, tickets' := tickets[t].call.id, tickets[t := Ticket(tickets[t].call, Active)];
    var active' := active[id := Execution(t, tickets[t].call.mode, [], false)];
    forall i | i in active' ensures EntryOk(active', tickets', i) { if i != id { assert EntryOk(active, tickets, i); } }
    forall u | IsAt(tickets', u, Active) ensures TicketOk(active', tickets', u) {
      if u != t { assert IsAt(tickets, u, Active) && TicketOk(active, tickets, u); }
    }
    forall u ensures u in released <==> IsAt(tickets', u, Released) {
      assert u in released <==> IsAt(tickets, u, Released);
    }
  }

  lemma InsertKeepsPromises(promises: map<nat, Promise>, next: nat, active: Entries, settled: seq<nat>, id: string,
                            e: Execution)
    requires PromisesOk(promises, next, active, settled) && id !in active && e.promises == []
    ensures PromisesOk(promises, next, active[id := e], settled)
  {
  }

  // ---------------------------------------------------------------- promises and attaching

  lemma NewPromiseKeepsInv(s: State, id: string)
    requires Inv(s)
    ensures Inv(GetPromise(s, id))
  {
    hide EntriesOk, QueueOk, SlotsOk, PromisesOk;
    if id in s.active {
      EntriesKept(s.active, GetPromise(s, id).active, s.tickets, s.released);
      AppendKeepsPromises(s.promises, s.nextPromise, s.active, s.settled, id);
    }
  }

  lemma AppendKeepsPromises(promises: map<nat, Promise>, next: nat, active: Entries, settled: seq<nat>, id: string)
    requires PromisesOk(promises, next, active, settled) && id in active
    ensures PromisesOk(promises[next := Pending(id)], next + 1,
                       active[id := active[id].(promises := active[id].promises + [next])], settled)
  {
    var ps := active[id].promises;
    assert next !in promises && next !in ps && next !in settled;
    assert Distinct(ps + [next]);
    hide Distinct;
    forall p ensures p in ps + [next] <==> p in ps || p == next {
    }
  }

  lemma AttachKeepsInv(s: State, id: string)
    requires Inv(s)
    ensures Inv(Attach(s, id))
  {
    if id in s.active {
      EntriesKept(s.active, Attach(s, id).active, s.tickets, s.released);
      SamePromises(s.promises, s.nextPromise, s.active, Attach(s, id).active, s.settled);
    }
    hide EntriesOk, QueueOk, SlotsOk, PromisesOk;
  }

  lemma SamePromises(promises: map<nat, Promise>, next: nat, active: Entries, active': Entries, settled: seq<nat>)
    requires PromisesOk(promises, next, active, settled) && active'.Keys == active.Keys
    requires forall i :: i in active ==> active'[i].promises == active[i].promises
    ensures PromisesOk(promises, next, active', settled)
  {
    hide Distinct;
  }

  // ---------------------------------------------------------------- giving capacity back

  /** The invariant but for one slot, which may be free while tickets wait. */
  ghost predicate AlmostInv(s: State) {
    && QueueOk(s.waiting, s.tickets, s.nextTicket)
    && EntriesOk(s.active, s.tickets, s.released)
    && SlotsOk(s.enabled, s.limit, s.slots, s.tickets)
    && PromisesOk(s.promises, s.nextPromise, s.active, s.settled)
    && s.capacity == s.limit - |s.slots| - |s.waiting| && (s.waiting != [] ==> |s.slots| >= s.limit - 1)
  }

  lemma ResolveNextKeepsInv(s: State)
    requires AlmostInv(s) && Linked(s)
    ensures Inv(ResolveNext(s))
  {
    if s.waiting != [] {
      var t, s' := s.waiting[0], ResolveNext(s);
      assert t in s.waiting;
      assert IsAt(s.tickets, t, Waiting);
      assert t !in s.slots && !IsUnlimited(s.tickets[t].call.mode, s.limit);
      assert s'.tickets == s.tickets[t := s'.tickets[t]];
      assert |s.slots + {t}| == |s.slots| + 1;
      LeavesQueue(s.waiting, s.tickets, s'.tickets, s.nextTicket, 0);
      assert s.waiting[..0] + s.waiting[1..] == s.waiting[1..];
      hide QueueOk;
      MoveKeepsEntries(s.active, s.tickets, s'.tickets, s.released, t);
      hide EntriesOk;
      MoveKeepsSlots(s.enabled, s.limit, s.slots, s'.slots, s.tickets, t, Granted);
      hide SlotsOk, PromisesOk;
    }
  }

  lemma FinishKeepsEntries(active: Entries, tickets: Tickets, released: seq<nat>, id: string, t: nat)
    requires EntriesOk(active, tickets, released) && id in active && t == active[id].ticket
    ensures IsAt(tickets, t, Active) && tickets[t].call.mode == active[id].mode
    ensures EntriesOk(Without(active, id), tickets[t := tickets[t].(place := Released)], released + [t])
  {
    assert EntryOk(active, tickets, id);
    var tickets' := tickets[t := tickets[t].(place := Released)];
    var active', released' := Without(active, id), released + [t];
    assert t in released <==> IsAt(tickets, t, Released);
    assert Distinct(released');
    hide Distinct;
    forall i | i in active' ensures EntryOk(active', tickets', i) { assert EntryOk(active, tickets, i); }
    forall u | IsAt(tickets', u, Active) ensures TicketOk(active', tickets', u) {
      assert IsAt(tickets, u, Active) && TicketOk(active, tickets, u);
    }
    forall u ensures u in released' <==> IsAt(tickets', u, Released) {
      assert u in released <==> IsAt(tickets, u, Released);
    }
  }

  lemma DistinctConcat(a: seq<nat>, b: seq<nat>)
    requires Distinct(a) && Distinct(b) && forall x :: x in a ==> x !in b
    ensures Distinct(a + b)
  {
    forall i, j | 0 <= i < j < |a + b| ensures (a + b)[i] != (a + b)[j] {
      if i < |a| <= j { assert a[i] in a && b[j - |a|] in b; }
    }
  }

  /** Settling the promises of an entry and dropping the entry. */
  lemma FinishKeepsPromises(promises: map<nat, Promise>, next: nat, active: Entries, settled: seq<nat>, id: string,
                            outcome: Promise)
    requires PromisesOk(promises, next, active, settled) && id in active && !outcome.Pending?
    ensures PromisesOk(Settled(promises, active[id].promises, outcome), next, Without(active, id),
                       settled + active[id].promises)
    ensures forall p :: p in active[id].promises ==> Settled(promises, active[id].promises, outcome)[p] == outcome
  {
    var ps, promises' := active[id].promises, Settled(promises, active[id].promises, outcome);
    forall p | p in settled ensures p !in ps {
    }
    DistinctConcat(settled, ps);
    hide Distinct;
    assert promises'.Keys == promises.Keys;
    forall p | p in promises ensures promises'[p] == if promises[p] == Pending(id) then outcome else promises[p] {
    }
  }

  /** The state in which the execution is gone and its capacity is back, but no ticket has passed yet. */
  function Detached(s: State, id: string, outcome: Promise): State
    requires Linked(s) && id in s.active
  {
    var t, ps := s.active[id].ticket, s.active[id].promises;
    var counts := Counts(s, s.tickets[t].call.mode);
    s.(tickets := s.tickets[t := s.tickets[t].(place := Released)], active := Without(s.active, id),
       released := s.released + [t], slots := if counts then s.slots - {t} else s.slots,
       promises := Settled(s.promises, ps, outcome), settled := s.settled + ps,
       capacity := if counts then s.capacity + 1 else s.capacity)
  }

  lemma FinishIsDetached(s: State, id: string, outcome: Promise)
    requires Linked(s) && id in s.active
    ensures Linked(Detached(s, id, outcome))
    ensures Finish(s, id, outcome) ==
            var s1 := Detached(s, id, outcome);
            if Counts(s, s.tickets[s.active[id].ticket].call.mode) then ResolveNext(s1) else s1
  {
    hide Settled;
  }

  lemma DetachedIsAlmost(s: State, id: string, outcome: Promise)
    requires Inv(s) && Linked(s) && id in s.active && !outcome.Pending?
    ensures AlmostInv(Detached(s, id, outcome))
    ensures !Counts(s, s.tickets[s.active[id].ticket].call.mode) ==> CapacityOk(Detached(s, id, outcome))
  {
    var t, s1 := s.active[id].ticket, Detached(s, id, outcome);
    FinishKeepsEntries(s.active, s.tickets, s.released, id, t);
    FinishKeepsPromises(s.promises, s.nextPromise, s.active, s.settled, id, outcome);
    hide EntriesOk, PromisesOk, Settled;
    MoveKeepsQueue(s.waiting, s.tickets, s1.tickets, s.nextTicket, s.nextTicket, t);
    hide QueueOk;
    assert Counts(s, s.tickets[t].call.mode) ==> t in s.slots && |s.slots - {t}| == |s.slots| - 1;
    MoveKeepsSlots(s.enabled, s.limit, s.slots, s1.slots, s.tickets, t, Released);
    hide SlotsOk;
  }

  /** An execution ends: its promises are settled, its entry goes, its capacity goes back. */
  lemma FinishKeepsInv(s: State, id: string, outcome: Promise)
    requires Inv(s) && Linked(s) && !outcome.Pending?
    ensures Inv(Finish(s, id, outcome))
  {
    if id in s.active {
      FinishIsDetached(s, id, outcome);
      DetachedIsAlmost(s, id, outcome);
      hide QueueOk, EntriesOk, PromisesOk, SlotsOk, Finish, Detached, ResolveNext;
      if Counts(s, s.tickets[s.active[id].ticket].call.mode) {
        ResolveNextKeepsInv(Detached(s, id, outcome));
      }
    }
  }

  /** The state in which a ticket has left the queue, but no ticket has passed yet. */
  function Dropped(s: State, i: nat): State
    requires Linked(s) && i < |s.waiting|
  {
    s.(tickets := s.tickets[s.waiting[i] := s.tickets[s.waiting[i]].(place := Cancelled)],
       waiting := s.waiting[..i] + s.waiting[i + 1..], capacity := s.capacity + 1)
  }

  lemma DroppedIsAlmost(s: State, i: nat)
    requires Inv(s) && Linked(s) && i < |s.waiting|
    ensures Linked(Dropped(s, i)) && AlmostInv(Dropped(s, i))
  {
    var t, s1 := s.waiting[i], Dropped(s, i);
    assert Linked(s1);
    hide Linked;
    assert t in s.waiting;
    assert IsAt(s.tickets, t, Waiting) && t !in s.slots;
    LeavesQueue(s.waiting, s.tickets, s1.tickets, s.nextTicket, i);
    hide QueueOk;
    MoveKeepsEntries(s.active, s.tickets, s1.tickets, s.released, t);
    hide EntriesOk, PromisesOk;
    MoveKeepsSlots(s.enabled, s.limit, s.slots, s.slots, s.tickets, t, Cancelled);
    hide SlotsOk;
  }

  lemma CancelKeepsInv(s: State, id: string)
    requires Inv(s) && Linked(s)
    ensures Inv(Cancel(s, id))
  {
    hide Inv, AlmostInv, ResolveNext;
    var i := FirstWaiting(s, id, 0);
    if s.enabled && i.Some? {
      DroppedIsAlmost(s, i.value);
      ResolveNextKeepsInv(Dropped(s, i.value));
    }
  }

  lemma DisableKeepsInv(s: State)
    requires Inv(s)
    ensures Inv(s.(enabled := false))
  {
    hide QueueOk, EntriesOk, PromisesOk;
    forall t | t in s.tickets ensures SlotOk(false, s.limit, t in s.slots, s.tickets[t]) {
      assert SlotOk(s.enabled, s.limit, t in s.slots, s.tickets[t]);
    }
  }

  /** Exactly when an event keeps the invariant. */
  lemma NextKeepsInvIff(s: State, e: Event)
    requires Inv(s) && Linked(s) && Enabled(s, e)
    ensures Inv(Next(s, e)) <==> !Replaces(s, e)
  {
    hide Inv, AddBegin, AddEnd, GetPromise, Attach, Finish, Cancel;
    match e
    case Begin(call) => BeginKeepsInv(s, call);
    case End(t, ok) => EndKeepsInvIff(s, t, ok);
    case NewPromise(id) => NewPromiseKeepsInv(s, id);
    case AttachTo(id) => AttachKeepsInv(s, id);
    case RemoveOne(id, data) => FinishKeepsInv(s, id, Resolved(data));
    case StopOne(id) => FinishKeepsInv(s, id, Rejected(id));
    case CancelOne(id) => CancelKeepsInv(s, id);
    case Disable => DisableKeepsInv(s);
  }

  // ---------------------------------------------------------------- runs

  ghost predicate IsRun(s: State, events: seq<Event>)
    decreases |events|
  {
    events == [] || (Linked(s) && Enabled(s, events[0]) && IsRun(Next(s, events[0]), events[1..]))
  }

  ghost function After(s: State, events: seq<Event>): State
    requires IsRun(s, events)
    decreases |events|
  {
    if events == [] then s else After(Next(s, events[0]), events[1..])
  }

  /** No id is added while it is active. */
  ghost predicate NeverReplaces(s: State, events: seq<Event>)
    requires IsRun(s, events)
    decreases |events|
  {
    events == [] || (!Replaces(s, events[0]) && NeverReplaces(Next(s, events[0]), events[1..]))
  }

  lemma {:induction false} RunKeepsInv(s: State, events: seq<Event>)
    requires Inv(s) && IsRun(s, events) && NeverReplaces(s, events)
    ensures Inv(After(s, events))
    decreases |events|
  {
    hide Inv, Next, Replaces;
    if events != [] {
      NextKeepsInvIff(s, events[0]);
      RunKeepsInv(Next(s, events[0]), events[1..]);
    }
  }

  lemma InitialInv(limit: int)
    requires limit == -1 || limit > 0
    ensures Inv(Initial(limit)) && (limit > 0 ==> |Initial(limit).slots| <= limit)
    ensures var s := Initial(limit);
            (s.enabled <==> limit > 0) && s.limit == s.capacity == limit && s.waiting == [] && s.active == map[]
  {
    var s := Initial(limit);
    assert limit > 0 ==> CapacityOk(s);
  }

  // ---------------------------------------------------------------- conservation

  predicate Throttled(place: Place) { place != Waiting && place != Cancelled }

  ghost function TicketsAt(s: State, mode: Mode, place: Place): set<nat> {
    set t | t in s.tickets && s.tickets[t].call.mode == mode && s.tickets[t].place == place
  }

  /** The calls of `throttle` for a mode that have returned. */
  ghost function ThrottledTickets(s: State, mode: Mode): set<nat> {
    set t | t in s.tickets && s.tickets[t].call.mode == mode && Throttled(s.tickets[t].place)
  }

  /** The calls of `release` for a mode. */
  ghost function Releases(s: State, mode: Mode): set<nat> {
    set t | t in s.released && t in s.tickets && s.tickets[t].call.mode == mode
  }

  ghost function ActiveIds(s: State, mode: Mode): set<string> {
    set id | id in s.active && s.active[id].mode == mode
  }

  lemma {:induction false} TicketsOfIds(active: Entries, ids: set<string>)
    requires forall id :: id in ids ==> id in active
    requires forall i, j :: i in ids && j in ids && active[i].ticket == active[j].ticket ==> i == j
    ensures |set id | id in ids :: active[id].ticket| == |ids|
  {
    if ids != {} {
      var id :| id in ids;
      var rest := ids - {id};
      TicketsOfIds(active, rest);
      assert (set i | i in ids :: active[i].ticket) == (set i | i in rest :: active[i].ticket) + {active[id].ticket};
      assert active[id].ticket !in (set i | i in rest :: active[i].ticket);
    }
  }

  lemma ActiveIdsAreTickets(s: State, mode: Mode)
    requires EntriesOk(s.active, s.tickets, s.released)
    ensures |ActiveIds(s, mode)| == |TicketsAt(s, mode, Active)|
  {
    hide Distinct;
    var ids := ActiveIds(s, mode);
    forall id | id in s.active ensures EntryOk(s.active, s.tickets, id) {
    }
    TicketsOfIds(s.active, ids);
    var ts := set id | id in ids :: s.active[id].ticket;
    forall t ensures t in ts <==> t in TicketsAt(s, mode, Active) {
      if t in TicketsAt(s, mode, Active) {
        assert IsAt(s.tickets, t, Active) && TicketOk(s.active, s.tickets, t);
        assert s.tickets[t].call.id in ids;
      }
    }
    assert ts == TicketsAt(s, mode, Active);
  }

  /** Capacity is conserved, mode by mode: throttled less released is active, between throttling and
      insertion, or stuck after a failed database update; and no insertion is released twice. */
  lemma Conservation(s: State, mode: Mode)
    requires Inv(s)
    ensures |ThrottledTickets(s, mode)| - |Releases(s, mode)| ==
            |ActiveIds(s, mode)| + |TicketsAt(s, mode, Granted)| + |TicketsAt(s, mode, Failed)|
    ensures Distinct(s.released)
  {
    ActiveIdsAreTickets(s, mode);
    ReleasesAreTickets(s, mode);
    FourPlaces(s, mode);
    hide QueueOk, SlotsOk, PromisesOk, CapacityOk, ActiveIds, TicketsAt, Releases, ThrottledTickets;
  }

  lemma ReleasesAreTickets(s: State, mode: Mode)
    requires EntriesOk(s.active, s.tickets, s.released)
    ensures Releases(s, mode) == TicketsAt(s, mode, Released)
  {
    hide Distinct;
    forall t ensures t in s.released <==> IsAt(s.tickets, t, Released) {
    }
  }

  lemma FourPlaces(s: State, mode: Mode)
    ensures |ThrottledTickets(s, mode)| ==
            |TicketsAt(s, mode, Granted)| + |TicketsAt(s, mode, Active)| + |TicketsAt(s, mode, Failed)|
              + |TicketsAt(s, mode, Released)|
  {
    hide TicketsAt, ThrottledTickets;
    var g, a, f, r := TicketsAt(s, mode, Granted), TicketsAt(s, mode, Active), TicketsAt(s, mode, Failed),
      TicketsAt(s, mode, Released);
    ThrottledIsUnion(s, mode);
    PlacesDisjoint(s, mode, Granted, Active);
    DisjointUnion(g, a);
    PlacesDisjoint(s, mode, Failed, Released);
    DisjointUnion(f, r);
    PlacesDisjoint(s, mode, Granted, Failed);
    PlacesDisjoint(s, mode, Granted, Released);
    PlacesDisjoint(s, mode, Active, Failed);
    PlacesDisjoint(s, mode, Active, Released);
    DisjointUnion(g + a, f + r);
  }

  lemma ThrottledIsUnion(s: State, mode: Mode)
    ensures ThrottledTickets(s, mode) ==
            (TicketsAt(s, mode, Granted) + TicketsAt(s, mode, Active))
              + (TicketsAt(s, mode, Failed) + TicketsAt(s, mode, Released))
  {
  }

  lemma PlacesDisjoint(s: State, mode: Mode, p: Place, q: Place)
    requires p != q
    ensures TicketsAt(s, mode, p) !! TicketsAt(s, mode, q)
  {
  }

  lemma DisjointUnion(a: set<nat>, b: set<nat>)
    requires a !! b
    ensures |a + b| == |a| + |b|
  {
  }

  // ---------------------------------------------------------------- the limit

  /** An execution is taken out of the queue while another one waits: the next one passes, although no
      slot was given back. */
  predicate Overtakes(s: State, e: Event)
    requires Linked(s)
  {
    e.CancelOne? && s.enabled && FirstWaiting(s, e.id, 0).Some? && |s.waiting| >= 2
  }

  /** Exactly when an event pushes the number of running production executions over the limit. */
  lemma WithinLimitIff(s: State, e: Event)
    requires Inv(s) && Linked(s) && Enabled(s, e) && |s.slots| <= s.limit
    ensures |Next(s, e).slots| <= s.limit <==> !Overtakes(s, e)
  {
    hide EntriesOk, PromisesOk, Settled;
    match e
    case Begin(call) => assert |s.slots + {s.nextTicket}| <= |s.slots| + 1;
    case RemoveOne(id, data) => FinishSlots(s, id, Resolved(data));
    case StopOne(id) => FinishSlots(s, id, Rejected(id));
    case CancelOne(id) => CancelSlots(s, id);
    case _ =>
  }

  lemma FinishSlots(s: State, id: string, outcome: Promise)
    requires Inv(s) && Linked(s) && |s.slots| <= s.limit
    ensures |Finish(s, id, outcome).slots| <= s.limit
  {
    if id in s.active {
      FinishIsDetached(s, id, outcome);
      FinishKeepsEntries(s.active, s.tickets, s.released, id, s.active[id].ticket);
      var t, s1 := s.active[id].ticket, Detached(s, id, outcome);
      assert Counts(s, s.tickets[t].call.mode) ==> t in s.slots && |s1.slots| == |s.slots| - 1;
      hide EntriesOk, PromisesOk, SlotsOk, Finish;
      if s1.waiting != [] {
        assert |s1.slots + {s1.waiting[0]}| <= |s1.slots| + 1;
      }
    }
  }

  lemma CancelSlots(s: State, id: string)
    requires Inv(s) && Linked(s) && |s.slots| <= s.limit
    ensures |Cancel(s, id).slots| <= s.limit <==> !Overtakes(s, CancelOne(id))
  {
    hide EntriesOk, PromisesOk;
    var i := FirstWaiting(s, id, 0);
    if s.enabled && i.Some? && |s.waiting| >= 2 {
      var rest := s.waiting[..i.value] + s.waiting[i.value + 1..];
      var next := rest[0];
      assert next in s.waiting;
      assert IsAt(s.tickets, next, Waiting);
      assert next !in s.slots && |s.slots + {next}| == |s.slots| + 1;
    }
  }

  /** A limit of one, three webhook executions: when the second is taken out of the queue, the third runs beside
      the first. */
  lemma OvertakingRun(a: string, b: string, c: string)
    ensures var events := [Begin(Call(a, Webhook, false)), Begin(Call(b, Webhook, false)),
                           Begin(Call(c, Webhook, false)), CancelOne(b)];
            && IsRun(Initial(1), events)
            && var r := After(Initial(1), events); r.slots == {0, 2} && r.limit == 1
  {
    var ca, cb, cc := Call(a, Webhook, false), Call(b, Webhook, false), Call(c, Webhook, false);
    var s1 := AddBegin(Initial(1), ca);
    var s2 := AddBegin(s1, cb);
    var s3 := AddBegin(s2, cc);
    ThreeBegun(ca, cb, cc);
    hide AddBegin, Linked;
    SecondCancelled(s3, b);
    hide Cancel;
    FourSteps(Initial(1), Begin(ca), Begin(cb), Begin(cc), CancelOne(b));
  }

  lemma FourSteps(s: State, a: Event, b: Event, c: Event, d: Event)
    requires Linked(s) && Enabled(s, a) && Linked(Next(s, a)) && Enabled(Next(s, a), b)
    requires var s2 := Next(Next(s, a), b);
             Linked(s2) && Enabled(s2, c) && Linked(Next(s2, c)) && Enabled(Next(s2, c), d)
    ensures IsRun(s, [a, b, c, d]) && After(s, [a, b, c, d]) == Next(Next(Next(Next(s, a), b), c), d)
  {
    hide Linked, Enabled, Next;
    var s1 := Next(s, a);
    var s2 := Next(s1, b);
    RunCons(Next(s2, c), d, []);
    RunCons(s2, c, [d]);
    RunCons(s1, b, [c, d]);
    RunCons(s, a, [b, c, d]);
    hide IsRun, After;
    assert [d] + [] == [d] && [c] + [d] == [c, d] && [b] + [c, d] == [b, c, d] && [a] + [b, c, d] == [a, b, c, d];
  }

  lemma RunCons(s: State, e: Event, rest: seq<Event>)
    requires Linked(s) && Enabled(s, e) && IsRun(Next(s, e), rest)
    ensures IsRun(s, [e] + rest) && After(s, [e] + rest) == After(Next(s, e), rest)
  {
    hide Linked, Enabled, Next;
    assert ([e] + rest)[0] == e && ([e] + rest)[1..] == rest;
  }

  lemma ThreeBegun(a: Call, b: Call, c: Call)
    requires a.mode == b.mode == c.mode == Webhook
    ensures var s1 := AddBegin(Initial(1), a);
            var s2 := AddBegin(s1, b);
            var s3 := AddBegin(s2, c);
            && Linked(Initial(1)) && Linked(s1) && Linked(s2) && Linked(s3)
            && s3.enabled && s3.limit == 1 && s3.slots == {0} && s3.waiting == [1, 2] && 1 in s3.tickets
               && s3.tickets[1].call == b
  {
    var s1 := AddBegin(Initial(1), a);
    assert s1.tickets == map[0 := Ticket(a, Granted)] && s1.slots == {0};
    assert s1.enabled && s1.limit == 1 && s1.capacity == 0 && s1.nextTicket == 1 && s1.waiting == []
           && s1.active == map[];
    var s2 := AddBegin(s1, b);
    assert s2.tickets == map[0 := Ticket(a, Granted), 1 := Ticket(b, Waiting)];
    assert s2.enabled && s2.limit == 1 && s2.capacity == -1 && s2.nextTicket == 2 && s2.waiting == [1]
           && s2.active == map[];
    var s3 := AddBegin(s2, c);
    assert s3.tickets == s2.tickets[2 := Ticket(c, Waiting)] && s3.waiting == [1, 2];
  }

  lemma SecondCancelled(s: State, id: string)
    requires Linked(s) && s.enabled && s.waiting == [1, 2] && s.slots == {0} && s.tickets[1].call.id == id
    ensures Cancel(s, id).slots == {0, 2} && Cancel(s, id).limit == s.limit
  {
    assert 1 in s.waiting && 2 in s.waiting;
    assert FirstWaiting(s, id, 0) == Some(0);
    assert s.waiting[..0] + s.waiting[1..] == [2];
    assert {0} + {2} == {0, 2};
  }

  ghost predicate NeverOvertakes(s: State, events: seq<Event>)
    requires IsRun(s, events)
    decreases |events|
  {
    events == [] || (!Overtakes(s, events[0]) && NeverOvertakes(Next(s, events[0]), events[1..]))
  }

  lemma NextKeepsLimit(s: State, e: Event)
    requires Linked(s) && Enabled(s, e)
    ensures Next(s, e).limit == s.limit
  {
    hide Settled;
  }

  /** The concurrency limit holds over every run that takes nothing out of a queue of several. */
  lemma {:induction false} RunKeepsLimit(s: State, events: seq<Event>)
    requires Inv(s) && |s.slots| <= s.limit && IsRun(s, events) && NeverReplaces(s, events) && NeverOvertakes(s, events)
    ensures |After(s, events).slots| <= After(s, events).limit == s.limit
    decreases |events|
  {
    hide Inv, Next, Replaces, Overtakes;
    if events != [] {
      NextKeepsInvIff(s, events[0]);
      WithinLimitIff(s, events[0]);
      NextKeepsLimit(s, events[0]);
      RunKeepsLimit(Next(s, events[0]), events[1..]);
    }
  }

  // ---------------------------------------------------------------- promises

  /** No promise is pending for an execution that is not active. */
  lemma PendingMeansActive(s: State, p: nat)
    requires Inv(s) && p in s.promises && s.promises[p].Pending?
    ensures s.promises[p].id in s.active && p in s.active[s.promises[p].id].promises
    ensures forall id :: id in s.active && p in s.active[id].promises ==> id == s.promises[p].id
  {
  }

  /** Removing resolves every promise of the execution with the same data, stopping rejects every one,
      and no other promise is touched. */
  lemma FinishSettles(s: State, id: string, outcome: Promise)
    requires Inv(s) && Linked(s) && id in s.active && !outcome.Pending?
    ensures forall p :: p in s.promises ==>
              p in Finish(s, id, outcome).promises
              && Finish(s, id, outcome).promises[p] == if p in s.active[id].promises then outcome else s.promises[p]
    ensures id !in Finish(s, id, outcome).active
  {
    hide QueueOk, EntriesOk, SlotsOk, CapacityOk, Finish, Distinct;
    FinishIsDetached(s, id, outcome);
  }

  /** Every promise has been made. */
  ghost predicate PromisesMade(s: State) { forall p :: p in s.promises ==> p < s.nextPromise }

  /** A settled promise keeps its outcome. */
  lemma NextKeepsSettled(s: State, e: Event, p: nat)
    requires Linked(s) && PromisesMade(s) && Enabled(s, e) && p in s.promises && !s.promises[p].Pending?
    ensures PromisesMade(Next(s, e)) && p in Next(s, e).promises && Next(s, e).promises[p] == s.promises[p]
  {
    hide Finish;
    match e
    case RemoveOne(id, data) => SettledByFinish(s, id, Resolved(data), p);
    case StopOne(id) => SettledByFinish(s, id, Rejected(id), p);
    case _ =>
  }

  lemma SettledByFinish(s: State, id: string, outcome: Promise, p: nat)
    requires Linked(s) && PromisesMade(s) && p in s.promises && !s.promises[p].Pending?
    ensures var r := Finish(s, id, outcome);
            PromisesMade(r) && p in r.promises && r.promises[p] == s.promises[p]
  {
    if id in s.active {
      FinishIsDetached(s, id, outcome);
      hide Finish;
    }
  }

  lemma {:induction false} RunKeepsSettled(s: State, events: seq<Event>, p: nat)
    requires PromisesMade(s) && IsRun(s, events) && p in s.promises && !s.promises[p].Pending?
    ensures p in After(s, events).promises && After(s, events).promises[p] == s.promises[p]
    decreases |events|
  {
    hide Next, Linked, PromisesMade;
    if events != [] {
      NextKeepsSettled(s, events[0], p);
      RunKeepsSettled(Next(s, events[0]), events[1..], p);
    }
  }

  // ---------------------------------------------------------------- shutdown

  /** With the service disabled, an ending execution gives no capacity back, so nothing waiting passes. */
  lemma FinishWhileDisabled(s: State, id: string, outcome: Promise)
    requires Linked(s) && !s.enabled && id in s.active
    ensures var r := Finish(s, id, outcome);
            && !r.enabled && r.waiting == s.waiting && r.capacity == s.capacity && r.slots == s.slots
            && r.active == Without(s.active, id)
  {
    FinishIsDetached(s, id, outcome);
    hide Finish, Settled;
  }

  /** What stopping a list of executions leaves of the promises. */
  function StoppedPromise(p: Promise, ids: seq<string>): Promise {
    if p.Pending? && p.id in ids then Rejected(p.id) else p
  }

  ghost predicate Stopped(s: State, ids: seq<string>, s': State) {
    && !s'.enabled && s'.waiting == s.waiting && s'.capacity == s.capacity && s'.slots == s.slots
    && (forall id :: id in s'.active <==> id in s.active && id !in ids)
    && (forall id :: id in s'.active ==> s'.active[id] == s.active[id])
    && (forall p :: p in s.promises ==> p in s'.promises && s'.promises[p] == StoppedPromise(s.promises[p], ids))
  }

  lemma {:induction false} StopAllStops(s: State, ids: seq<string>)
    requires Inv(s) && Linked(s) && !s.enabled
    requires forall id :: id in ids && id in s.active ==> s.active[id].attached
    ensures StopAll(s, ids).1 && Stopped(s, ids, StopAll(s, ids).0) && Inv(StopAll(s, ids).0)
  {
    hide Inv;
    if ids == [] {
    } else {
      var rest, id := ids[..|ids| - 1], ids[|ids| - 1];
      assert ids == rest + [id];
      StopAllStops(s, rest);
      var s1 := StopAll(s, rest).0;
      FinishKeepsInv(s1, id, Rejected(id));
      if id in s1.active {
        FinishWhileDisabled(s1, id, Rejected(id));
        FinishSettles(s1, id, Rejected(id));
        StopOneMore(s, rest, s1, id);
      } else {
        StopNoneMore(s, rest, s1, id);
      }
    }
  }

  lemma StopNoneMore(s: State, rest: seq<string>, s1: State, id: string)
    requires Inv(s) && Stopped(s, rest, s1) && id !in s1.active
    ensures Stopped(s, rest + [id], s1)
  {
    forall p | p in s.promises
      ensures p in s1.promises && s1.promises[p] == StoppedPromise(s.promises[p], rest + [id])
    {
      if s.promises[p].Pending? { PendingMeansActive(s, p); }
    }
    hide Inv;
  }

  lemma StopOneMore(s: State, rest: seq<string>, s1: State, id: string)
    requires Inv(s1) && Linked(s1) && Stopped(s, rest, s1) && id in s1.active
    requires forall p :: p in s1.promises ==>
               p in Finish(s1, id, Rejected(id)).promises && Finish(s1, id, Rejected(id)).promises[p] ==
               if p in s1.active[id].promises then Rejected(id) else s1.promises[p]
    requires var r := Finish(s1, id, Rejected(id));
             && !r.enabled && r.waiting == s1.waiting && r.capacity == s1.capacity && r.slots == s1.slots
             && r.active == Without(s1.active, id)
    ensures Stopped(s, rest + [id], Finish(s1, id, Rejected(id)))
  {
    hide Finish, QueueOk, EntriesOk, SlotsOk, CapacityOk, Distinct;
    var r := Finish(s1, id, Rejected(id));
    forall p | p in s.promises ensures p in r.promises && r.promises[p] == StoppedPromise(s.promises[p], rest + [id]) {
      assert s1.promises[p] == StoppedPromise(s.promises[p], rest);
      assert p in s1.active[id].promises <==> s1.promises[p] == Pending(id);
    }
  }

  /** Shutdown with cancelling, when a run is attached to every active execution: all are gone, every
      promise that was pending is rejected, and what waited in the queue still waits. */
  lemma ShutdownStopsAll(s: State, ids: seq<string>)
    requires Inv(s) && Linked(s) && (forall id :: id in ids <==> id in s.active)
    requires forall id :: id in s.active ==> s.active[id].attached
    ensures var r := StopAll(s.(enabled := false), ids);
            && r.1 && r.0.active == map[] && r.0.waiting == s.waiting
            && (forall p :: p in s.promises ==>
                  p in r.0.promises
                  && r.0.promises[p] == if s.promises[p].Pending? then Rejected(s.promises[p].id) else s.promises[p])
  {
    var s0 := s.(enabled := false);
    DisableKeepsInv(s);
    StopAllStops(s0, ids);
    var r := StopAll(s0, ids).0;
    forall p | p in s.promises
      ensures p in r.promises
      ensures r.promises[p] == if s.promises[p].Pending? then Rejected(s.promises[p].id) else s.promises[p]
    {
      if s.promises[p].Pending? { PendingMeansActive(s, p); }
    }
    hide Inv, StopAll;
    forall id ensures id !in r.active {
    }
    assert r.active.Keys == {};
  }
}
