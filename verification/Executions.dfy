/** Executions running in this process, and the queue that limits them, as a state machine
    (packages/cli/src/active-executions.ts, packages/cli/src/concurrency/concurrency-queue.ts).

    Every call of `add` has a ticket.  A ticket is throttled, then inserted, then released; the state
    records where each ticket is. */
module Executions {
  import opened Wrappers

  datatype Mode = Webhook | Trigger | Error | Integrated | Cli | Internal | Manual | Retry

  /** `resumed`: the execution exists already, so that `add` updates it in the database. */
  datatype Call = Call(id: string, mode: Mode, resumed: bool)

  datatype Place = Waiting | Granted | Active | Failed | Released | Cancelled

  datatype Ticket = Ticket(call: Call, place: Place)

  /** An active execution, with its post-execute promises.  `attached`: it can be cancelled. */
  datatype Execution = Execution(ticket: nat, mode: Mode, promises: seq<nat>, attached: bool)

  datatype Promise = Pending(id: string) | Resolved(data: string) | Rejected(id: string)

  datatype State = State(
    enabled: bool,
    limit: int,
    capacity: int,
    waiting: seq<nat>,
    slots: set<nat>,
    tickets: map<nat, Ticket>,
    nextTicket: nat,
    active: map<string, Execution>,
    released: seq<nat>,
    promises: map<nat, Promise>,
    nextPromise: nat,
    settled: seq<nat>)

  predicate IsUnlimited(mode: Mode, limit: int) {
    if mode == Webhook || mode == Trigger then limit == -1 else true
  }

  /** Whether the queue counts executions of this mode. */
  predicate Counts(s: State, mode: Mode) {
    s.enabled && !IsUnlimited(mode, s.limit)
  }

  function Put(s: State, t: nat, place: Place): State
    requires t in s.tickets
  {
    s.(tickets := s.tickets[t := s.tickets[t].(place := place)])
  }

  /** The queue lets the first waiting ticket pass. */
  function ResolveNext(s: State): State
    requires s.waiting == [] || s.waiting[0] in s.tickets
  {
    if s.waiting == [] then s
    else Put(s, s.waiting[0], Granted).(waiting := s.waiting[1..], slots := s.slots + {s.waiting[0]})
  }

  /** `add` up to the end of throttling, or until it has to wait. */
  function AddBegin(s: State, call: Call): State {
    var t := s.nextTicket;
    var s := s.(tickets := s.tickets[t := Ticket(call, Granted)], nextTicket := t + 1);
    if !Counts(s, call.mode) then s
    else
      var s := s.(capacity := s.capacity - 1);
      if s.capacity < 0 then Put(s, t, Waiting).(waiting := s.waiting + [t])
      else s.(slots := s.slots + {t})
  }

  /** The rest of `add`.  `ok`: updating a resumed execution in the database works. */
  function AddEnd(s: State, t: nat, ok: bool): State
    requires t in s.tickets
  {
    var call := s.tickets[t].call;
    if call.resumed && !ok then Put(s, t, Failed)
    else Put(s, t, Active).(active := s.active[call.id := Execution(t, call.mode, [], false)])
  }

  /** `getPostExecutePromise`; without an active execution it throws and no promise is left behind. */
  function GetPromise(s: State, id: string): State {
    if id !in s.active then s
    else
      var e := s.active[id];
      s.(active := s.active[id := e.(promises := e.promises + [s.nextPromise])],
         promises := s.promises[s.nextPromise := Pending(id)],
         nextPromise := s.nextPromise + 1)
  }

  function Attach(s: State, id: string): State {
    if id !in s.active then s else s.(active := s.active[id := s.active[id].(attached := true)])
  }

  /** Settling a list of promises with one outcome; a promise that is settled already keeps its own. */
  function Settled(promises: map<nat, Promise>, ps: seq<nat>, outcome: Promise): (r: map<nat, Promise>)
    ensures r.Keys == promises.Keys + (set q | q in ps)
  {
    map p | p in promises.Keys + (set q | q in ps) ::
      if p in promises && (p !in ps || !promises[p].Pending?) then promises[p] else outcome
  }

  /** `postExecuteCleanup`: the entry goes, and its capacity goes back. */
  function Cleanup(s: State, id: string): State
    requires Linked(s) && id in s.active
  {
    var t := s.active[id].ticket;
    var s := Put(s, t, Released).(active := Without(s.active, id), released := s.released + [t]);
    if !Counts(s, s.tickets[t].call.mode) then s
    else ResolveNext(s.(capacity := s.capacity + 1, slots := s.slots - {t}))
  }

  /** Every ticket that waits or is active is known, and so is every promise of an active execution. */
  ghost predicate Linked(s: State) {
    && (forall t :: t in s.waiting ==> t in s.tickets)
    && (forall id :: id in s.active ==> s.active[id].ticket in s.tickets)
    && (forall id, p :: id in s.active && p in s.active[id].promises ==> p in s.promises)
  }

  /** The promises of the execution are settled, then it is cleaned up. */
  function Finish(s: State, id: string, outcome: Promise): (r: State)
    requires Linked(s)
    ensures Linked(r) && r.active.Keys == s.active.Keys - {id}
  {
    if id !in s.active then s
    else
      var ps := s.active[id].promises;
      Cleanup(s.(promises := Settled(s.promises, ps, outcome), settled := s.settled + ps), id)
  }

  function Remove(s: State, id: string, data: string): State
    requires Linked(s)
  {
    Finish(s, id, Resolved(data))
  }

  /** Cancelling an execution that nothing is attached to yet throws before anything changes. */
  predicate StopThrows(s: State, id: string) {
    id in s.active && !s.active[id].attached
  }

  function Stop(s: State, id: string): (r: State)
    requires Linked(s)
    ensures Linked(r)
  {
    if StopThrows(s, id) then s else Finish(s, id, Rejected(id))
  }

  /** `shutdown` with cancelling: the executions are stopped one after the other; the flag says
      whether it got through. */
  function StopAll(s: State, ids: seq<string>): (r: (State, bool))
    requires Linked(s)
    ensures Linked(r.0)
  {
    if ids == [] then (s, true)
    else
      var (s', ok) := StopAll(s, ids[..|ids| - 1]);
      var id := ids[|ids| - 1];
      if !ok || StopThrows(s', id) then (s', false) else (Stop(s', id), true)
  }

  /** The position of the first waiting ticket of an execution. */
  function FirstWaiting(s: State, id: string, i: nat): (r: Option<nat>)
    requires Linked(s) && i <= |s.waiting|
    ensures r.Some? ==> i <= r.value < |s.waiting| && s.tickets[s.waiting[r.value]].call.id == id
    ensures r.None? ==> forall j :: i <= j < |s.waiting| ==> s.tickets[s.waiting[j]].call.id != id
    decreases |s.waiting| - i
  {
    if i == |s.waiting| then None
    else if s.tickets[s.waiting[i]].call.id == id then Some(i)
    else FirstWaiting(s, id, i + 1)
  }

  /** Taking an execution out of the queue.  Its `add` never returns. */
  function Cancel(s: State, id: string): State
    requires Linked(s)
  {
    var i := FirstWaiting(s, id, 0);
    if !s.enabled || i.None? then s
    else
      var t := s.waiting[i.value];
      ResolveNext(Put(s, t, Cancelled).(
        waiting := s.waiting[..i.value] + s.waiting[i.value + 1..], capacity := s.capacity + 1))
  }

  datatype Event =
    | Begin(call: Call)
    | End(t: nat, ok: bool)
    | NewPromise(id: string)
    | AttachTo(id: string)
    | RemoveOne(id: string, data: string)
    | StopOne(id: string)
    | CancelOne(id: string)
    | Disable

  predicate Enabled(s: State, e: Event) {
    e.End? ==> e.t in s.tickets && s.tickets[e.t].place == Granted
  }

  function Next(s: State, e: Event): State
    requires Linked(s) && Enabled(s, e)
  {
    match e
    case Begin(call) => AddBegin(s, call)
    case End(t, ok) => AddEnd(s, t, ok)
    case NewPromise(id) => GetPromise(s, id)
    case AttachTo(id) => Attach(s, id)
    case RemoveOne(id, data) => Remove(s, id, data)
    case StopOne(id) => Stop(s, id)
    case CancelOne(id) => Cancel(s, id)
    case Disable => s.(enabled := false)
  }

  /** `limit` is the configured number of production executions, -1 for no limit. */
  function Initial(limit: int): State {
    State(limit != -1, limit, limit, [], {}, map[], 0, map[], [], map[], 0, [])
  }
}
