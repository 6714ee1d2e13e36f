/** Registering the webhooks of a workflow (packages/cli/src/active-workflow-manager.ts), over the
    table of stored webhooks (packages/cli/src/webhooks/webhook.service.ts). */
module WebhookRegistration {
  import opened Wrappers

  datatype Key = Key(httpMethod: string, path: string)
  datatype Row = Row(workflowId: string, node: string, webhookId: Option<string>, pathLength: Option<nat>)
  type Table = map<Key, Row>

  /** A webhook listed by a workflow, with the webhook id of its node. */
  datatype Listed = Listed(node: string, httpMethod: string, path: string, nodeWebhookId: Option<string>)

  datatype Failure = Failure(queryFailed: bool, message: string, detail: Option<string>)

  /** What becomes of one webhook: storing the row, or creating the webhook at the external service,
      may fail. */
  datatype Step = Fine | StoreFails(failure: Failure) | CreateFails(failure: Failure)

  datatype Result = Returned | Threw(message: string)

  // ---------------------------------------------------------------- rows

  /** One leading and one trailing slash are dropped. */
  function Trim(path: string): string {
    var p := if |path| > 0 && path[0] == '/' then path[1..] else path;
    if |p| > 0 && p[|p| - 1] == '/' then p[..|p| - 1] else p
  }

  predicate IsDynamic(path: string) {
    (|path| > 0 && path[0] == ':') || exists i :: 0 <= i < |path| - 1 && path[i] == '/' && path[i + 1] == ':'
  }

  function Segments(path: string): nat {
    if path == "" then 1 else Segments(path[1..]) + if path[0] == '/' then 1 else 0
  }

  function KeyOf(hook: Listed): Key { Key(hook.httpMethod, Trim(hook.path)) }

  function RowOf(workflowId: string, hook: Listed): Row {
    if IsDynamic(hook.path) && hook.nodeWebhookId.Some? && hook.nodeWebhookId.value != "" then
      Row(workflowId, hook.node, hook.nodeWebhookId, Some(Segments(Trim(hook.path))))
    else
      Row(workflowId, hook.node, None, None)
  }

  predicate Owns(table: Table, workflowId: string, key: Key) {
    key in table && table[key].workflowId == workflowId
  }

  /** The table without the rows of a workflow. */
  function Cleared(table: Table, workflowId: string): Table {
    map key | key in table && !Owns(table, workflowId, key) :: table[key]
  }

  // ---------------------------------------------------------------- the outcome of addWebhooks

  /** On start-up, a failed query is expected: the row is left over from the previous run. */
  predicate Fatal(step: Step, init: bool) {
    !step.Fine? && !(init && step.failure.queryFailed)
  }

  /** The position of the first failure that ends the registration. */
  function FirstFatal(steps: seq<Step>, init: bool): (n: nat)
    ensures n <= |steps| && (n < |steps| ==> Fatal(steps[n], init))
    ensures forall i :: 0 <= i < n ==> !Fatal(steps[i], init)
  {
    if steps == [] || Fatal(steps[0], init) then 0 else 1 + FirstFatal(steps[1..], init)
  }

  /** The rows written while the first `n` webhooks are processed; the last one of a key stays. */
  function Written(workflowId: string, hooks: seq<Listed>, steps: seq<Step>, n: nat): Table
    requires n <= |hooks| == |steps|
  {
    if n == 0 then map[]
    else if steps[n - 1].StoreFails? then Written(workflowId, hooks, steps, n - 1)
    else Written(workflowId, hooks, steps, n - 1)[KeyOf(hooks[n - 1]) := RowOf(workflowId, hooks[n - 1])]
  }

  function TakenMessage(node: string): string {
    "The URL path that the \"" + node + "\" node uses is already taken. Please change it to something else."
  }

  function MessageOf(failure: Failure, node: string): string {
    if failure.queryFailed then TakenMessage(node)
    else if failure.detail.Some? && failure.detail.value != "" then failure.detail.value
    else failure.message
  }

  /** `tail` is the failure, if any, of filling the cache or saving the static data at the end. */
  function Registration(table: Table, workflowId: string, hooks: seq<Listed>, steps: seq<Step>, init: bool,
                       clears: bool, tail: Option<string>): (r: (Table, Result))
    requires |hooks| == |steps|
  {
    var n := FirstFatal(steps, init);
    if hooks == [] then (table, Returned)
    else if n == |hooks| then
      (table + Written(workflowId, hooks, steps, n), if tail.Some? then Threw(tail.value) else Returned)
    else
      var written := table + Written(workflowId, hooks, steps, n + 1);
      (if clears then Cleared(written, workflowId) else written,
       Threw(MessageOf(steps[n].failure, hooks[n].node)))
  }

  /** `t` has a row, owned by the workflow, for exactly the webhooks that were stored. */
  ghost predicate HoldsStored(t: Table, workflowId: string, hooks: seq<Listed>, steps: seq<Step>, n: nat)
    requires n <= |hooks| == |steps|
  {
    && (forall i :: 0 <= i < n && !steps[i].StoreFails? ==> KeyOf(hooks[i]) in t)
    && (forall key :: key in t ==> Owns(t, workflowId, key))
    && (forall key :: key in t ==> exists i :: 0 <= i < n && !steps[i].StoreFails? && KeyOf(hooks[i]) == key)
  }

  lemma {:induction false} WrittenKeys(workflowId: string, hooks: seq<Listed>, steps: seq<Step>, n: nat)
    requires n <= |hooks| == |steps|
    ensures HoldsStored(Written(workflowId, hooks, steps, n), workflowId, hooks, steps, n)
  {
    hide KeyOf, RowOf;
    if n > 0 {
      WrittenKeys(workflowId, hooks, steps, n - 1);
      RowOwner(workflowId, hooks[n - 1]);
    }
  }

  lemma RowOwner(workflowId: string, hook: Listed)
    ensures RowOf(workflowId, hook).workflowId == workflowId
  {
  }

  lemma WrittenStep(table: Table, workflowId: string, hooks: seq<Listed>, steps: seq<Step>, i: nat)
    requires i < |hooks| == |steps|
    ensures table + Written(workflowId, hooks, steps, 0) == table
    ensures table + Written(workflowId, hooks, steps, i + 1) ==
            var before := table + Written(workflowId, hooks, steps, i);
            if steps[i].StoreFails? then before else before[KeyOf(hooks[i]) := RowOf(workflowId, hooks[i])]
  {
    hide KeyOf, RowOf;
  }

  // ---------------------------------------------------------------- the source's procedure

  class WebhookService {
    var rows: Table

    constructor ()
      ensures rows == map[]
    {
      rows := map[];
    }

    /** An upsert: a row with the same method and path is replaced, whoever owns it. */
    method StoreWebhook(key: Key, row: Row)
      modifies this
      ensures rows == old(rows)[key := row]
    {
      rows := rows[key := row];
    }

    method CreateWebhook(workflowId: string, hook: Listed) returns (key: Key, row: Row)
      ensures key == KeyOf(hook) && row == RowOf(workflowId, hook)
    {
      var path := hook.path;
      if |path| > 0 && path[0] == '/' {
        path := path[1..];
      }
      if |path| > 0 && path[|path| - 1] == '/' {
        path := path[..|path| - 1];
      }
      key, row := Key(hook.httpMethod, path), Row(workflowId, hook.node, None, None);
      if IsDynamic(hook.path) && hook.nodeWebhookId.Some? && hook.nodeWebhookId.value != "" {
        row := row.(webhookId := hook.nodeWebhookId, pathLength := Some(Segments(path)));
      }
    }

    method DeleteWorkflowWebhooks(workflowId: string)
      modifies this
      ensures rows == Cleared(old(rows), workflowId)
    {
      rows := map key | key in rows && rows[key].workflowId != workflowId :: rows[key];
    }

    /** The catch block: clear up, and choose the error to throw. */
    method Abort(workflowId: string, node: string, error: Failure, clears: bool) returns (message: string)
      modifies this
      ensures rows == if clears then Cleared(old(rows), workflowId) else old(rows)
      ensures message == MessageOf(error, node)
    {
      if clears {
        DeleteWorkflowWebhooks(workflowId);
      }
      message := error.message;
      if error.queryFailed {
        message := TakenMessage(node);
      } else if error.detail.Some? && error.detail.value != "" {
        message := error.detail.value;
      }
    }

    /** `steps` and `clears` say how the external services answer. */
    method AddWebhooks(workflowId: string, hooks: seq<Listed>, steps: seq<Step>, init: bool,
                       clears: bool, tail: Option<string>) returns (result: Result)
      requires |hooks| == |steps|
      modifies this
      ensures (rows, result) == Registration(old(rows), workflowId, hooks, steps, init, clears, tail)
    {
      hide KeyOf, RowOf, Written, FirstFatal, Cleared, MessageOf;
      if |hooks| == 0 {
        return Returned;
      }
      WrittenStep(rows, workflowId, hooks, steps, 0);
      for i := 0 to |hooks|
        invariant i <= FirstFatal(steps, init)
        invariant rows == old(rows) + Written(workflowId, hooks, steps, i)
      {
        var hook := hooks[i];
        var key, row := CreateWebhook(workflowId, hook);
        if !steps[i].StoreFails? {
          StoreWebhook(key, row);
        }
        WrittenStep(old(rows), workflowId, hooks, steps, i);
        if !steps[i].Fine? {
          var error := steps[i].failure;
          if init && error.queryFailed {
            continue;
          }
          var message := Abort(workflowId, hook.node, error, clears);
          return Threw(message);
        }
      }
      if tail.Some? {
        return Threw(tail.value);
      }
      return Returned;
    }
  }

  // ---------------------------------------------------------------- what it promises

  /** The row left under a key is the one of the last webhook with that key that was stored. */
  lemma {:induction false} WrittenIsLast(workflowId: string, hooks: seq<Listed>, steps: seq<Step>, n: nat, i: nat)
    requires i < n <= |hooks| == |steps| && !steps[i].StoreFails?
    requires forall j :: i < j < n && KeyOf(hooks[j]) == KeyOf(hooks[i]) ==> steps[j].StoreFails?
    ensures KeyOf(hooks[i]) in Written(workflowId, hooks, steps, n)
    ensures Written(workflowId, hooks, steps, n)[KeyOf(hooks[i])] == RowOf(workflowId, hooks[i])
  {
    if i < n - 1 {
      WrittenIsLast(workflowId, hooks, steps, n - 1, i);
    }
  }

  /** A normal return outside start-up: every listed webhook is stored under its trimmed path. */
  lemma ReturnStoresAll(table: Table, workflowId: string, hooks: seq<Listed>, steps: seq<Step>, clears: bool,
                        tail: Option<string>)
    requires |hooks| == |steps|
    requires Registration(table, workflowId, hooks, steps, false, clears, tail).1.Returned?
    ensures var after := Registration(table, workflowId, hooks, steps, false, clears, tail).0;
            forall i :: 0 <= i < |hooks| ==>
              && Owns(after, workflowId, KeyOf(hooks[i]))
              && ((forall j :: i < j < |hooks| ==> KeyOf(hooks[j]) != KeyOf(hooks[i])) ==>
                    after[KeyOf(hooks[i])] == RowOf(workflowId, hooks[i]))
  {
    hide KeyOf, RowOf;
    var after, n := Registration(table, workflowId, hooks, steps, false, clears, tail).0, |hooks|;
    WrittenKeys(workflowId, hooks, steps, n);
    forall i | 0 <= i < n
      ensures Owns(after, workflowId, KeyOf(hooks[i]))
      ensures (forall j :: i < j < n ==> KeyOf(hooks[j]) != KeyOf(hooks[i])) ==>
                after[KeyOf(hooks[i])] == RowOf(workflowId, hooks[i])
    {
      assert !Fatal(steps[i], false);
      if forall j :: i < j < n ==> KeyOf(hooks[j]) != KeyOf(hooks[i]) {
        WrittenIsLast(workflowId, hooks, steps, n, i);
      }
    }
  }

  /** A throw leaves none of the workflow's webhooks stored, unless clearing up failed too, or the
      throw came after the last webhook: then there is no clearing up. */
  lemma ThrowLeavesNothing(table: Table, workflowId: string, hooks: seq<Listed>, steps: seq<Step>, init: bool,
                           clears: bool, tail: Option<string>)
    requires |hooks| == |steps|
    requires Registration(table, workflowId, hooks, steps, init, clears, tail).1.Threw?
    ensures var n := FirstFatal(steps, init);
            OwnsNone(Registration(table, workflowId, hooks, steps, init, clears, tail).0, workflowId) <==>
            (n < |hooks| && clears)
            || (StoresNone(steps, if n < |hooks| then n + 1 else n) && OwnsNone(table, workflowId))
  {
    hide Written, FirstFatal, Fatal, MessageOf, StoresNone;
    var n := FirstFatal(steps, init);
    NoneOwnedIff(table, workflowId, hooks, steps, if n < |hooks| then n + 1 else n);
  }

  ghost predicate OwnsNone(table: Table, workflowId: string) {
    forall key :: !Owns(table, workflowId, key)
  }

  ghost predicate StoresNone(steps: seq<Step>, n: nat)
    requires n <= |steps|
  {
    forall i :: 0 <= i < n ==> steps[i].StoreFails?
  }

  lemma NoneOwnedIff(table: Table, workflowId: string, hooks: seq<Listed>, steps: seq<Step>, m: nat)
    requires m <= |hooks| == |steps|
    ensures OwnsNone(table + Written(workflowId, hooks, steps, m), workflowId) <==>
            StoresNone(steps, m) && OwnsNone(table, workflowId)
  {
    hide KeyOf, RowOf;
    WrittenKeys(workflowId, hooks, steps, m);
    var written := Written(workflowId, hooks, steps, m);
    var both := table + written;
    if OwnsNone(both, workflowId) {
      forall i | 0 <= i < m ensures steps[i].StoreFails? {
        assert !Owns(both, workflowId, KeyOf(hooks[i]));
      }
      forall key ensures !Owns(table, workflowId, key) {
        assert !Owns(both, workflowId, key) && !Owns(written, workflowId, key);
      }
    }
    if StoresNone(steps, m) && OwnsNone(table, workflowId) {
      forall key ensures !Owns(both, workflowId, key) {
        assert !Owns(table, workflowId, key);
      }
    }
  }

  /** The keys written before the outcome was decided. */
  function Touched(workflowId: string, hooks: seq<Listed>, steps: seq<Step>, init: bool): set<Key>
    requires |hooks| == |steps|
  {
    var n := FirstFatal(steps, init);
    Written(workflowId, hooks, steps, if n < |hooks| then n + 1 else n).Keys
  }

  ghost predicate Untouched(table: Table, after: Table, other: string) {
    forall key :: Owns(table, other, key) ==> key in after && after[key] == table[key]
  }

  /** The webhooks of another workflow are untouched exactly when none of them has a method and
      trimmed path that was written: storing is an upsert and does not look at the owner. */
  lemma OthersUntouchedIff(table: Table, workflowId: string, other: string, hooks: seq<Listed>, steps: seq<Step>,
                           init: bool, clears: bool, tail: Option<string>)
    requires |hooks| == |steps| && other != workflowId
    ensures Untouched(table, Registration(table, workflowId, hooks, steps, init, clears, tail).0, other) <==>
            (forall key :: Owns(table, other, key) ==> key !in Touched(workflowId, hooks, steps, init))
  {
    assert Untouched(table, table, other) && Written(workflowId, hooks, steps, 0) == map[];
    hide KeyOf, RowOf, Written, FirstFatal, MessageOf, HoldsStored, Cleared, Owns, Untouched;
    var n := FirstFatal(steps, init);
    var m := if n < |hooks| then n + 1 else n;
    WrittenOwned(workflowId, hooks, steps, m);
    UpsertTouches(table, Written(workflowId, hooks, steps, m), workflowId, other);
  }

  lemma WrittenOwned(workflowId: string, hooks: seq<Listed>, steps: seq<Step>, n: nat)
    requires n <= |hooks| == |steps|
    ensures forall key :: key in Written(workflowId, hooks, steps, n) ==>
            Owns(Written(workflowId, hooks, steps, n), workflowId, key)
  {
    WrittenKeys(workflowId, hooks, steps, n);
  }

  lemma UpsertTouches(table: Table, written: Table, workflowId: string, other: string)
    requires other != workflowId && forall key :: key in written ==> Owns(written, workflowId, key)
    ensures Untouched(table, table + written, other) <==> (forall key :: Owns(table, other, key) ==> key !in written)
    ensures Untouched(table, Cleared(table + written, workflowId), other) <==> Untouched(table, table + written, other)
  {
    var after := table + written;
    forall key | Owns(table, other, key)
      ensures key in written <==> !(key in after && after[key] == table[key])
      ensures key in Cleared(after, workflowId) && Cleared(after, workflowId)[key] == table[key] <==>
              key in after && after[key] == table[key]
    {
      assert key in written ==> Owns(written, workflowId, key);
    }
  }

  // ---------------------------------------------------------------- where it fails

  /** A failure after the last webhook, of filling the cache or of saving, leaves the webhooks of a workflow that
      could not be registered. */
  lemma LateFailureLeavesRows(workflowId: string, hook: Listed, message: string)
    ensures var (after, result) := Registration(map[], workflowId, [hook], [Fine], false, true, Some(message));
            result == Threw(message) && Owns(after, workflowId, KeyOf(hook))
  {
    hide KeyOf, RowOf;
    RowOwner(workflowId, hook);
    assert FirstFatal([Fine], false) == 1;
    assert Written(workflowId, [hook], [Fine], 0) == map[];
    assert KeyOf(hook) in Written(workflowId, [hook], [Fine], 1);
  }

  /** A workflow that lists a webhook of another one takes its row, and when it then fails, clears it: neither has
      the webhook. */
  lemma StolenAndCleared(workflowId: string, other: string, hook: Listed, failure: Failure)
    requires workflowId != other
    ensures var table := map[KeyOf(hook) := RowOf(other, hook)];
            && Owns(table, other, KeyOf(hook))
            && Owns(Registration(table, workflowId, [hook], [Fine], false, true, None).0, workflowId, KeyOf(hook))
            && Registration(table, workflowId, [hook], [CreateFails(failure)], false, true, None).0 == map[]
  {
    hide KeyOf, RowOf, MessageOf;
    RowOwner(workflowId, hook);
    RowOwner(other, hook);
    assert FirstFatal([Fine], false) == 1 && FirstFatal([CreateFails(failure)], false) == 0;
    assert Written(workflowId, [hook], [Fine], 0) == map[];
    assert Written(workflowId, [hook], [CreateFails(failure)], 0) == map[];
    var written := Written(workflowId, [hook], [CreateFails(failure)], 1);
    assert written == map[KeyOf(hook) := RowOf(workflowId, hook)];
    var both := map[KeyOf(hook) := RowOf(other, hook)] + written;
    assert both.Keys == {KeyOf(hook)} && Owns(both, workflowId, KeyOf(hook));
    assert Cleared(both, workflowId) == map[];
  }
}
