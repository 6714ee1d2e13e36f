/** What registering webhooks stores and answers, said of the paths as they are spelled, of the single failures
    and of the rows of the table. */
module WebhookRegistrationRows {
  import opened Wrappers
  import opened WebhookRegistration

  // ---------------------------------------------------------------- paths

  predicate Leads(path: string) { path != "" && path[0] == '/' }

  predicate Trails(path: string) { path != "" && path[|path| - 1] == '/' }

  /** `path` is `q` with a slash more in front, at the end, at both ends, or at none. */
  predicate Spells(path: string, q: string) {
    || (path == q && !Leads(q) && !Trails(q))
    || (path == "/" + q && !Trails(q))
    || (path == q + "/" && !Leads(q))
    || path == "/" + q + "/"
  }

  /** Every path is trimmed to the one text it spells. */
  lemma TrimIff(path: string, q: string)
    ensures Trim(path) == q <==> Spells(path, q)
  {
    hide Trim, Spells;
    if Spells(path, q) {
      SpelledIsTrimmed(path, q);
    } else {
      TrimmedIsSpelled(path);
    }
  }

  lemma SpelledIsTrimmed(path: string, q: string)
    requires Spells(path, q)
    ensures Trim(path) == q
  {
    if path == "/" + q && !Trails(q) {
      assert path[1..] == q;
    } else if path == "/" + q + "/" {
      assert path[1..] == q + "/" && (q + "/")[..|q|] == q;
    } else if path == q + "/" {
      assert path[..|q|] == q && path[1..] == if q == "" then "" else q[1..] + "/";
    }
  }

  lemma TrimmedIsSpelled(path: string)
    ensures Spells(path, Trim(path))
  {
    var p := if Leads(path) then path[1..] else path;
    assert path == if Leads(path) then "/" + p else p;
    if Trails(p) {
      var q := p[..|p| - 1];
      assert p == q + "/" && "/" + p == "/" + q + "/";
    }
  }

  /** Some segment of the path begins with a colon. */
  ghost predicate HasParameter(path: string) {
    exists a, b :: path == a + ":" + b && (a == "" || Trails(a))
  }

  lemma DynamicIff(path: string)
    ensures IsDynamic(path) <==> HasParameter(path)
  {
    hide HasParameter;
    if IsDynamic(path) {
      if path != "" && path[0] == ':' {
        ParameterAt(path, 0);
      } else {
        var i :| 0 <= i < |path| - 1 && path[i] == '/' && path[i + 1] == ':';
        ParameterAt(path, i + 1);
      }
    }
    hide IsDynamic;
    if HasParameter(path) {
      ParameterIsDynamic(path);
    }
  }

  lemma ParameterAt(path: string, i: nat)
    requires i < |path| && path[i] == ':' && (i == 0 || path[i - 1] == '/')
    ensures HasParameter(path)
  {
    var a, b := path[..i], path[i + 1..];
    assert path == a + ":" + b;
    assert a == "" || Trails(a);
  }

  lemma ParameterIsDynamic(path: string)
    requires HasParameter(path)
    ensures IsDynamic(path)
  {
    var a, b :| path == a + ":" + b && (a == "" || Trails(a));
    assert path[|a|] == ':';
    if a != "" {
      assert path[|a| - 1] == '/';
    }
  }

  function Joined(parts: seq<string>): string {
    if parts == [] then "" else if |parts| == 1 then parts[0] else parts[0] + "/" + Joined(parts[1..])
  }

  lemma {:induction false} NoSlashAhead(part: string, rest: string)
    requires '/' !in part
    ensures Segments(part + rest) == Segments(rest)
  {
    if part == "" {
      assert part + rest == rest;
    } else {
      assert (part + rest)[1..] == part[1..] + rest && (part + rest)[0] == part[0];
      NoSlashAhead(part[1..], rest);
    }
  }

  /** A path has as many segments as slashes join. */
  lemma {:induction false} SegmentsAreParts(parts: seq<string>)
    requires parts != [] && forall p :: p in parts ==> '/' !in p
    ensures Segments(Joined(parts)) == |parts|
  {
    if |parts| == 1 {
      assert parts[0] + "" == parts[0];
      NoSlashAhead(parts[0], "");
    } else {
      SegmentsAreParts(parts[1..]);
      var rest := "/" + Joined(parts[1..]);
      assert parts[0] + "/" + Joined(parts[1..]) == parts[0] + rest && rest[1..] == Joined(parts[1..]);
      NoSlashAhead(parts[0], rest);
    }
  }

  // ---------------------------------------------------------------- one webhook

  /** The webhook goes under this key: its method, and the text that its path spells. */
  predicate StoredUnder(hook: Listed, key: Key) { hook.httpMethod == key.httpMethod && Spells(hook.path, key.path) }

  lemma KeyIff(hook: Listed, key: Key)
    ensures KeyOf(hook) == key <==> StoredUnder(hook, key)
  {
    TrimIff(hook.path, key.path);
  }

  /** The row of a webhook: with the id of its node, when it has one, and its number of segments, for a path with a
      parameter; without either for any other path. */
  ghost predicate RowFor(workflowId: string, hook: Listed, key: Key, row: Row) {
    && row.workflowId == workflowId && row.node == hook.node
    && if HasParameter(hook.path) && hook.nodeWebhookId.Some? && |hook.nodeWebhookId.value| > 0 then
         && row.webhookId == hook.nodeWebhookId && row.pathLength.Some?
         && forall parts :: parts != [] && (forall p :: p in parts ==> '/' !in p) && Joined(parts) == key.path ==>
              row.pathLength.value == |parts|
       else row.webhookId == None && row.pathLength == None
  }

  lemma RowOfIs(workflowId: string, hook: Listed)
    ensures RowFor(workflowId, hook, KeyOf(hook), RowOf(workflowId, hook))
  {
    DynamicIff(hook.path);
    forall parts | parts != [] && (forall p :: p in parts ==> '/' !in p) && Joined(parts) == Trim(hook.path)
      ensures Segments(Trim(hook.path)) == |parts|
    {
      SegmentsAreParts(parts);
    }
    hide Trim, IsDynamic, HasParameter;
  }

  // ---------------------------------------------------------------- a registration

  /** Webhook `i` fails, and start-up does not forgive it. */
  predicate Fails(steps: seq<Step>, init: bool, i: int)
    requires 0 <= i < |steps|
  {
    match steps[i]
    case Fine => false
    case StoreFails(f) => !(init && f.queryFailed)
    case CreateFails(f) => !(init && f.queryFailed)
  }

  /** The first webhook that fails, or the number of webhooks. */
  ghost predicate EndsAt(steps: seq<Step>, init: bool, n: int) {
    && 0 <= n <= |steps| && (n < |steps| ==> Fails(steps, init, n))
    && forall i :: 0 <= i < n ==> !Fails(steps, init, i)
  }

  lemma EndsAtFirstFatal(steps: seq<Step>, init: bool, n: int)
    ensures EndsAt(steps, init, n) <==> n == FirstFatal(steps, init)
  {
    forall i | 0 <= i < |steps| ensures Fails(steps, init, i) <==> Fatal(steps[i], init) {
    }
    hide Fails, Fatal;
  }

  /** What is thrown for a failure of a webhook of this node. */
  ghost predicate Reported(failure: Failure, node: string, message: string) {
    if failure.queryFailed then
      message == "The URL path that the \"" + node
                 + "\" node uses is already taken. Please change it to something else."
    else
      match failure.detail
      case Some(detail) => message == if |detail| > 0 then detail else failure.message
      case None => message == failure.message
  }

  ghost predicate Returns(hooks: seq<Listed>, steps: seq<Step>, init: bool, tail: Option<string>) {
    hooks == [] || (tail == None && forall i :: 0 <= i < |steps| ==> !Fails(steps, init, i))
  }

  ghost predicate Throws(hooks: seq<Listed>, steps: seq<Step>, init: bool, tail: Option<string>, message: string)
    requires |hooks| == |steps|
  {
    || (exists n :: EndsAt(steps, init, n) && n < |steps| && Reported(steps[n].failure, hooks[n].node, message))
    || (EndsAt(steps, init, |steps|) && hooks != [] && tail == Some(message))
  }

  /** A registration returns exactly when no webhook fails but in ways that start-up forgives, and nothing fails
      afterwards; it throws for the first webhook that fails, and otherwise what fails afterwards. */
  lemma ResultIff(table: Table, workflowId: string, hooks: seq<Listed>, steps: seq<Step>, init: bool, clears: bool,
                  tail: Option<string>)
    requires |hooks| == |steps|
    ensures var result := Registration(table, workflowId, hooks, steps, init, clears, tail).1;
            && (result == Returned <==> Returns(hooks, steps, init, tail))
            && forall m :: result == Threw(m) <==> Throws(hooks, steps, init, tail, m)
  {
    var n := FirstFatal(steps, init);
    forall m ensures EndsAt(steps, init, m) <==> m == n { EndsAtFirstFatal(steps, init, m); }
    hide Written, Fatal, FirstFatal, Cleared, Fails, TakenMessage;
    assert EndsAt(steps, init, n);
    if n < |steps| {
      ReportedOnce(steps[n].failure, hooks[n].node);
    }
    hide MessageOf, Reported;
  }

  lemma ReportedOnce(failure: Failure, node: string)
    ensures forall m :: Reported(failure, node, m) <==> m == MessageOf(failure, node)
  {
  }

  /** Webhook `i`, among the first `n`, is the last one that is stored under the key. */
  ghost predicate LastStored(hooks: seq<Listed>, steps: seq<Step>, n: int, key: Key, i: int)
    requires n <= |hooks| == |steps|
  {
    && 0 <= i < n && !steps[i].StoreFails? && StoredUnder(hooks[i], key)
    && forall j :: i < j < n && StoredUnder(hooks[j], key) ==> steps[j].StoreFails?
  }

  ghost predicate NoneStored(hooks: seq<Listed>, steps: seq<Step>, n: int, key: Key)
    requires n <= |hooks| == |steps|
  {
    forall i :: 0 <= i < n && StoredUnder(hooks[i], key) ==> steps[i].StoreFails?
  }

  /** A key has a last webhook that is stored under it, or none. */
  lemma {:induction false} LastOrNone(hooks: seq<Listed>, steps: seq<Step>, n: nat, key: Key) returns (i: int)
    requires n <= |hooks| == |steps|
    ensures NoneStored(hooks, steps, n, key) || LastStored(hooks, steps, n, key, i)
  {
    hide StoredUnder;
    i := n - 1;
    if n > 0 && (steps[n - 1].StoreFails? || !StoredUnder(hooks[n - 1], key)) {
      i := LastOrNone(hooks, steps, n - 1, key);
    }
  }

  /** The table after the first `n` webhooks, key by key. */
  ghost predicate StoresFirst(table: Table, workflowId: string, hooks: seq<Listed>, steps: seq<Step>, n: int,
                              after: Table)
    requires n <= |hooks| == |steps|
  {
    && (forall key, i :: LastStored(hooks, steps, n, key, i) ==>
          key in after && RowFor(workflowId, hooks[i], key, after[key]))
    && (forall key :: NoneStored(hooks, steps, n, key) ==>
          (key in after <==> key in table) && (key in table ==> after[key] == table[key]))
  }

  lemma WrittenStores(table: Table, workflowId: string, hooks: seq<Listed>, steps: seq<Step>, n: nat)
    requires n <= |hooks| == |steps|
    ensures StoresFirst(table, workflowId, hooks, steps, n, table + Written(workflowId, hooks, steps, n))
  {
    var written := Written(workflowId, hooks, steps, n);
    hide StoredUnder, RowFor, Written, LastStored, NoneStored;
    forall key, i | LastStored(hooks, steps, n, key, i)
      ensures key in written && RowFor(workflowId, hooks[i], key, written[key])
    {
      LastIsWritten(workflowId, hooks, steps, n, key, i);
    }
    forall key | NoneStored(hooks, steps, n, key) ensures key !in written {
      NoneIsWritten(workflowId, hooks, steps, n, key);
    }
  }

  lemma LastIsWritten(workflowId: string, hooks: seq<Listed>, steps: seq<Step>, n: nat, key: Key, i: nat)
    requires n <= |hooks| == |steps| && LastStored(hooks, steps, n, key, i)
    ensures var written := Written(workflowId, hooks, steps, n);
            key in written && RowFor(workflowId, hooks[i], key, written[key])
  {
    hide KeyOf, RowOf, StoredUnder, RowFor, Written;
    KeyIff(hooks[i], key);
    forall j | i < j < n && KeyOf(hooks[j]) == KeyOf(hooks[i]) ensures steps[j].StoreFails? {
      KeyIff(hooks[j], key);
    }
    WrittenIsLast(workflowId, hooks, steps, n, i);
    RowOfIs(workflowId, hooks[i]);
  }

  lemma NoneIsWritten(workflowId: string, hooks: seq<Listed>, steps: seq<Step>, n: nat, key: Key)
    requires n <= |hooks| == |steps| && NoneStored(hooks, steps, n, key)
    ensures key !in Written(workflowId, hooks, steps, n)
  {
    hide KeyOf, StoredUnder, Written;
    WrittenKeys(workflowId, hooks, steps, n);
    forall i: nat | i < n && !steps[i].StoreFails? ensures KeyOf(hooks[i]) != key {
      KeyIff(hooks[i], key);
    }
  }

  /** `after` is `table` without the rows of the workflow. */
  ghost predicate LosesRowsOf(table: Table, workflowId: string, after: Table) {
    forall key ::
      && (key in after <==> key in table && table[key].workflowId != workflowId)
      && (key in after ==> after[key] == table[key])
  }

  /** What a registration that ends at `n` leaves: the last webhook stored under a key, in the place of whatever was
      there, up to and with the first one that fails; and when that one is cleared up after, no row of the workflow. */
  ghost predicate Leaves(table: Table, workflowId: string, hooks: seq<Listed>, steps: seq<Step>, clears: bool, n: int,
                         after: Table)
    requires 0 <= n <= |hooks| == |steps|
  {
    if n == |steps| then StoresFirst(table, workflowId, hooks, steps, n, after)
    else if !clears then StoresFirst(table, workflowId, hooks, steps, n + 1, after)
    else exists stored :: StoresFirst(table, workflowId, hooks, steps, n + 1, stored)
                          && LosesRowsOf(stored, workflowId, after)
  }

  lemma RegistrationLeaves(table: Table, workflowId: string, hooks: seq<Listed>, steps: seq<Step>, init: bool,
                           clears: bool, tail: Option<string>)
    requires |hooks| == |steps|
    ensures var after := Registration(table, workflowId, hooks, steps, init, clears, tail).0;
            exists n :: EndsAt(steps, init, n) && Leaves(table, workflowId, hooks, steps, clears, n, after)
  {
    var n := FirstFatal(steps, init);
    EndsAtFirstFatal(steps, init, n);
    hide StoresFirst, FirstFatal, EndsAt, Written, MessageOf;
    if n == |steps| {
      WrittenStores(table, workflowId, hooks, steps, n);
      NothingWritten(table, workflowId, hooks, steps);
    } else {
      WrittenStores(table, workflowId, hooks, steps, n + 1);
      ClearedLoses(table + Written(workflowId, hooks, steps, n + 1), workflowId);
    }
    assert Leaves(table, workflowId, hooks, steps, clears, n,
                  Registration(table, workflowId, hooks, steps, init, clears, tail).0);
  }

  /** A row that is in the table afterwards is one of the workflow, or was there before. */
  lemma LeavesOthers(table: Table, workflowId: string, hooks: seq<Listed>, steps: seq<Step>, clears: bool, n: int,
                     after: Table, key: Key)
    requires 0 <= n <= |hooks| == |steps| && Leaves(table, workflowId, hooks, steps, clears, n, after) && key in after
    ensures after[key].workflowId == workflowId || (key in table && after[key] == table[key])
  {
    var i := LastOrNone(hooks, steps, if n == |steps| then n else n + 1, key);
    hide LastStored, NoneStored;
  }

  lemma NothingWritten(table: Table, workflowId: string, hooks: seq<Listed>, steps: seq<Step>)
    requires |hooks| == |steps|
    ensures table + Written(workflowId, hooks, steps, 0) == table
  {
  }

  /** Deleting the webhooks of a workflow deletes its rows, and no others. */
  lemma ClearedLoses(table: Table, workflowId: string)
    ensures LosesRowsOf(table, workflowId, Cleared(table, workflowId))
  {
  }
}
