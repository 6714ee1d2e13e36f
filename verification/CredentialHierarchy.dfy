/** The inheritance of credential types (packages/cli/src/credential-types.ts).

    `getParentTypes` pushes onto the very `extends` array it walks, so the arrays grow with every
    call.  What a caller can rely on is the list with later duplicates dropped. */
module CredentialHierarchy {
  import opened Wrappers

  /** The `extends` lists as the credential classes declare them; `rank` witnesses that no type is
      its own ancestor. */
  datatype Hierarchy = Hierarchy(parents: map<string, seq<string>>, rank: string -> nat) {
    function Parents(t: string): seq<string> {
      if t in parents then parents[t] else []
    }

    ghost predicate Acyclic() {
      forall t, i :: 0 <= i < |Parents(t)| ==> rank(Parents(t)[i]) < rank(t)
    }

    /** The plain recursion over the declared lists. */
    function Ancestors(t: string): seq<string>
      requires Acyclic()
      decreases rank(t), |Parents(t)| + 1
    {
      Parents(t) + AncestorsVia(t, |Parents(t)|)
    }

    /** The ancestors reached through the first `n` parents. */
    function AncestorsVia(t: string, n: nat): seq<string>
      requires Acyclic() && n <= |Parents(t)|
      decreases rank(t), n
    {
      if n == 0 then [] else AncestorsVia(t, n - 1) + Ancestors(Parents(t)[n - 1])
    }
  }

  /** The list with later duplicates dropped. */
  function Deduplicated(s: seq<string>): (d: seq<string>)
    ensures forall x :: x in d <==> x in s
  {
    if s == [] then []
    else
      var d := Deduplicated(s[..|s| - 1]);
      assert s == s[..|s| - 1] + [s[|s| - 1]];
      if s[|s| - 1] in d then d else d + [s[|s| - 1]]
  }

  lemma DeduplicatedSnoc(s: seq<string>, x: string)
    ensures Deduplicated(s + [x]) == if x in s then Deduplicated(s) else Deduplicated(s) + [x]
  {
    assert (s + [x])[..|s|] == s;
  }

  lemma {:induction false} DeduplicatedLeft(a: seq<string>, a': seq<string>, b: seq<string>)
    requires Deduplicated(a) == Deduplicated(a')
    ensures Deduplicated(a + b) == Deduplicated(a' + b)
  {
    if b == [] {
      assert a + b == a && a' + b == a';
    } else {
      var c, x := b[..|b| - 1], b[|b| - 1];
      assert a + b == (a + c) + [x] && a' + b == (a' + c) + [x];
      DeduplicatedLeft(a, a', c);
      DeduplicatedSnoc(a + c, x);
      DeduplicatedSnoc(a' + c, x);
    }
  }

  lemma {:induction false} DeduplicatedRight(a: seq<string>, b: seq<string>)
    ensures Deduplicated(a + b) == Deduplicated(a + Deduplicated(b))
  {
    if b != [] {
      var c, x := b[..|b| - 1], b[|b| - 1];
      assert a + b == (a + c) + [x] && b == c + [x];
      DeduplicatedRight(a, c);
      DeduplicatedSnoc(c, x);
      DeduplicatedSnoc(a + c, x);
      DeduplicatedSnoc(a + Deduplicated(c), x);
      assert a + (Deduplicated(c) + [x]) == (a + Deduplicated(c)) + [x];
    }
  }

  lemma DeduplicatedConcat(a: seq<string>, a': seq<string>, b: seq<string>, b': seq<string>)
    requires Deduplicated(a) == Deduplicated(a') && Deduplicated(b) == Deduplicated(b')
    ensures Deduplicated(a + b) == Deduplicated(a' + b')
  {
    DeduplicatedLeft(a, a', b);
    DeduplicatedRight(a', b);
    DeduplicatedRight(a', b');
  }

  lemma {:induction false} DeduplicatedAbsorbs(a: seq<string>, b: seq<string>)
    requires forall x :: x in b ==> x in a
    ensures Deduplicated(a + b) == Deduplicated(a)
  {
    if b == [] {
      assert a + b == a;
    } else {
      var c, x := b[..|b| - 1], b[|b| - 1];
      assert a + b == (a + c) + [x];
      DeduplicatedAbsorbs(a, c);
      DeduplicatedSnoc(a + c, x);
    }
  }

  /** What ancestry reaches: a parent, or an ancestor of a parent. */
  lemma {:induction false} AncestorsViaMember(h: Hierarchy, t: string, n: nat, a: string)
    requires h.Acyclic() && n <= |h.Parents(t)|
    ensures a in h.AncestorsVia(t, n) <==> exists i :: 0 <= i < n && a in h.Ancestors(h.Parents(t)[i])
  {
    if n > 0 {
      AncestorsViaMember(h, t, n - 1, a);
    }
  }

  lemma {:induction false} AncestorsBelow(h: Hierarchy, t: string, a: string)
    requires h.Acyclic() && a in h.Ancestors(t)
    ensures h.rank(a) < h.rank(t)
    decreases h.rank(t)
  {
    if a !in h.Parents(t) {
      AncestorsViaMember(h, t, |h.Parents(t)|, a);
      var i :| 0 <= i < |h.Parents(t)| && a in h.Ancestors(h.Parents(t)[i]);
      AncestorsBelow(h, h.Parents(t)[i], a);
    }
  }

  lemma {:induction false} AncestorsTransitive(h: Hierarchy, t: string, a: string, b: string)
    requires h.Acyclic() && a in h.Ancestors(t) && b in h.Ancestors(a)
    ensures b in h.Ancestors(t)
    decreases h.rank(t)
  {
    var n := |h.Parents(t)|;
    AncestorsViaMember(h, t, n, b);
    if a !in h.Parents(t) {
      AncestorsViaMember(h, t, n, a);
      var i :| 0 <= i < n && a in h.Ancestors(h.Parents(t)[i]);
      AncestorsTransitive(h, h.Parents(t)[i], a, b);
    }
  }

  /** `list` starts with the declared parents of `t`, and goes on with ancestors of them. */
  ghost predicate Rooted(h: Hierarchy, t: string, list: seq<string>)
    requires h.Acyclic()
  {
    && h.Parents(t) <= list
    && forall i :: |h.Parents(t)| <= i < |list| ==> list[i] in h.AncestorsVia(t, |h.Parents(t)|)
  }

  /** Ancestors of an element of such a list may follow in it. */
  lemma RootedFollows(h: Hierarchy, t: string, list: seq<string>, i: nat, a: string)
    requires h.Acyclic() && Rooted(h, t, list) && i < |list| && a in h.Ancestors(list[i])
    ensures a in h.AncestorsVia(t, |h.Parents(t)|)
  {
    hide Hierarchy.Ancestors;
    var n := |h.Parents(t)|;
    AncestorsViaMember(h, t, n, a);
    if i < n {
      assert list[i] == h.Parents(t)[i];
    } else {
      AncestorsViaMember(h, t, n, list[i]);
      var j :| 0 <= j < n && list[i] in h.Ancestors(h.Parents(t)[j]);
      AncestorsTransitive(h, h.Parents(t)[j], list[i], a);
    }
  }

  lemma RootedBelow(h: Hierarchy, t: string, list: seq<string>, i: nat)
    requires h.Acyclic() && Rooted(h, t, list) && i < |list|
    ensures h.rank(list[i]) < h.rank(t)
    ensures i >= |h.Parents(t)| ==> exists j :: 0 <= j < |h.Parents(t)| && h.rank(list[i]) < h.rank(h.Parents(t)[j])
  {
    hide Hierarchy.Ancestors;
    var n := |h.Parents(t)|;
    if i < n {
      assert list[i] == h.Parents(t)[i];
    } else {
      AncestorsViaMember(h, t, n, list[i]);
      var j :| 0 <= j < n && list[i] in h.Ancestors(h.Parents(t)[j]);
      AncestorsBelow(h, h.Parents(t)[j], list[i]);
    }
  }

  /** `list` is the `extends` array of `t` during a call that found `start` in it, after the first
      `i` elements have been walked. */
  ghost predicate Grown(h: Hierarchy, t: string, start: seq<string>, list: seq<string>, i: nat)
    requires h.Acyclic()
  {
    && start <= list && Rooted(h, t, list)
    && if start == h.Parents(t)
       then i <= |start| && Deduplicated(list) == Deduplicated(start + h.AncestorsVia(t, i))
       else Deduplicated(start) == Deduplicated(list) == Deduplicated(h.Ancestors(t))
  }

  lemma GrownStart(h: Hierarchy, t: string, start: seq<string>)
    requires h.Acyclic()
    requires Rooted(h, t, start)
    requires start == h.Parents(t) || Deduplicated(start) == Deduplicated(h.Ancestors(t))
    ensures Grown(h, t, start, start, 0)
    ensures forall x :: x in start ==> h.rank(x) < h.rank(t)
  {
    assert start + [] == start;
    forall x | x in start ensures h.rank(x) < h.rank(t) {
      var i :| 0 <= i < |start| && start[i] == x;
      RootedBelow(h, t, start, i);
    }
  }

  lemma GrownPrefix(h: Hierarchy, t: string, start: seq<string>, list: seq<string>, i: nat)
    requires h.Acyclic() && i < |start| && Grown(h, t, start, list, i)
    ensures i < |list| && list[i] == start[i]
  {
  }

  lemma GrownEnd(h: Hierarchy, t: string, start: seq<string>, list: seq<string>)
    requires h.Acyclic() && Grown(h, t, start, list, |start|)
    ensures Rooted(h, t, list) && Deduplicated(list) == Deduplicated(h.Ancestors(t))
  {
  }

  /** Pushing what the call for element `i` returned. */
  lemma GrownStep(h: Hierarchy, t: string, start: seq<string>, list: seq<string>, i: nat, more: seq<string>)
    requires h.Acyclic() && i < |start| && Grown(h, t, start, list, i)
    requires Deduplicated(more) == Deduplicated(h.Ancestors(start[i]))
    ensures Grown(h, t, start, list + more, i + 1)
  {
    hide Deduplicated, Hierarchy.Ancestors;
    forall x | x in more ensures x in h.AncestorsVia(t, |h.Parents(t)|) {
      assert x in Deduplicated(more) && list[i] == start[i];
      RootedFollows(h, t, list, i, x);
    }
    if start == h.Parents(t) {
      DeduplicatedConcat(list, start + h.AncestorsVia(t, i), more, h.Ancestors(start[i]));
      assert (start + h.AncestorsVia(t, i)) + h.Ancestors(start[i]) == start + h.AncestorsVia(t, i + 1);
    } else {
      forall x | x in more ensures x in list {
        assert x in Deduplicated(more) && start[i] in Deduplicated(start);
        AncestorsTransitive(h, t, start[i], x);
        assert x in Deduplicated(list);
      }
      DeduplicatedAbsorbs(list, more);
    }
  }

  /** The `extends` arrays of the known types, by type. */
  type Lists = map<string, seq<string>>

  function ListOf(lists: Lists, t: string): seq<string> {
    if t in lists then lists[t] else []
  }

  /** An array has either not grown, or lists the ancestors, up to repetition; what was pushed are
      ancestors of the declared parents. */
  ghost predicate Settled(h: Hierarchy, lists: Lists, t: string)
    requires h.Acyclic()
  {
    Rooted(h, t, ListOf(lists, t))
    && (ListOf(lists, t) == h.Parents(t) || Deduplicated(ListOf(lists, t)) == Deduplicated(h.Ancestors(t)))
  }

  /** Every type ranked below `bound` is settled. */
  ghost predicate SettledBelow(h: Hierarchy, lists: Lists, bound: nat)
    requires h.Acyclic()
  {
    forall u :: h.rank(u) < bound ==> Settled(h, lists, u)
  }

  /** From `bound` on, only the array of `except` may differ. */
  ghost predicate SameFrom(h: Hierarchy, lists: Lists, lists': Lists, bound: nat, except: string) {
    forall u :: u != except && h.rank(u) >= bound ==> ListOf(lists, u) == ListOf(lists', u)
  }

  lemma Untouched(h: Hierarchy, lists: Lists, t: string)
    requires h.Acyclic() && lists.Keys == h.parents.Keys
    ensures SameFrom(h, lists, lists, h.rank(t), t)
    ensures t !in lists ==> h.Ancestors(t) == []
  {
  }

  lemma SettledLower(h: Hierarchy, lists: Lists, bound: nat, t: string)
    requires h.Acyclic() && SettledBelow(h, lists, bound) && h.rank(t) < bound
    ensures SettledBelow(h, lists, h.rank(t)) && Settled(h, lists, t)
  {
  }

  /** The frame of one step of the walk: a call for `parent`, then a push onto the array of `t`. */
  lemma FrameStep(h: Hierarchy, lists0: Lists, lists1: Lists, lists2: Lists, t: string, parent: string,
                  list: seq<string>)
    requires h.Acyclic() && h.rank(parent) < h.rank(t)
    requires SameFrom(h, lists0, lists1, h.rank(t), t) && SettledBelow(h, lists1, h.rank(t))
    requires SameFrom(h, lists1, lists2, h.rank(parent), parent)
    requires SettledBelow(h, lists2, h.rank(parent)) && Settled(h, lists2, parent)
    ensures SameFrom(h, lists0, lists2[t := list], h.rank(t), t)
    ensures SettledBelow(h, lists2[t := list], h.rank(t))
    ensures ListOf(lists2, t) == ListOf(lists1, t)
  {
    hide Deduplicated;
    forall u | h.rank(u) < h.rank(t) ensures Settled(h, lists2[t := list], u) {
      if u != parent && h.rank(u) >= h.rank(parent) {
        assert Settled(h, lists1, u);
      }
    }
  }

  /** A call leaves every array settled if it found every array settled. */
  lemma SettledAfterCall(h: Hierarchy, lists: Lists, lists': Lists, t: string)
    requires h.Acyclic() && forall u :: Settled(h, lists, u)
    requires SettledBelow(h, lists', h.rank(t)) && Settled(h, lists', t) && SameFrom(h, lists, lists', h.rank(t), t)
    ensures forall u :: Settled(h, lists', u)
  {
    hide Deduplicated;
    forall u ensures Settled(h, lists', u) {
      assert Settled(h, lists, u);
    }
  }

  /** The registry of credential types.  `lists[t]` is the current content of the `extends` array of
      the known type `t`; `declared` is what loading the class of a known type yields.  The class of a
      `shared` type has that very array, because its loader put it into the table of known types. */
  class CredentialTypes {
    ghost const h: Hierarchy
    const declared: map<string, Option<seq<string>>>
    const shared: set<string>
    var lists: Lists
    var loaded: map<string, Option<seq<string>>>

    constructor (ghost h: Hierarchy, declared: map<string, Option<seq<string>>>, shared: set<string>,
                 lists: Lists, loaded: map<string, Option<seq<string>>>)
      requires h.Acyclic() && lists == h.parents
      ensures this.h == h && this.declared == declared && this.shared == shared
      ensures this.lists == lists && this.loaded == loaded
      ensures Valid()
    {
      this.h, this.declared, this.shared, this.lists, this.loaded := h, declared, shared, lists, loaded;
    }

    ghost predicate Valid()
      reads this
    {
      && h.Acyclic() && lists.Keys == h.parents.Keys
      && forall t :: Settled(h, lists, t)
    }

    /** The `extends` property of the class of each recognised type. */
    function Extends(): map<string, Option<seq<string>>>
      reads this
    {
      map t | t in declared.Keys + loaded.Keys :: BasesOf(t, if t in loaded then loaded[t] else declared[t])
    }

    /** The content of the `extends` array of a loaded class. */
    function BasesOf(t: string, bases: Option<seq<string>>): Option<seq<string>>
      reads this
    {
      if t in shared && t in lists then Some(lists[t]) else bases
    }

    predicate Recognizes(t: string)
      reads this
    {
      t in declared || t in loaded
    }

    /** Lazy loading: it never changes what is recognised, nor the declared parents of any type. */
    method GetByName(t: string) returns (bases: Option<Option<seq<string>>>)
      modifies this`loaded
      ensures Extends() == old(Extends())
      ensures bases == if old(Recognizes(t)) then Some(Extends()[t]) else None
      ensures bases.Some? ==> t in loaded
    {
      if t in loaded {
        return Some(BasesOf(t, loaded[t]));
      }
      if t in declared {
        loaded := loaded[t := declared[t]];
        return Some(BasesOf(t, loaded[t]));
      }
      return None;
    }

    method GetParentTypes(t: string) returns (types: seq<string>)
      requires h.Acyclic() && lists.Keys == h.parents.Keys
      requires SettledBelow(h, lists, h.rank(t)) && Settled(h, lists, t)
      modifies this`lists
      ensures lists.Keys == h.parents.Keys
      ensures SettledBelow(h, lists, h.rank(t)) && Settled(h, lists, t)
      ensures SameFrom(h, old(lists), lists, h.rank(t), t)
      ensures types == ListOf(lists, t) && Deduplicated(types) == Deduplicated(h.Ancestors(t))
      decreases h.rank(t)
    {
      hide Deduplicated, Grown, SettledBelow, SameFrom, Hierarchy.Ancestors;
      Untouched(h, lists, t);
      if t !in lists {
        return [];
      }
      ghost var start := lists[t];
      GrownStart(h, t, start);
      var n := |lists[t]|;
      for i := 0 to n
        invariant lists.Keys == h.parents.Keys && n == |start|
        invariant SettledBelow(h, lists, h.rank(t))
        invariant SameFrom(h, old(lists), lists, h.rank(t), t)
        invariant Grown(h, t, start, lists[t], i)
      {
        ghost var before := lists;
        GrownPrefix(h, t, start, lists[t], i);
        SettledLower(h, lists, h.rank(t), start[i]);
        var more := GetParentTypes(lists[t][i]);
        FrameStep(h, old(lists), before, lists, t, start[i], lists[t] + more);
        GrownStep(h, t, start, lists[t], i, more);
        lists := lists[t := lists[t] + more];
      }
      GrownEnd(h, t, start, lists[t]);
      types := lists[t];
    }
  }
}
