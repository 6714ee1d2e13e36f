/** What presetting credential fields promises, for every acyclic hierarchy, every table and every
    order of its keys. */
module CredentialOverwritesTheorems {
  import opened Wrappers
  import opened CredentialHierarchy
  import opened CredentialOverwrites

  /** `v` is the value of `k` at `t`, or at the end of a line of inheritance on which no nearer type
      gives `k`. */
  ghost predicate Inherits(h: Hierarchy, raw: Table, t: string, k: string, v: Value)
    requires h.Acyclic()
    decreases h.rank(t)
  {
    if k in OwnFields(raw, t) then v == raw[t][k]
    else exists i :: 0 <= i < |h.Parents(t)| && Inherits(h, raw, h.Parents(t)[i], k, v)
  }

  ghost predicate AllInherited(h: Hierarchy, raw: Table, t: string, fields: Fields)
    requires h.Acyclic()
  {
    forall k :: k in fields ==> Inherits(h, raw, t, k, fields[k])
  }

  /** Each stored entry lies between the raw entry and what the type inherits. */
  ghost predicate Between(h: Hierarchy, raw: Table, stored: Table)
    requires h.Acyclic()
  {
    && stored.Keys == raw.Keys
    && forall t :: t in stored ==> raw[t].Keys <= stored[t].Keys && AllInherited(h, raw, t, stored[t])
  }

  /** The recognised bases that a class names are parents of its type. */
  ghost predicate Faithful(decl: Declarations, h: Hierarchy) {
    forall t, i :: t in decl && decl[t].Some? && 0 <= i < |decl[t].value| && decl[t].value[i] in decl ==>
      decl[t].value[i] in h.Parents(t)
  }

  /** The `extends` arrays of the classes are as declared, or as `getParentTypes` leaves them. */
  ghost predicate RootedClasses(decl: Declarations, h: Hierarchy)
    requires h.Acyclic()
  {
    forall t :: t in decl && decl[t].Some? ==> Rooted(h, t, decl[t].value)
  }

  lemma RootedRanked(decl: Declarations, h: Hierarchy)
    requires h.Acyclic() && RootedClasses(decl, h)
    ensures Ranked(decl, h.rank)
  {
    forall t, i | t in decl && decl[t].Some? && 0 <= i < |decl[t].value|
      ensures h.rank(decl[t].value[i]) < h.rank(t)
    {
      RootedBelow(h, t, decl[t].value, i);
    }
  }

  // ---------------------------------------------------------------- the table after setData

  /** Only recognised types are marked as resolved. */
  lemma {:induction false} ResolvedIsKnown(decl: Declarations, rank: string -> nat, stored: Table,
                                           resolved: seq<string>, t: string)
    requires Ranked(decl, rank) && forall x :: x in resolved ==> x in decl
    ensures forall x :: x in Resolve(decl, rank, stored, resolved, t).1 ==> x in decl
    decreases rank(t), 1, 0
  {
    if t !in resolved && t in decl && decl[t].Some? {
      ResolvedAreKnown(decl, rank, stored, resolved, t, |decl[t].value|);
    }
  }

  lemma {:induction false} ResolvedAreKnown(decl: Declarations, rank: string -> nat, stored: Table,
                                            resolved: seq<string>, t: string, n: nat)
    requires Ranked(decl, rank) && forall x :: x in resolved ==> x in decl
    requires t in decl && decl[t].Some? && n <= |decl[t].value|
    ensures forall x :: x in ResolveBases(decl, rank, stored, resolved, t, n).1 ==> x in decl
    decreases rank(t), 0, n
  {
    if n > 0 {
      ResolvedAreKnown(decl, rank, stored, resolved, t, n - 1);
      ResolvedIsKnown(decl, rank, stored, ResolveBases(decl, rank, stored, resolved, t, n - 1).1, decl[t].value[n - 1]);
    }
  }

  lemma {:induction false} ResolveInherits(decl: Declarations, h: Hierarchy, raw: Table, stored: Table,
                                           resolved: seq<string>, t: string)
    requires h.Acyclic() && Faithful(decl, h) && Ranked(decl, h.rank) && Between(h, raw, stored)
    requires forall x :: x in resolved ==> x in decl
    ensures var fields := Resolve(decl, h.rank, stored, resolved, t).0;
            fields.Some? ==> AllInherited(h, raw, t, fields.value) && OwnFields(raw, t).Keys <= fields.value.Keys
    decreases h.rank(t), 1, 0
  {
    if t !in resolved && t in decl && decl[t].Some? {
      ResolveBasesInherit(decl, h, raw, stored, resolved, t, |decl[t].value|);
    }
  }

  lemma {:induction false} ResolveBasesInherit(decl: Declarations, h: Hierarchy, raw: Table, stored: Table,
                                               resolved: seq<string>, t: string, n: nat)
    requires h.Acyclic() && Faithful(decl, h) && Ranked(decl, h.rank) && Between(h, raw, stored)
    requires forall x :: x in resolved ==> x in decl
    requires t in decl && decl[t].Some? && n <= |decl[t].value|
    ensures var fields := ResolveBases(decl, h.rank, stored, resolved, t, n).0;
            forall k :: k in fields && k !in OwnFields(raw, t) ==> Inherits(h, raw, t, k, fields[k])
    decreases h.rank(t), 0, n
  {
    if n > 0 {
      ResolveBasesInherit(decl, h, raw, stored, resolved, t, n - 1);
      var resolved1 := ResolveBases(decl, h.rank, stored, resolved, t, n - 1).1;
      ResolvedAreKnown(decl, h.rank, stored, resolved, t, n - 1);
      ResolveInherits(decl, h, raw, stored, resolved1, decl[t].value[n - 1]);
    }
  }

  /** The invariant of `setData`: whatever the memo hands back, the table stays between raw and merged. */
  lemma {:induction false} SettleBetween(decl: Declarations, h: Hierarchy, raw: Table, order: seq<string>, n: nat)
    requires h.Acyclic() && Faithful(decl, h) && Ranked(decl, h.rank)
    requires n <= |order| && forall t :: t in order ==> t in raw
    ensures Between(h, raw, Settle(decl, h.rank, raw, order, n).0)
    ensures forall x :: x in Settle(decl, h.rank, raw, order, n).1 ==> x in decl
  {
    if n > 0 {
      SettleBetween(decl, h, raw, order, n - 1);
      var (stored, resolved) := Settle(decl, h.rank, raw, order, n - 1);
      ResolvedIsKnown(decl, h.rank, stored, resolved, order[n - 1]);
      ResolveInherits(decl, h, raw, stored, resolved, order[n - 1]);
    }
  }

  // ---------------------------------------------------------------- the answer of get

  lemma {:induction false} ViaInherits(h: Hierarchy, raw: Table, stored: Table, t: string, n: nat, k: string)
    requires h.Acyclic() && Between(h, raw, stored) && n <= |h.Parents(t)|
    requires k !in OwnFields(raw, t)
    requires forall i :: 0 <= i < n ==> k !in OwnFields(stored, h.Parents(t)[i])
    requires k in Layered(stored, h.AncestorsVia(t, n))
    ensures Inherits(h, raw, t, k, Layered(stored, h.AncestorsVia(t, n))[k])
    decreases h.rank(t), 0, n
  {
    var parent := h.Parents(t)[n - 1];
    LayeredConcat(stored, h.AncestorsVia(t, n - 1), h.Ancestors(parent));
    if k in Layered(stored, h.AncestorsVia(t, n - 1)) {
      ViaInherits(h, raw, stored, t, n - 1, k);
    } else {
      LayeredConcat(stored, [parent], h.Ancestors(parent));
      EffectiveInherits(h, raw, stored, parent, k);
    }
  }

  lemma {:induction false} ParentsInherit(h: Hierarchy, raw: Table, stored: Table, t: string, types: seq<string>,
                                          k: string)
    requires h.Acyclic() && Between(h, raw, stored) && k !in OwnFields(raw, t)
    requires forall x :: x in types ==> x in h.Parents(t)
    requires k in Layered(stored, types)
    ensures Inherits(h, raw, t, k, Layered(stored, types)[k])
  {
    if k in OwnFields(stored, types[0]) {
      assert types[0] in types;
      var i :| 0 <= i < |h.Parents(t)| && h.Parents(t)[i] == types[0];
      assert Inherits(h, raw, h.Parents(t)[i], k, stored[types[0]][k]);
    } else {
      ParentsInherit(h, raw, stored, t, types[1..], k);
    }
  }

  /** Merging the half-merged table once more gives only inherited values. */
  lemma {:induction false} EffectiveInherits(h: Hierarchy, raw: Table, stored: Table, t: string, k: string)
    requires h.Acyclic() && Between(h, raw, stored) && k in Effective(h, stored, t)
    ensures Inherits(h, raw, t, k, Effective(h, stored, t)[k])
    decreases h.rank(t), 1, 0
  {
    var parents, n := h.Parents(t), |h.Parents(t)|;
    LayeredConcat(stored, [t], h.Ancestors(t));
    LayeredConcat(stored, parents, h.AncestorsVia(t, n));
    assert Layered(stored, [t]) == OwnFields(stored, t);
    if k in OwnFields(stored, t) {
    } else if k in Layered(stored, parents) {
      ParentsInherit(h, raw, stored, t, parents, k);
    } else {
      forall i | 0 <= i < n ensures k !in OwnFields(stored, parents[i]) {
        LayeredKeys(stored, parents, k);
      }
      ViaInherits(h, raw, stored, t, n, k);
    }
  }

  lemma AncestorOfParent(h: Hierarchy, t: string, i: nat, x: string)
    requires h.Acyclic() && i < |h.Parents(t)| && x in [h.Parents(t)[i]] + h.Ancestors(h.Parents(t)[i])
    ensures x in [t] + h.Ancestors(t)
  {
    AncestorsViaMember(h, t, |h.Parents(t)|, x);
  }

  /** A field is answered as soon as the type or an ancestor of it has one. */
  lemma {:induction false} InheritedIsEffective(h: Hierarchy, raw: Table, stored: Table, t: string, k: string, v: Value)
    requires h.Acyclic() && Between(h, raw, stored) && Inherits(h, raw, t, k, v)
    ensures k in Effective(h, stored, t)
    decreases h.rank(t)
  {
    var chain := [t] + h.Ancestors(t);
    LayeredKeys(stored, chain, k);
    hide Hierarchy.Ancestors, Layered;
    if k in OwnFields(raw, t) {
      assert k in OwnFields(stored, chain[0]);
    } else {
      var i :| 0 <= i < |h.Parents(t)| && Inherits(h, raw, h.Parents(t)[i], k, v);
      var p := h.Parents(t)[i];
      InheritedIsEffective(h, raw, stored, p, k, v);
      LayeredKeys(stored, [p] + h.Ancestors(p), k);
      var j :| 0 <= j < |[p] + h.Ancestors(p)| && k in OwnFields(stored, ([p] + h.Ancestors(p))[j]);
      AncestorOfParent(h, t, i, ([p] + h.Ancestors(p))[j]);
    }
  }

  /** The state the service is in after `setData(raw)`. */
  function AfterSetData(decl: Declarations, h: Hierarchy, raw: Table, order: seq<string>): Table
    requires Ranked(decl, h.rank)
  {
    Settle(decl, h.rank, raw, order, |order|).0
  }

  /** The main result: for any hierarchy, table and key order, the answer for a type has exactly the
      fields that the type or an ancestor gives, each with a value that the type inherits. */
  lemma EffectiveIsInherited(decl: Declarations, h: Hierarchy, raw: Table, order: seq<string>, t: string)
    requires h.Acyclic() && Faithful(decl, h) && Ranked(decl, h.rank)
    requires forall u :: u in order ==> u in raw
    ensures var fields := Effective(h, AfterSetData(decl, h, raw, order), t);
            && AllInherited(h, raw, t, fields)
            && (forall k, v :: Inherits(h, raw, t, k, v) ==> k in fields)
            && (forall k :: k in OwnFields(raw, t) ==> k in fields && fields[k] == raw[t][k])
  {
    var stored := AfterSetData(decl, h, raw, order);
    SettleBetween(decl, h, raw, order, |order|);
    forall k | k in Effective(h, stored, t) ensures Inherits(h, raw, t, k, Effective(h, stored, t)[k]) {
      EffectiveInherits(h, raw, stored, t, k);
    }
    forall k, v | Inherits(h, raw, t, k, v) ensures k in Effective(h, stored, t) {
      InheritedIsEffective(h, raw, stored, t, k, v);
    }
    forall k | k in OwnFields(raw, t) ensures k in Effective(h, stored, t) {
      InheritedIsEffective(h, raw, stored, t, k, raw[t][k]);
    }
  }

  // ---------------------------------------------------------------- single inheritance

  ghost predicate SingleParents(h: Hierarchy) {
    forall t :: |h.Parents(t)| <= 1
  }

  /** The nearest ancestor wins. */
  function NearestMerge(h: Hierarchy, raw: Table, t: string): Fields
    requires h.Acyclic()
    decreases h.rank(t)
  {
    (if h.Parents(t) == [] then map[] else NearestMerge(h, raw, h.Parents(t)[0])) + OwnFields(raw, t)
  }

  lemma {:induction false} InheritsIsMerged(h: Hierarchy, raw: Table, t: string, k: string, v: Value)
    requires h.Acyclic() && SingleParents(h)
    ensures Inherits(h, raw, t, k, v) <==> k in NearestMerge(h, raw, t) && NearestMerge(h, raw, t)[k] == v
    decreases h.rank(t)
  {
    if k !in OwnFields(raw, t) && h.Parents(t) != [] {
      assert |h.Parents(t)| == 1;
      InheritsIsMerged(h, raw, h.Parents(t)[0], k, v);
      assert Inherits(h, raw, t, k, v) <==> Inherits(h, raw, h.Parents(t)[0], k, v);
    }
  }

  /** Where no type has two parents, the answer is the nearest-ancestor-wins merge of the raw table. */
  lemma EffectiveIsMerged(decl: Declarations, h: Hierarchy, raw: Table, order: seq<string>, t: string)
    requires h.Acyclic() && SingleParents(h) && Faithful(decl, h) && Ranked(decl, h.rank)
    requires forall u :: u in order ==> u in raw
    ensures Effective(h, AfterSetData(decl, h, raw, order), t) == NearestMerge(h, raw, t)
  {
    var fields, merged := Effective(h, AfterSetData(decl, h, raw, order), t), NearestMerge(h, raw, t);
    EffectiveIsInherited(decl, h, raw, order, t);
    forall k | k in fields ensures k in merged && fields[k] == merged[k] {
      InheritsIsMerged(h, raw, t, k, fields[k]);
    }
    forall k | k in merged ensures k in fields {
      InheritsIsMerged(h, raw, t, k, merged[k]);
    }
  }

  // ---------------------------------------------------------------- exactly when the answer is right

  /** `order` lists the keys of the table. */
  ghost predicate Enumerates(order: seq<string>, raw: Table) {
    && (forall u :: u in order <==> u in raw)
    && forall i, j :: 0 <= i < j < |order| ==> order[i] != order[j]
  }

  /** For every table, key order and type the nearest ancestor wins. */
  ghost predicate NearestWins(decl: Declarations, h: Hierarchy)
    requires h.Acyclic() && Ranked(decl, h.rank)
  {
    forall raw, order, t | Enumerates(order, raw) ::
      Effective(h, AfterSetData(decl, h, raw, order), t) == NearestMerge(h, raw, t)
  }

  /** An empty entry for `c` does not change the answer for `t`. */
  ghost predicate EntryHarmless(decl: Declarations, h: Hierarchy, raw: Table, order: seq<string>, c: string,
                                order': seq<string>, t: string)
    requires h.Acyclic() && Ranked(decl, h.rank)
  {
    Enumerates(order, raw) && c !in raw && Enumerates(order', raw[c := map[]]) ==>
      Effective(h, AfterSetData(decl, h, raw, order), t) ==
      Effective(h, AfterSetData(decl, h, raw[c := map[]], order'), t)
  }

  /** For every table, key orders and types, an empty entry for a type without one changes no answer. */
  ghost predicate EmptyEntriesHarmless(decl: Declarations, h: Hierarchy)
    requires h.Acyclic() && Ranked(decl, h.rank)
  {
    forall raw, order, c, order', t :: EntryHarmless(decl, h, raw, order, c, order', t)
  }

  /** A base that gives a field gives it to the type, if no later base can. */
  lemma {:induction false} LastBaseWins(decl: Declarations, rank: string -> nat, raw: Table, t: string, m: nat, n: nat,
                                        k: string)
    requires Ranked(decl, rank) && t in decl && decl[t].Some? && m < n <= |decl[t].value|
    requires decl[t].value[m] in decl && k in OwnFields(raw, decl[t].value[m])
    requires forall i :: m < i < n ==> decl[t].value[i] !in decl
    ensures var fields := ResolveBases(decl, rank, raw, [], t, n).0;
            k in fields && fields[k] == raw[decl[t].value[m]][k]
    decreases n
  {
    var resolved := ResolveBases(decl, rank, raw, [], t, n - 1).1;
    ResolvedAreKnown(decl, rank, raw, [], t, n - 1);
    if n - 1 > m {
      LastBaseWins(decl, rank, raw, t, m, n - 1, k);
      assert Resolve(decl, rank, raw, resolved, decl[t].value[n - 1]).0 == None;
    } else {
      OwnFieldResolved(decl, rank, raw, resolved, decl[t].value[m], k);
    }
  }

  lemma OwnFieldResolved(decl: Declarations, rank: string -> nat, raw: Table, resolved: seq<string>, x: string,
                         k: string)
    requires Ranked(decl, rank) && x in decl && k in OwnFields(raw, x)
    ensures var fields := Resolve(decl, rank, raw, resolved, x).0;
            fields.Some? && k in fields.value && fields.value[k] == raw[x][k]
  {
  }

  /** What is stored for a type stays once its turn is over. */
  lemma {:induction false} StoredStays(decl: Declarations, rank: string -> nat, raw: Table, order: seq<string>, m: nat,
                                       n: nat, t: string)
    requires Ranked(decl, rank) && m <= n <= |order| && forall i :: m <= i < n ==> order[i] != t
    ensures OwnFields(Settle(decl, rank, raw, order, n).0, t) == OwnFields(Settle(decl, rank, raw, order, m).0, t)
    decreases n
  {
    if m < n {
      StoredStays(decl, rank, raw, order, m, n - 1, t);
    }
  }

  /** A type with an empty entry, visited first, stores the field of its last recognised base. */
  lemma StoresLastBase(decl: Declarations, h: Hierarchy, raw: Table, order: seq<string>, t: string, m: nat, k: string)
    requires h.Acyclic() && Ranked(decl, h.rank) && t in decl && decl[t].Some? && m < |decl[t].value|
    requires decl[t].value[m] in decl && k in OwnFields(raw, decl[t].value[m])
    requires forall i :: m < i < |decl[t].value| ==> decl[t].value[i] !in decl
    requires t in raw && raw[t] == map[] && order != [] && order[0] == t
    requires forall i :: 1 <= i < |order| ==> order[i] != t
    ensures var fields := Effective(h, AfterSetData(decl, h, raw, order), t);
            k in fields && fields[k] == raw[decl[t].value[m]][k]
  {
    var n := |decl[t].value|;
    LastBaseWins(decl, h.rank, raw, t, m, n, k);
    var fields := ResolveBases(decl, h.rank, raw, [], t, n).0;
    assert Settle(decl, h.rank, raw, order, 0) == (raw, []);
    assert fields + map[] == fields && Resolve(decl, h.rank, raw, [], t).0 == Some(fields);
    assert OwnFields(Settle(decl, h.rank, raw, order, 1).0, t) == fields;
    StoredStays(decl, h.rank, raw, order, 1, |order|, t);
    assert ([t] + h.Ancestors(t))[0] == t;
  }

  // ---------------------------------------------------------------- grown arrays

  /** The last recognised base of a type that is none of its parents. */
  lemma LastForeign(decl: Declarations, bases: seq<string>, parents: seq<string>, j: nat) returns (m: nat)
    requires j < |bases| && bases[j] in decl && bases[j] !in parents
    ensures j <= m < |bases| && bases[m] in decl && bases[m] !in parents
    ensures forall i :: m < i < |bases| ==> bases[i] !in decl || bases[i] in parents
  {
    m := j;
    for i := j + 1 to |bases|
      invariant j <= m < i && bases[m] in decl && bases[m] !in parents
      invariant forall k :: m < k < i ==> bases[k] !in decl || bases[k] in parents
    {
      if bases[i] in decl && bases[i] !in parents {
        m := i;
      }
    }
  }

  /** An array that has grown by a recognised ancestor beyond the parent: some table gets another answer than
      that of the nearest ancestor. */
  lemma GrownArrayBreaksNearestWins(decl: Declarations, h: Hierarchy, t: string, j: nat)
    returns (raw: Table, order: seq<string>)
    requires h.Acyclic() && SingleParents(h) && RootedClasses(decl, h) && Ranked(decl, h.rank)
    requires t in decl && decl[t].Some? && j < |decl[t].value|
    requires decl[t].value[j] in decl && decl[t].value[j] !in h.Parents(t)
    ensures Enumerates(order, raw)
    ensures Effective(h, AfterSetData(decl, h, raw, order), t) != NearestMerge(h, raw, t)
  {
    var bases := decl[t].value;
    assert Rooted(h, t, bases);
    RootedBelow(h, t, bases, j);
    var p := h.Parents(t)[0];
    var m := LastForeign(decl, bases, h.Parents(t), j);
    var x := bases[m];
    forall i | m < i < |bases| ensures bases[i] !in decl { RootedBelow(h, t, bases, i); }
    RootedBelow(h, t, bases, m);
    assert x != p && p != t && x != t;
    raw := map[t := map[], p := map["" := Text("a")], x := map["" := Text("b")]];
    order := [t, p, x];
    StoresLastBase(decl, h, raw, order, t, m, "");
    assert NearestMerge(h, raw, t) == NearestMerge(h, raw, p) + OwnFields(raw, t);
    assert OwnFields(raw, p)[""] == Text("a");
  }

  /** Where no type has two parents: for all tables, key orders and types the nearest ancestor wins, if and only
      if no class array has grown by a recognised type beyond the parent. */
  lemma NearestWinsIff(decl: Declarations, h: Hierarchy)
    requires h.Acyclic() && SingleParents(h) && RootedClasses(decl, h) && Ranked(decl, h.rank)
    ensures NearestWins(decl, h) <==> Faithful(decl, h)
  {
    if Faithful(decl, h) {
      forall raw, order, t | Enumerates(order, raw)
        ensures Effective(h, AfterSetData(decl, h, raw, order), t) == NearestMerge(h, raw, t)
      {
        EffectiveIsMerged(decl, h, raw, order, t);
      }
    } else {
      var t, j :| t in decl && decl[t].Some? && 0 <= j < |decl[t].value| && decl[t].value[j] in decl
                  && decl[t].value[j] !in h.Parents(t);
      var raw, order := GrownArrayBreaksNearestWins(decl, h, t, j);
    }
  }

  /** Whatever has been asked of the registry, the arrays of its classes are rooted: those that are not shared
      stay as declared. */
  lemma ClassesRooted(types: CredentialTypes)
    requires types.Valid()
    requires forall t :: t in types.Extends() && types.Extends()[t].Some? ==>
               (t in types.shared && t in types.lists) || types.Extends()[t].value == types.h.Parents(t)
    ensures RootedClasses(types.Extends(), types.h)
  {
    hide Deduplicated;
    forall t | t in types.Extends() && types.Extends()[t].Some? ensures Rooted(types.h, t, types.Extends()[t].value) {
      assert Settled(types.h, types.lists, t);
    }
  }

  /** Asking for the ancestors of a type whose class shares its array, and which has a recognised grandparent,
      leaves such an array. */
  lemma AskingGrowsSharedArray(types: CredentialTypes, t: string, g: string)
    requires types.Valid() && t in types.shared && t in types.lists && types.Recognizes(t)
    requires Deduplicated(types.lists[t]) == Deduplicated(types.h.Ancestors(t))
    requires g in types.h.Ancestors(t) && g !in types.h.Parents(t) && types.Recognizes(g)
    ensures !Faithful(types.Extends(), types.h)
  {
    assert g in Deduplicated(types.lists[t]);
    var i :| 0 <= i < |types.lists[t]| && types.lists[t][i] == g;
    assert types.Extends()[t] == Some(types.lists[t]);
    hide Deduplicated;
  }

  // ---------------------------------------------------------------- empty entries

  /** Every type is recognised with its parents, which are recognised too, and names none of them twice. */
  ghost predicate Declares(decl: Declarations, h: Hierarchy) {
    && (forall t :: t in decl && decl[t].Some? ==> decl[t].value == h.Parents(t))
    && (forall t :: h.Parents(t) != [] ==> t in decl && decl[t].Some?)
    && (forall t, i :: 0 <= i < |h.Parents(t)| ==> h.Parents(t)[i] in decl)
    && (forall t, i, j :: 0 <= i < j < |h.Parents(t)| ==> h.Parents(t)[i] != h.Parents(t)[j])
  }

  lemma DeclaresFaithful(decl: Declarations, h: Hierarchy)
    requires h.Acyclic() && Declares(decl, h)
    ensures Faithful(decl, h) && Ranked(decl, h.rank)
  {
  }

  /** A type with two bases: its first base wins when the type has no entry, and its last one when it has an
      empty entry, because `setData` lets later bases win and `get` the earlier ones. */
  lemma EmptyEntryChangesAnswer(decl: Declarations, h: Hierarchy, c: string) returns (raw: Table)
    requires h.Acyclic() && Declares(decl, h) && Ranked(decl, h.rank) && |h.Parents(c)| >= 2
    ensures var f, y := h.Parents(c)[0], h.Parents(c)[|h.Parents(c)| - 1];
            && c !in raw && Enumerates([f, y], raw) && Enumerates([c, f, y], raw[c := map[]])
            && Effective(h, AfterSetData(decl, h, raw, [f, y]), c)
                 != Effective(h, AfterSetData(decl, h, raw[c := map[]], [c, f, y]), c)
  {
    var f, last := h.Parents(c)[0], |h.Parents(c)| - 1;
    var y := h.Parents(c)[last];
    assert f != y && c != f && c != y;
    raw := TwoEntries(f, y);
    DeclaresFaithful(decl, h);
    EnumeratesTwo(f, y, c, raw);
    hide Ranked, Effective, AfterSetData, Enumerates;
    LastBaseOf(decl, h, raw, c);
    FirstParentWins(decl, h, raw, [f, y], c);
  }

  lemma TwoEntries(f: string, y: string) returns (raw: Table)
    requires f != y
    ensures raw.Keys == {f, y} && "" in raw[f] && "" in raw[y] && raw[f][""] != raw[y][""]
  {
    raw := map[f := map["" := Text("a")], y := map["" := Text("b")]];
    assert Text("a") != Text("b") by { assert "a"[0] != "b"[0]; }
  }

  lemma EnumeratesTwo(f: string, y: string, c: string, raw: Table)
    requires raw.Keys == {f, y} && f != y && c != f && c != y
    ensures Enumerates([f, y], raw) && Enumerates([c, f, y], raw[c := map[]])
  {
  }

  lemma LastBaseOf(decl: Declarations, h: Hierarchy, raw: Table, c: string)
    requires h.Acyclic() && Declares(decl, h) && Ranked(decl, h.rank) && |h.Parents(c)| >= 2
    requires var f, y := h.Parents(c)[0], h.Parents(c)[|h.Parents(c)| - 1];
             raw.Keys == {f, y} && f != y && c != f && c != y && "" in raw[y]
    ensures var f, y := h.Parents(c)[0], h.Parents(c)[|h.Parents(c)| - 1];
            var fields := Effective(h, AfterSetData(decl, h, raw[c := map[]], [c, f, y]), c);
            "" in fields && fields[""] == raw[y][""]
  {
    var f, last := h.Parents(c)[0], |h.Parents(c)| - 1;
    hide Effective, AfterSetData, Ranked;
    StoresLastBase(decl, h, raw[c := map[]], [c, f, h.Parents(c)[last]], c, last, "");
  }

  /** A type that has no entry gets the fields of its first parent. */
  lemma FirstParentWins(decl: Declarations, h: Hierarchy, raw: Table, order: seq<string>, c: string)
    requires h.Acyclic() && Faithful(decl, h) && Ranked(decl, h.rank) && h.Parents(c) != []
    requires (forall u :: u in order ==> u in raw) && c !in raw
    ensures forall k :: k in OwnFields(raw, h.Parents(c)[0]) ==>
              var fields := Effective(h, AfterSetData(decl, h, raw, order), c);
              k in fields && fields[k] == raw[h.Parents(c)[0]][k]
  {
    var stored, f := AfterSetData(decl, h, raw, order), h.Parents(c)[0];
    SettleBetween(decl, h, raw, order, |order|);
    var rest := h.Ancestors(c)[1..];
    assert h.Ancestors(c)[0] == f && ([c] + h.Ancestors(c))[1..] == h.Ancestors(c);
    assert Layered(stored, [c] + h.Ancestors(c)) ==
           (Layered(stored, rest) + OwnFields(stored, f)) + OwnFields(stored, c);
    forall k | k in OwnFields(raw, f) ensures k in OwnFields(stored, f) && stored[f][k] == raw[f][k] {
      assert Inherits(h, raw, f, k, stored[f][k]);
    }
  }

  lemma {:induction false} EmptyEntryMerges(h: Hierarchy, raw: Table, c: string, t: string)
    requires h.Acyclic() && c !in raw
    ensures NearestMerge(h, raw[c := map[]], t) == NearestMerge(h, raw, t)
    decreases h.rank(t)
  {
    if h.Parents(t) != [] {
      EmptyEntryMerges(h, raw, c, h.Parents(t)[0]);
    }
  }

  /** Where no type has two parents, an empty entry changes nothing. */
  lemma EmptyEntryKeepsAnswer(decl: Declarations, h: Hierarchy, raw: Table, order: seq<string>, c: string,
                              order': seq<string>, t: string)
    requires h.Acyclic() && SingleParents(h) && Faithful(decl, h) && Ranked(decl, h.rank)
    requires Enumerates(order, raw) && c !in raw && Enumerates(order', raw[c := map[]])
    ensures EntryHarmless(decl, h, raw, order, c, order', t)
  {
    EffectiveIsMerged(decl, h, raw, order, t);
    EffectiveIsMerged(decl, h, raw[c := map[]], order', t);
    EmptyEntryMerges(h, raw, c, t);
  }

  /** For all tables, key orders and types an empty entry changes no answer, if and only if no type names two
      bases. */
  lemma EmptyEntriesHarmlessIff(decl: Declarations, h: Hierarchy)
    requires h.Acyclic() && Declares(decl, h) && Ranked(decl, h.rank)
    ensures EmptyEntriesHarmless(decl, h) <==> SingleParents(h)
  {
    if SingleParents(h) {
      forall raw, order, c, order', t ensures EntryHarmless(decl, h, raw, order, c, order', t) {
        if Enumerates(order, raw) && c !in raw && Enumerates(order', raw[c := map[]]) {
          EmptyEntryKeepsAnswer(decl, h, raw, order, c, order', t);
        }
      }
    } else {
      var c :| |h.Parents(c)| > 1;
      var raw := EmptyEntryChangesAnswer(decl, h, c);
      var f, y := h.Parents(c)[0], h.Parents(c)[|h.Parents(c)| - 1];
      assert !EntryHarmless(decl, h, raw, [f, y], c, [c, f, y], c);
    }
  }

  // ---------------------------------------------------------------- filling

  lemma FilledTwice(data: Fields, overwrites: Fields)
    ensures Filled(Filled(data, overwrites), overwrites) == Filled(data, overwrites)
    ensures forall k :: k in data && !Unset(data[k]) ==> Filled(data, overwrites)[k] == data[k]
    ensures forall k :: k in Filled(data, overwrites) && (k !in data || Filled(data, overwrites)[k] != data[k]) ==>
              k in overwrites && (k !in data || Unset(data[k])) && Filled(data, overwrites)[k] == overwrites[k]
  {
    var once := Filled(data, overwrites);
    assert Filled(once, overwrites).Keys == once.Keys;
  }
}
