/** What presetting answers, said of the declared lists of parents and of the given table alone: along lines of
    inheritance, from a type to a parent, to a parent of that, and so on. */
module CredentialOverwritesLines {
  import opened Wrappers
  import opened CredentialHierarchy
  import opened CredentialOverwrites
  import opened CredentialOverwritesTheorems

  ghost predicate Step(h: Hierarchy, t: string, parent: string) {
    t in h.parents && parent in h.parents[t]
  }

  ghost predicate Line(h: Hierarchy, c: seq<string>) {
    c != [] && forall i :: 0 <= i < |c| - 1 ==> Step(h, c[i], c[i + 1])
  }

  ghost predicate LineBetween(h: Hierarchy, c: seq<string>, t: string, u: string) {
    Line(h, c) && c[0] == t && c[|c| - 1] == u
  }

  predicate Gives(raw: Table, t: string, k: string) { t in raw && k in raw[t] }

  /** At the end of the line `k` has the value `v`, and no nearer type gives `k`. */
  ghost predicate FirstGiven(h: Hierarchy, raw: Table, c: seq<string>, t: string, k: string, v: Value) {
    && Line(h, c) && c[0] == t
    && Gives(raw, c[|c| - 1], k) && raw[c[|c| - 1]][k] == v
    && forall i :: 0 <= i < |c| - 1 ==> !Gives(raw, c[i], k)
  }

  lemma LineTail(h: Hierarchy, c: seq<string>)
    requires Line(h, c) && |c| > 1
    ensures Line(h, c[1..]) && Step(h, c[0], c[1])
  {
    forall i | 0 <= i < |c[1..]| - 1 ensures Step(h, c[1..][i], c[1..][i + 1]) {
      assert Step(h, c[i + 1], c[i + 1 + 1]);
    }
  }

  lemma LineCons(h: Hierarchy, t: string, c: seq<string>)
    requires Line(h, c) && Step(h, t, c[0])
    ensures Line(h, [t] + c)
  {
    var d := [t] + c;
    forall i | 0 <= i < |d| - 1 ensures Step(h, d[i], d[i + 1]) {
      assert i > 0 ==> Step(h, c[i - 1], c[i]);
    }
  }

  // ---------------------------------------------------------------- ancestors

  /** The ancestors of a type are the ends of the lines that leave it. */
  lemma AncestorsIff(h: Hierarchy, t: string, a: string)
    requires h.Acyclic()
    ensures a in h.Ancestors(t) <==> exists c :: LineBetween(h, c, t, a) && |c| > 1
  {
    if a in h.Ancestors(t) {
      var c := LineTo(h, t, a);
    }
    if c :| LineBetween(h, c, t, a) && |c| > 1 {
      EndOfLine(h, c);
    }
  }

  lemma {:induction false} LineTo(h: Hierarchy, t: string, a: string) returns (c: seq<string>)
    requires h.Acyclic() && a in h.Ancestors(t)
    ensures LineBetween(h, c, t, a) && |c| > 1
    decreases h.rank(t)
  {
    if a in h.Parents(t) {
      c := [t, a];
    } else {
      AncestorsViaMember(h, t, |h.Parents(t)|, a);
      var i :| 0 <= i < |h.Parents(t)| && a in h.Ancestors(h.Parents(t)[i]);
      var rest := LineTo(h, h.Parents(t)[i], a);
      LineCons(h, t, rest);
      c := [t] + rest;
    }
  }

  lemma {:induction false} EndOfLine(h: Hierarchy, c: seq<string>)
    requires h.Acyclic() && Line(h, c) && |c| > 1
    ensures c[|c| - 1] in h.Ancestors(c[0])
    decreases |c|
  {
    LineTail(h, c);
    if |c| > 2 {
      EndOfLine(h, c[1..]);
      var i :| 0 <= i < |h.Parents(c[0])| && h.Parents(c[0])[i] == c[1];
      AncestorsViaMember(h, c[0], |h.Parents(c[0])|, c[|c| - 1]);
    }
  }

  /** `x` comes up in the list before `y` does. */
  ghost predicate Sooner(s: seq<string>, x: string, y: string) {
    exists p :: 0 <= p < |s| && s[p] == x && y !in s[..p + 1]
  }

  /** Dropping later duplicates keeps the order in which elements first come up. */
  lemma {:induction false} FirstOnesInOrder(s: seq<string>)
    ensures forall i, j :: 0 <= i < j < |Deduplicated(s)| ==> Sooner(s, Deduplicated(s)[i], Deduplicated(s)[j])
    ensures forall x :: x in Deduplicated(s) <==> x in s
  {
    if s != [] {
      var rest, x := s[..|s| - 1], s[|s| - 1];
      FirstOnesInOrder(rest);
      assert s == rest + [x];
      var d, dr := Deduplicated(s), Deduplicated(rest);
      forall i, j | 0 <= i < j < |d| ensures Sooner(s, d[i], d[j]) {
        assert d[i] == dr[i];
        if j < |dr| {
          assert d[j] == dr[j];
          SoonerSnoc(rest, x, d[i], d[j]);
        } else {
          SoonerThanNew(rest, [x], d[i], d[j]);
        }
      }
    }
  }

  lemma SoonerSnoc(s: seq<string>, z: string, x: string, y: string)
    requires Sooner(s, x, y)
    ensures Sooner(s + [z], x, y)
  {
    var p :| 0 <= p < |s| && s[p] == x && y !in s[..p + 1];
    assert (s + [z])[p] == x && (s + [z])[..p + 1] == s[..p + 1];
  }

  lemma SoonerThanNew(a: seq<string>, b: seq<string>, x: string, y: string)
    requires x in a && y !in a
    ensures Sooner(a + b, x, y)
  {
    var p :| 0 <= p < |a| && a[p] == x;
    assert (a + b)[p] == x && (a + b)[..p + 1] == a[..p + 1];
  }

  /** The parents come before all other ancestors. */
  lemma ParentsComeFirst(h: Hierarchy, t: string, x: string, y: string)
    requires h.Acyclic() && x in h.Parents(t) && y !in h.Parents(t)
    ensures Sooner(h.Ancestors(t), x, y)
  {
    SoonerThanNew(h.Parents(t), h.AncestorsVia(t, |h.Parents(t)|), x, y);
  }

  /** The ancestors of a parent come before those that only later parents have. */
  lemma AncestorsInOrder(h: Hierarchy, t: string, i: nat, x: string, y: string)
    requires h.Acyclic() && i < |h.Parents(t)| && x in h.Ancestors(h.Parents(t)[i]) && y !in h.Parents(t)
    requires forall j :: 0 <= j <= i ==> y !in h.Ancestors(h.Parents(t)[j])
    ensures Sooner(h.Ancestors(t), x, y)
  {
    hide Sooner, Hierarchy.Ancestors, Hierarchy.AncestorsVia;
    var n := |h.Parents(t)|;
    AncestorsViaMember(h, t, i + 1, x);
    AncestorsViaMember(h, t, i + 1, y);
    var rest := ViaSplits(h, t, i + 1, n);
    AncestorsUnfold(h, t);
    SoonerInMiddle(h.Parents(t), h.AncestorsVia(t, i + 1), rest, x, y);
  }

  lemma AncestorsUnfold(h: Hierarchy, t: string)
    requires h.Acyclic()
    ensures h.Ancestors(t) == h.Parents(t) + h.AncestorsVia(t, |h.Parents(t)|)
  {
  }

  lemma SoonerInMiddle(a: seq<string>, b: seq<string>, rest: seq<string>, x: string, y: string)
    requires x in b && y !in a && y !in b
    ensures Sooner(a + (b + rest), x, y)
  {
    SoonerThanNew(a + b, rest, x, y);
    assert a + (b + rest) == (a + b) + rest;
  }

  lemma {:induction false} ViaSplits(h: Hierarchy, t: string, m: nat, n: nat) returns (rest: seq<string>)
    requires h.Acyclic() && m <= n <= |h.Parents(t)|
    ensures h.AncestorsVia(t, n) == h.AncestorsVia(t, m) + rest
  {
    rest := [];
    if m < n {
      var less := ViaSplits(h, t, m, n - 1);
      rest := less + h.Ancestors(h.Parents(t)[n - 1]);
    }
  }

  // ---------------------------------------------------------------- the answer

  lemma {:induction false} InheritsOnLine(h: Hierarchy, raw: Table, t: string, k: string, v: Value)
    returns (c: seq<string>)
    requires h.Acyclic() && Inherits(h, raw, t, k, v)
    ensures FirstGiven(h, raw, c, t, k, v)
    decreases h.rank(t)
  {
    if Gives(raw, t, k) {
      c := [t];
    } else {
      var i :| 0 <= i < |h.Parents(t)| && Inherits(h, raw, h.Parents(t)[i], k, v);
      var rest := InheritsOnLine(h, raw, h.Parents(t)[i], k, v);
      LineCons(h, t, rest);
      c := [t] + rest;
    }
  }

  lemma {:induction false} LineInherits(h: Hierarchy, raw: Table, c: seq<string>, k: string) returns (v: Value)
    requires h.Acyclic() && Line(h, c) && Gives(raw, c[|c| - 1], k)
    ensures Inherits(h, raw, c[0], k, v)
    decreases |c|
  {
    if Gives(raw, c[0], k) {
      v := raw[c[0]][k];
    } else {
      LineTail(h, c);
      v := LineInherits(h, raw, c[1..], k);
      var i :| 0 <= i < |h.Parents(c[0])| && h.Parents(c[0])[i] == c[1];
    }
  }

  /** After `setData`, in whatever order of the keys: a type has a field exactly if the given table gives it at the
      end of some line from the type; its value is the first one on such a line; and its own value always wins. */
  lemma AnswerIsOnLine(decl: Declarations, h: Hierarchy, raw: Table, order: seq<string>, t: string, k: string)
    requires h.Acyclic() && Faithful(decl, h) && Ranked(decl, h.rank)
    requires forall u :: u in order ==> u in raw
    ensures var fields := Effective(h, AfterSetData(decl, h, raw, order), t);
            && (k in fields <==> exists c, u :: LineBetween(h, c, t, u) && Gives(raw, u, k))
            && (k in fields ==> exists c :: FirstGiven(h, raw, c, t, k, fields[k]))
            && (Gives(raw, t, k) ==> k in fields && fields[k] == raw[t][k])
  {
    hide Effective, AfterSetData, Faithful, Ranked;
    var fields := Effective(h, AfterSetData(decl, h, raw, order), t);
    EffectiveIsInherited(decl, h, raw, order, t);
    assert k in OwnFields(raw, t) <==> Gives(raw, t, k);
    if k in fields {
      var c := InheritsOnLine(h, raw, t, k, fields[k]);
      assert LineBetween(h, c, t, c[|c| - 1]);
    }
    if c, u :| LineBetween(h, c, t, u) && Gives(raw, u, k) {
      var v := LineInherits(h, raw, c, k);
    }
  }

  // ---------------------------------------------------------------- what the memo leaves unmerged

  /** Resolving `u` comes by `t`: over the recognised bases that the classes name. */
  ghost predicate ComesBy(decl: Declarations, rank: string -> nat, u: string, t: string)
    requires Ranked(decl, rank)
    decreases rank(u)
  {
    && u in decl
    && (u == t
        || (decl[u].Some? && exists i :: 0 <= i < |decl[u].value| && ComesBy(decl, rank, decl[u].value[i], t)))
  }

  /** What is marked as resolved has its bases marked. */
  ghost predicate MemoClosed(decl: Declarations, rank: string -> nat, resolved: seq<string>)
    requires Ranked(decl, rank)
  {
    forall u, t :: u in resolved && ComesBy(decl, rank, u, t) ==> t in resolved
  }

  lemma {:induction false} ResolveMarks(decl: Declarations, rank: string -> nat, stored: Table, resolved: seq<string>,
                                        t: string, u: string)
    requires Ranked(decl, rank) && MemoClosed(decl, rank, resolved)
    ensures var after := Resolve(decl, rank, stored, resolved, t).1;
            && MemoClosed(decl, rank, after) && (forall x :: x in resolved ==> x in after)
            && (ComesBy(decl, rank, t, u) ==> u in after)
    decreases rank(t), 1, 0
  {
    if t !in resolved && t in decl {
      var after := Resolve(decl, rank, stored, resolved, t).1;
      if decl[t].Some? {
        ResolveBasesMark(decl, rank, stored, resolved, t, |decl[t].value|);
      }
      forall x | ComesBy(decl, rank, t, x) ensures x in after {
      }
      forall v, x | v in after && ComesBy(decl, rank, v, x) ensures x in after {
      }
    }
  }

  lemma {:induction false} ResolveBasesMark(decl: Declarations, rank: string -> nat, stored: Table,
                                            resolved: seq<string>, t: string, n: nat)
    requires Ranked(decl, rank) && MemoClosed(decl, rank, resolved)
    requires t in decl && decl[t].Some? && n <= |decl[t].value|
    ensures var after := ResolveBases(decl, rank, stored, resolved, t, n).1;
            && MemoClosed(decl, rank, after) && (forall x :: x in resolved ==> x in after)
            && forall i, x :: 0 <= i < n && ComesBy(decl, rank, decl[t].value[i], x) ==> x in after
    decreases rank(t), 0, n
  {
    if n > 0 {
      ResolveBasesMark(decl, rank, stored, resolved, t, n - 1);
      var resolved1, base := ResolveBases(decl, rank, stored, resolved, t, n - 1).1, decl[t].value[n - 1];
      forall x ensures ComesBy(decl, rank, base, x) ==> x in Resolve(decl, rank, stored, resolved1, base).1 {
        ResolveMarks(decl, rank, stored, resolved1, base, x);
      }
      ResolveMarks(decl, rank, stored, resolved1, base, base);
    }
  }

  lemma {:induction false} SettleMarks(decl: Declarations, rank: string -> nat, raw: Table, order: seq<string>, m: nat,
                                       n: nat, t: string)
    requires Ranked(decl, rank) && m < n <= |order|
    ensures var resolved := Settle(decl, rank, raw, order, n).1;
            MemoClosed(decl, rank, resolved) && (ComesBy(decl, rank, order[m], t) ==> t in resolved)
  {
    hide ComesBy, Resolve;
    var (stored, resolved) := Settle(decl, rank, raw, order, n - 1);
    if n - 1 == m {
      SettleCloses(decl, rank, raw, order, m);
    } else {
      SettleMarks(decl, rank, raw, order, m, n - 1, t);
    }
    ResolveMarks(decl, rank, stored, resolved, order[n - 1], t);
  }

  lemma {:induction false} SettleCloses(decl: Declarations, rank: string -> nat, raw: Table, order: seq<string>, n: nat)
    requires Ranked(decl, rank) && n <= |order|
    ensures MemoClosed(decl, rank, Settle(decl, rank, raw, order, n).1)
  {
    hide ComesBy, Resolve;
    if n > 0 {
      SettleCloses(decl, rank, raw, order, n - 1);
      var (stored, resolved) := Settle(decl, rank, raw, order, n - 1);
      ResolveMarks(decl, rank, stored, resolved, order[n - 1], order[n - 1]);
    }
  }

  /** A type that resolving an earlier key comes by is taken from the memo when its own turn comes: its entry
      stays as it was given, without what it inherits. */
  lemma MemoLeavesRaw(decl: Declarations, h: Hierarchy, raw: Table, order: seq<string>, m: nat, n: nat)
    requires Ranked(decl, h.rank) && m < n < |order| && order[n] in raw
    requires forall i, j :: 0 <= i < j < |order| ==> order[i] != order[j]
    requires ComesBy(decl, h.rank, order[m], order[n])
    ensures OwnFields(AfterSetData(decl, h, raw, order), order[n]) == raw[order[n]]
  {
    hide ComesBy, ResolveBases;
    SettleMarks(decl, h.rank, raw, order, m, n, order[n]);
    StoredStays(decl, h.rank, raw, order, 0, n, order[n]);
    StoredStays(decl, h.rank, raw, order, n + 1, |order|, order[n]);
  }

  // ---------------------------------------------------------------- filling

  /** A preset value is filled in where the data has no value, `null`, `undefined` or the empty text; everything
      else stays as it is. */
  lemma FilledWhereEmpty(data: Fields, overwrites: Fields, k: string)
    ensures k in Filled(data, overwrites) <==> k in data || k in overwrites
    ensures k in overwrites && k !in data ==> Filled(data, overwrites)[k] == overwrites[k]
    ensures k in overwrites && k in data ==>
              match data[k]
              case Null => Filled(data, overwrites)[k] == overwrites[k]
              case Undefined => Filled(data, overwrites)[k] == overwrites[k]
              case Text(text) => Filled(data, overwrites)[k] == if |text| == 0 then overwrites[k] else data[k]
              case Other(_) => Filled(data, overwrites)[k] == data[k]
    ensures k in data && k !in overwrites ==> Filled(data, overwrites)[k] == data[k]
  {
    assert k in data && data[k].Text? ==> (data[k] == Text("") <==> |data[k].text| == 0);
  }

  // ---------------------------------------------------------------- classes

  /** The bases of the class of a type: those of the loaded class before those that loading would give; for a class
      that shares its array with the table of known types, whatever that array has grown to. */
  lemma ClassBases(types: CredentialTypes, t: string)
    ensures types.Recognizes(t) <==> t in types.Extends()
    ensures t in types.Extends() <==> t in types.loaded || t in types.declared
    ensures t in types.Extends() ==>
              types.Extends()[t] ==
              if t in types.shared && t in types.lists then Some(types.lists[t])
              else if t in types.loaded then types.loaded[t] else types.declared[t]
  {
  }
}
