/** What the repair of credential references promises, for every table and every workflow. */
module CredentialRepairTheorems {
  import opened Wrappers
  import opened CredentialRepair

  // ---------------------------------------------------------------- cached repair against lookup

  /** `e` repeats an id missing from the table that `d` could not resolve either, under another name. */
  ghost predicate Renames(rows: seq<Row>, d: Entry, e: Entry) {
    !OldStyle(e.ref) && Dangling(rows, d, e.typ, e.ref.id.value) && d.ref.name != e.ref.name
  }

  /** No unresolvable reference to a missing id is followed by the same id under another name. */
  ghost predicate OneNamePerMissingId(rows: seq<Row>, es: seq<Entry>) {
    forall i, j :: 0 <= i < j < |es| ==> !Renames(rows, es[i], es[j])
  }

  /** One occurrence: the caches change its answer exactly when the first dangling reference to the
      same id has another name. */
  lemma RepairedIsLookup(rows: seq<Row>, before: seq<Entry>, e: Entry)
    ensures Normal(Repaired(rows, before, e)) == Normal(Lookup(rows, e)) <==>
            (OldStyle(e.ref) ||
             var first := FirstDangling(rows, before, e.typ, e.ref.id.value);
             first.Some? ==> first.value.name == e.ref.name)
  {
    if !OldStyle(e.ref) && FirstDangling(rows, before, e.typ, e.ref.id.value).Some? {
      FindByFound(rows, e.typ, e.ref.name);
      var u := UniqueByName(rows, e.typ, e.ref.name);
      if u.Some? {
        assert u.value in FindBy(rows, e.typ, e.ref.name);
        FindOneByIdFound(rows, e.typ, e.ref.id.value);
      }
    }
  }

  /** The whole walk: repair equals lookup, up to writing a bare name as a record with a null id,
      exactly when no missing id changes its name. */
  lemma RepairIsLookupIff(rows: seq<Row>, es: seq<Entry>)
    ensures (forall j :: 0 <= j < |es| ==> Normal(RepairAll(rows, es)[j].ref) == Normal(Lookup(rows, es[j])))
            <==> OneNamePerMissingId(rows, es)
  {
    if OneNamePerMissingId(rows, es) {
      forall j | 0 <= j < |es| ensures Normal(RepairAll(rows, es)[j].ref) == Normal(Lookup(rows, es[j])) {
        OneNameIsLookup(rows, es, j);
      }
    } else {
      var j := RenamedIsNoLookup(rows, es);
    }
  }

  lemma RepairAllAt(rows: seq<Row>, es: seq<Entry>, j: nat)
    requires j < |es|
    ensures |RepairAll(rows, es)| == |es|
    ensures RepairAll(rows, es)[j] == Entry(es[j].typ, Repaired(rows, es[..j], es[j]))
  {
    assert [] + es[..j] == es[..j];
    hide Repaired;
  }

  lemma OneNameIsLookup(rows: seq<Row>, es: seq<Entry>, j: nat)
    requires OneNamePerMissingId(rows, es) && j < |es|
    ensures Normal(RepairAll(rows, es)[j].ref) == Normal(Lookup(rows, es[j]))
  {
    hide Repaired, Lookup, Normal, RepairAll, Dangling;
    RepairAllAt(rows, es, j);
    RepairedIsLookup(rows, es[..j], es[j]);
    if !OldStyle(es[j].ref) {
      var first := FirstDangling(rows, es[..j], es[j].typ, es[j].ref.id.value);
      if first.Some? {
        var i :| 0 <= i < j && first.value == es[..j][i].ref
                 && Dangling(rows, es[..j][i], es[j].typ, es[j].ref.id.value);
        assert es[..j][i] == es[i] && !Renames(rows, es[i], es[j]);
      }
    }
  }

  lemma RenamedIsNoLookup(rows: seq<Row>, es: seq<Entry>) returns (k: nat)
    requires !OneNamePerMissingId(rows, es)
    ensures k < |es| && Normal(RepairAll(rows, es)[k].ref) != Normal(Lookup(rows, es[k]))
  {
    hide Repaired, Lookup, Normal, RepairAll, FirstDangling;
    var i, j :| 0 <= i < j < |es| && Renames(rows, es[i], es[j]);
    k := DifferentFromFirst(rows, es, i, j);
    RepairAllAt(rows, es, k);
    RepairedIsLookup(rows, es[..k], es[k]);
  }

  /** Such a workflow: an empty table, and one missing id that comes with two names.  The second reference
      becomes the first one. */
  lemma RenamedReference()
    ensures var es := [Entry("api", Details(Some("1"), "a")), Entry("api", Details(Some("1"), "b"))];
            && !OneNamePerMissingId([], es)
            && RepairAll([], es)[1].ref == Details(Some("1"), "a")
            && Lookup([], es[1]) == Details(Some("1"), "b")
  {
    var es := [Entry("api", Details(Some("1"), "a")), Entry("api", Details(Some("1"), "b"))];
    assert [] + es[..1] == [es[0]] && [es[0]][..0] == [];
    assert Dangling([], es[0], "api", "1") && FirstDangling([], [], "api", "1") == None;
    assert FirstDangling([], [es[0]], "api", "1") == Some(es[0].ref);
    assert es[0].ref.name[0] != es[1].ref.name[0];
    assert Renames([], es[0], es[1]);
  }

  /** Of two clashing occurrences, one clashes with the first dangling reference. */
  lemma DifferentFromFirst(rows: seq<Row>, es: seq<Entry>, i: nat, j: nat) returns (k: nat)
    requires i < j < |es| && Renames(rows, es[i], es[j])
    ensures k < |es| && !OldStyle(es[k].ref)
    ensures var first := FirstDangling(rows, es[..k], es[k].typ, es[k].ref.id.value);
            first.Some? && first.value.name != es[k].ref.name
  {
    var typ, id := es[j].typ, es[j].ref.id.value;
    var first := FirstDangling(rows, es[..j], typ, id);
    assert Dangling(rows, es[..j][i], typ, id);
    k := j;
    if first.value.name == es[j].ref.name {
      k := i;
      FirstDanglingPrefix(rows, es, i, j, typ, id);
    }
  }

  /** A longer walk keeps the first dangling reference of a shorter one; if the shorter one has none
      and ends just before a dangling reference, that reference is the first. */
  lemma {:induction false} FirstDanglingPrefix(rows: seq<Row>, es: seq<Entry>, i: nat, j: nat, typ: string, id: string)
    requires i < j <= |es|
    ensures var first := FirstDangling(rows, es[..i], typ, id);
            && (first.Some? ==> FirstDangling(rows, es[..j], typ, id) == first)
            && (first.None? && Dangling(rows, es[i], typ, id) ==>
                  FirstDangling(rows, es[..j], typ, id) == Some(es[i].ref))
  {
    assert es[..j] == es[..j - 1] + [es[j - 1]];
    FirstDanglingSnoc(rows, es[..j - 1], es[j - 1], typ, id);
    if i < j - 1 {
      FirstDanglingPrefix(rows, es, i, j - 1, typ, id);
    }
  }

  // ---------------------------------------------------------------- provenance

  /** Both entries name the same credential: by name in the old style, else by id. */
  predicate SameHandle(d: Entry, e: Entry) {
    && d.typ == e.typ && (OldStyle(d.ref) <==> OldStyle(e.ref))
    && (if OldStyle(e.ref) then d.ref.name == e.ref.name else d.ref.id == e.ref.id)
  }

  /** `out` is a reference the repair may give to `e`: a row of the type, or an unresolved reference
      to the same credential that the walk met, up to the normalisation of bare names. */
  ghost predicate Allowed(rows: seq<Row>, met: seq<Entry>, e: Entry, out: Reference) {
    || (exists r :: r in rows && r.typ == e.typ && out == ToRow(r))
    || (exists i :: 0 <= i < |met| && SameHandle(met[i], e) && Lookup(rows, met[i]) == met[i].ref
                    && (out == met[i].ref || out == Normal(met[i].ref)))
  }

  lemma RepairInventsNothing(rows: seq<Row>, es: seq<Entry>, j: nat)
    requires j < |es|
    ensures var out := RepairAll(rows, es)[j];
            out.typ == es[j].typ && Allowed(rows, es[..j + 1], es[j], out.ref)
  {
    var e, met := es[j], es[..j + 1];
    assert [] + es[..j] == es[..j] == met[..j] && met[j] == e;
    LookupAllowed(rows, e);
    if OldStyle(e.ref) {
      assert SameHandle(met[j], e);
    } else {
      var first := FirstDangling(rows, es[..j], e.typ, e.ref.id.value);
      if first.Some? {
        var i :| 0 <= i < j && Dangling(rows, es[..j][i], e.typ, e.ref.id.value) && first.value == es[..j][i].ref;
        assert met[i] == es[i] && SameHandle(met[i], e) && Lookup(rows, met[i]) == met[i].ref;
      }
    }
  }

  lemma LookupAllowed(rows: seq<Row>, e: Entry)
    ensures Lookup(rows, e) == e.ref || exists r :: r in rows && r.typ == e.typ && Lookup(rows, e) == ToRow(r)
  {
    FindByFound(rows, e.typ, e.ref.name);
    if !OldStyle(e.ref) {
      FindOneByIdFound(rows, e.typ, e.ref.id.value);
    }
    var u := UniqueByName(rows, e.typ, e.ref.name);
    if u.Some? {
      assert u.value in FindBy(rows, e.typ, e.ref.name);
    }
  }

  // ---------------------------------------------------------------- repairing twice

  /** The repair of a repaired walk sees the same dangling references. */
  lemma {:induction false} FirstDanglingOfRepaired(rows: seq<Row>, es: seq<Entry>, j: nat, typ: string, id: string)
    requires IdsUnique(rows) && j <= |es|
    ensures FirstDangling(rows, RepairAll(rows, es)[..j], typ, id) == FirstDangling(rows, es[..j], typ, id)
  {
    hide Repaired, Dangling, RepairAll;
    if j > 0 {
      RepairAllAt(rows, es, j - 1);
      FirstDanglingOfRepaired(rows, es, j - 1, typ, id);
      hide FirstDangling;
      var out, before := RepairAll(rows, es), es[..j - 1];
      assert es[..j] == before + [es[j - 1]] && out[..j] == out[..j - 1] + [out[j - 1]];
      FirstDanglingSnoc(rows, before, es[j - 1], typ, id);
      FirstDanglingSnoc(rows, out[..j - 1], out[j - 1], typ, id);
      RepairedDangling(rows, before, es[j - 1], typ, id);
    }
  }

  /** The repaired entry dangles exactly when an entry up to it did, and then as the first that did. */
  lemma RepairedDangling(rows: seq<Row>, before: seq<Entry>, e: Entry, typ: string, id: string)
    requires IdsUnique(rows)
    ensures var out := Entry(e.typ, Repaired(rows, before, e));
            var first := FirstDangling(rows, before, typ, id);
            && (first.None? ==> (Dangling(rows, out, typ, id) <==> Dangling(rows, e, typ, id)))
            && (Dangling(rows, out, typ, id) && first.None? ==> out.ref == e.ref)
  {
    NamedRowHasItsId(rows, e.typ, e.ref.name);
    if !OldStyle(e.ref) {
      FindOneByIdFound(rows, e.typ, e.ref.id.value);
    }
  }

  /** An old-style reference in the repaired walk was there before, under the same name. */
  lemma SeenNameOfRepaired(rows: seq<Row>, es: seq<Entry>, j: nat, typ: string, name: string)
    requires j <= |es| && SeenName(RepairAll(rows, es)[..j], typ, name)
    ensures SeenName(es[..j], typ, name)
  {
    var out := RepairAll(rows, es)[..j];
    var i :| 0 <= i < |out| && OldStyle(out[i].ref) && out[i].typ == typ && out[i].ref.name == name;
    assert [] + es[..i] == es[..i];
    LookupAllowed(rows, es[i]);
    assert OldStyle(es[..j][i].ref);
  }

  lemma RepairTwiceAt(rows: seq<Row>, es: seq<Entry>, j: nat)
    requires IdsUnique(rows) && j < |es|
    ensures var out := RepairAll(rows, es); Repaired(rows, out[..j], out[j]) == out[j].ref
  {
    var out, e := RepairAll(rows, es), es[j];
    assert [] + es[..j] == es[..j];
    NamedRowHasItsId(rows, e.typ, e.ref.name);
    if OldStyle(e.ref) {
      if out[j].ref.Legacy? && SeenName(out[..j], e.typ, e.ref.name) {
        SeenNameOfRepaired(rows, es, j, e.typ, e.ref.name);
      }
    } else {
      FindOneByIdFound(rows, e.typ, e.ref.id.value);
      FirstDanglingOfRepaired(rows, es, j, e.typ, e.ref.id.value);
    }
  }

  lemma RepairAllTwice(rows: seq<Row>, es: seq<Entry>)
    requires IdsUnique(rows)
    ensures RepairAll(rows, RepairAll(rows, es)) == RepairAll(rows, es)
  {
    var out := RepairAll(rows, es);
    forall j | 0 <= j < |es|
      ensures RepairAll(rows, out)[j] == out[j]
    {
      assert [] + out[..j] == out[..j];
      RepairTwiceAt(rows, es, j);
    }
  }

  /** The walk over repaired nodes is the repaired walk. */
  lemma {:induction false} EntriesOfRepaired(rows: seq<Row>, nodes: seq<NodeValue>)
    ensures Entries(RepairNodes(rows, nodes)) == RepairAll(rows, Entries(nodes))
  {
    if nodes != [] {
      var n := |nodes| - 1;
      var last, out := nodes[n], RepairNodes(rows, nodes);
      EntriesOfRepaired(rows, nodes[..n]);
      assert out[..n] == RepairNodes(rows, nodes[..n]) by {
        forall i | 0 <= i < n ensures out[i] == RepairNodes(rows, nodes[..n])[i] {
          assert nodes[..n][..i] == nodes[..i];
        }
      }
      var before := Entries(nodes[..n]);
      RepairFromSplit(rows, before, NodeEntries(last));
    }
  }

  lemma RepairFromSplit(rows: seq<Row>, a: seq<Entry>, b: seq<Entry>)
    ensures RepairAll(rows, a + b) == RepairAll(rows, a) + RepairFrom(rows, a, b)
  {
    var whole := RepairAll(rows, a + b);
    forall k | 0 <= k < |a + b|
      ensures whole[k] == (RepairAll(rows, a) + RepairFrom(rows, a, b))[k]
    {
      if k < |a| {
        assert [] + (a + b)[..k] == [] + a[..k];
      } else {
        assert [] + (a + b)[..k] == a + b[..k - |a|];
      }
    }
  }

  /** Repairing a repaired workflow changes nothing, whatever names missing ids appear with. */
  lemma RepairTwice(rows: seq<Row>, nodes: seq<NodeValue>)
    requires IdsUnique(rows)
    ensures RepairNodes(rows, RepairNodes(rows, nodes)) == RepairNodes(rows, nodes)
  {
    hide Repaired, RepairAll, RepairFrom, Entries;
    var out := RepairNodes(rows, nodes);
    forall i | 0 <= i < |nodes|
      ensures RepairNodes(rows, out)[i] == out[i]
    {
      if !nodes[i].disabled && nodes[i].credentials.Some? {
        assert out[..i] == RepairNodes(rows, nodes[..i]) by {
          forall k | 0 <= k < i ensures out[k] == RepairNodes(rows, nodes[..i])[k] {
            assert nodes[..i][..k] == nodes[..k];
          }
        }
        var before, es := Entries(nodes[..i]), nodes[i].credentials.value;
        EntriesOfRepaired(rows, nodes[..i]);
        RepairFromTwice(rows, before, es);
      }
    }
  }

  lemma RepairFromTwice(rows: seq<Row>, a: seq<Entry>, b: seq<Entry>)
    requires IdsUnique(rows)
    ensures RepairFrom(rows, RepairAll(rows, a), RepairFrom(rows, a, b)) == RepairFrom(rows, a, b)
  {
    hide Repaired;
    RepairAllTwice(rows, a + b);
    RepairAllTwice(rows, a);
    RepairFromSplit(rows, a, b);
    var a', b' := RepairAll(rows, a), RepairFrom(rows, a, b);
    RepairFromSplit(rows, a', b');
    assert (a' + b')[|a|..] == b' && (a' + RepairFrom(rows, a', b'))[|a|..] == RepairFrom(rows, a', b');
  }

  // ---------------------------------------------------------------- pressure on the database

  /** The caches do not know a query before the occurrence that issues it, and do afterwards. */
  lemma QueryIsNews(rows: seq<Row>, before: seq<Entry>, e: Entry, q: Query)
    requires q in QueriesFor(rows, before, e)
    ensures q.ByName? && q.legacy ==> !SeenName(before, q.typ, q.name) && SeenName(before + [e], q.typ, q.name)
    ensures q.ById? ==> !KnownId(rows, before, q.typ, q.id)
    ensures q.ById? && FindOneById(rows, q.typ, q.id).Some? ==> KnownId(rows, before + [e], q.typ, q.id)
  {
    if q.ById? {
      FindOneByIdFound(rows, q.typ, q.id);
      KnownIdSnoc(rows, before, e, q.typ, q.id);
      if FindOneById(rows, q.typ, q.id).Some? {
        assert Gave(rows, before, e, q.typ, q.id);
      }
    } else {
      SeenNameSnoc(before, e, q.typ, q.name);
    }
  }

  lemma {:induction false} QueryLeavesTrace(rows: seq<Row>, es: seq<Entry>, q: Query)
    requires q in AllQueries(rows, es)
    ensures q.ByName? && q.legacy ==> SeenName(es, q.typ, q.name)
    ensures q.ById? && FindOneById(rows, q.typ, q.id).Some? ==> KnownId(rows, es, q.typ, q.id)
  {
    hide SeenName, KnownId, QueriesFor, FindOneById;
    var n := |es| - 1;
    var before, e := es[..n], es[n];
    assert es == before + [e];
    if q in AllQueries(rows, before) {
      QueryLeavesTrace(rows, before, q);
      if q.ById? {
        KnownIdSnoc(rows, before, e, q.typ, q.id);
      } else {
        SeenNameSnoc(before, e, q.typ, q.name);
      }
    } else {
      QueryIsNews(rows, before, e, q);
    }
  }

  /** The queries the repair may issue again. */
  predicate Repeatable(rows: seq<Row>, q: Query) {
    if q.ByName? then !q.legacy else FindOneById(rows, q.typ, q.id).None?
  }

  ghost predicate OnlyRepeatsRepeatable(rows: seq<Row>, qs: seq<Query>) {
    forall i, j :: 0 <= i < j < |qs| && qs[i] == qs[j] ==> Repeatable(rows, qs[j])
  }

  /** The branch for old-style references asks for each type and name at most once, and an id that is
      in the table is asked for at most once per type. */
  lemma {:induction false} QueriesAreCached(rows: seq<Row>, es: seq<Entry>)
    ensures OnlyRepeatsRepeatable(rows, AllQueries(rows, es))
  {
    if es != [] {
      var n := |es| - 1;
      var asked, more := AllQueries(rows, es[..n]), QueriesFor(rows, es[..n], es[n]);
      QueriesAreCached(rows, es[..n]);
      forall i, j | 0 <= i < j < |asked + more| && (asked + more)[i] == (asked + more)[j]
        ensures Repeatable(rows, (asked + more)[j])
      {
        if j < |asked| {
          assert asked[i] == (asked + more)[i] == (asked + more)[j] == asked[j];
        } else {
          var q := more[j - |asked|];
          QueryIsNews(rows, es[..n], es[n], q);
          if i < |asked| {
            assert asked[i] == q;
            QueryLeavesTrace(rows, es[..n], q);
            assert Repeatable(rows, q);
          } else {
            assert more[i - |asked|] == q;
            assert Repeatable(rows, q);
          }
        }
      }
    }
  }
}
