/** What the repair answers, said of the rows of the table and the occurrences of the walk. */
module CredentialRepairRows {
  import opened Wrappers
  import opened CredentialRepair
  import opened CredentialRepairTheorems

  predicate Named(rows: seq<Row>, i: int, typ: string, name: string) {
    0 <= i < |rows| && rows[i].typ == typ && rows[i].name == name
  }

  predicate HasId(rows: seq<Row>, i: int, typ: string, id: string) {
    0 <= i < |rows| && rows[i].typ == typ && rows[i].id == id
  }

  /** Row `i`, and no other one, is of this type and name. */
  ghost predicate OnlyNamed(rows: seq<Row>, i: int, typ: string, name: string) {
    Named(rows, i, typ, name) && forall k :: Named(rows, k, typ, name) ==> k == i
  }

  ghost predicate NamesOne(rows: seq<Row>, typ: string, name: string) {
    exists i :: OnlyNamed(rows, i, typ, name)
  }

  ghost predicate IdMissing(rows: seq<Row>, typ: string, id: string) {
    forall i :: !HasId(rows, i, typ, id)
  }

  /** A bare name, or a record whose id is null. */
  predicate WithoutId(ref: Reference) {
    match ref
    case Legacy(_) => true
    case Details(id, _) => id == None
  }

  // ---------------------------------------------------------------- the two reads

  lemma {:induction false} NoneFound(rows: seq<Row>, typ: string, name: string)
    requires forall i :: !Named(rows, i, typ, name)
    ensures FindBy(rows, typ, name) == []
  {
    if rows != [] {
      assert !Named(rows, 0, typ, name);
      forall i ensures !Named(rows[1..], i, typ, name) { assert !Named(rows, i + 1, typ, name); }
      NoneFound(rows[1..], typ, name);
    }
  }

  lemma {:induction false} OneFound(rows: seq<Row>, i: int, typ: string, name: string)
    requires OnlyNamed(rows, i, typ, name)
    ensures FindBy(rows, typ, name) == [rows[i]]
  {
    forall k | Named(rows[1..], k, typ, name) ensures k + 1 == i { assert Named(rows, k + 1, typ, name); }
    if i == 0 {
      NoneFound(rows[1..], typ, name);
    } else {
      assert !Named(rows, 0, typ, name) && Named(rows[1..], i - 1, typ, name);
      OneFound(rows[1..], i - 1, typ, name);
    }
  }

  lemma {:induction false} FoundNone(rows: seq<Row>, typ: string, name: string)
    requires FindBy(rows, typ, name) == []
    ensures forall i :: !Named(rows, i, typ, name)
  {
    if rows != [] {
      FoundNone(rows[1..], typ, name);
      forall i | i != 0 ensures !Named(rows, i, typ, name) { assert !Named(rows[1..], i - 1, typ, name); }
    }
  }

  lemma {:induction false} FoundOne(rows: seq<Row>, typ: string, name: string)
    requires |FindBy(rows, typ, name)| == 1
    ensures NamesOne(rows, typ, name)
  {
    if Named(rows, 0, typ, name) {
      FoundNone(rows[1..], typ, name);
      forall k | k != 0 ensures !Named(rows, k, typ, name) { assert !Named(rows[1..], k - 1, typ, name); }
      assert OnlyNamed(rows, 0, typ, name);
    } else {
      FoundOne(rows[1..], typ, name);
      var i :| OnlyNamed(rows[1..], i, typ, name);
      forall k | Named(rows, k, typ, name) ensures k == i + 1 { assert Named(rows[1..], k - 1, typ, name); }
      assert OnlyNamed(rows, i + 1, typ, name);
    }
  }

  /** A name counts when exactly one row of the type has it. */
  lemma NameCounts(rows: seq<Row>, typ: string, name: string)
    ensures forall i :: OnlyNamed(rows, i, typ, name) ==> UniqueByName(rows, typ, name) == Some(rows[i])
    ensures !NamesOne(rows, typ, name) ==> UniqueByName(rows, typ, name) == None
  {
    forall i | OnlyNamed(rows, i, typ, name) ensures FindBy(rows, typ, name) == [rows[i]] {
      OneFound(rows, i, typ, name);
    }
    if |FindBy(rows, typ, name)| == 1 {
      FoundOne(rows, typ, name);
    }
  }

  lemma IdLeadsToRow(rows: seq<Row>, typ: string, id: string)
    requires IdsUnique(rows)
    ensures forall i :: HasId(rows, i, typ, id) ==> FindOneById(rows, typ, id) == Some(rows[i])
    ensures FindOneById(rows, typ, id).None? <==> IdMissing(rows, typ, id)
  {
    FindOneByIdFound(rows, typ, id);
    var found := FindOneById(rows, typ, id);
    if found.Some? {
      var k :| 0 <= k < |rows| && rows[k] == found.value;
      assert HasId(rows, k, typ, id);
    }
    forall i | HasId(rows, i, typ, id) ensures found == Some(rows[i]) {
      assert rows[i] in rows;
    }
  }

  // ---------------------------------------------------------------- one reference

  /** An earlier occurrence of the same type and name, without an id. */
  ghost predicate AskedBefore(before: seq<Entry>, e: Entry) {
    exists k :: 0 <= k < |before| && WithoutId(before[k].ref)
                && before[k].typ == e.typ && before[k].ref.name == e.ref.name
  }

  /** A reference to this id, whose name is not the name of exactly one row. */
  ghost predicate Unresolved(rows: seq<Row>, e: Entry, typ: string, id: string) {
    e.typ == typ && e.ref == Details(Some(id), e.ref.name) && !NamesOne(rows, typ, e.ref.name)
  }

  ghost predicate FirstUnresolved(rows: seq<Row>, before: seq<Entry>, k: int, typ: string, id: string) {
    && 0 <= k < |before| && Unresolved(rows, before[k], typ, id)
    && forall m :: 0 <= m < k ==> !Unresolved(rows, before[m], typ, id)
  }

  /** The row that `out` refers to. */
  predicate Is(out: Reference, row: Row) { out == Details(Some(row.id), row.name) }

  /** The answer to a name: the row that alone has it, or what is given for want of one. */
  ghost predicate AnswersName(rows: seq<Row>, e: Entry, out: Reference, otherwise: Reference) {
    && (forall i :: OnlyNamed(rows, i, e.typ, e.ref.name) ==> Is(out, rows[i]))
    && (!NamesOne(rows, e.typ, e.ref.name) ==> out == otherwise)
  }

  /** A reference without an id becomes the only row of its name; for want of one it keeps its name and has no
      id, as it was written if it is the first one, and as a record if it is not.  A reference with an id becomes
      the row with that id.  When no row has it, the first reference to the id that its name does not resolve
      stays, and all later references to the id become that one; any before it become the row of their name. */
  ghost predicate Answers(rows: seq<Row>, before: seq<Entry>, e: Entry, out: Reference) {
    if WithoutId(e.ref) then
      AnswersName(rows, e, out, if AskedBefore(before, e) then Details(None, e.ref.name) else e.ref)
    else
      var id := e.ref.id.value;
      && (forall i :: HasId(rows, i, e.typ, id) ==> Is(out, rows[i]))
      && (IdMissing(rows, e.typ, id) ==>
            && (forall k :: FirstUnresolved(rows, before, k, e.typ, id) ==> out == before[k].ref)
            && ((forall k :: 0 <= k < |before| ==> !Unresolved(rows, before[k], e.typ, id)) ==>
                  AnswersName(rows, e, out, e.ref)))
  }

  lemma WithoutIdAnswers(rows: seq<Row>, before: seq<Entry>, e: Entry)
    requires WithoutId(e.ref)
    ensures Answers(rows, before, e, Repaired(rows, before, e))
  {
    hide FindBy, UniqueByName;
    NameCounts(rows, e.typ, e.ref.name);
    assert SeenName(before, e.typ, e.ref.name) <==> AskedBefore(before, e);
  }

  lemma DanglingIsUnresolved(rows: seq<Row>, e: Entry, typ: string, id: string)
    requires FindOneById(rows, typ, id).None?
    ensures Dangling(rows, e, typ, id) <==> Unresolved(rows, e, typ, id)
  {
    hide FindBy, UniqueByName, FindOneById;
    NameCounts(rows, typ, e.ref.name);
  }

  lemma {:induction false} FirstDanglingIs(rows: seq<Row>, before: seq<Entry>, typ: string, id: string)
    requires FindOneById(rows, typ, id).None?
    ensures forall k :: FirstUnresolved(rows, before, k, typ, id) ==>
              FirstDangling(rows, before, typ, id) == Some(before[k].ref)
    ensures (forall k :: 0 <= k < |before| ==> !Unresolved(rows, before[k], typ, id)) ==>
              FirstDangling(rows, before, typ, id) == None
  {
    hide FindOneById, Dangling, Unresolved;
    if before != [] {
      var n := |before| - 1;
      FirstDanglingIs(rows, before[..n], typ, id);
      DanglingIsUnresolved(rows, before[n], typ, id);
      forall k | FirstUnresolved(rows, before, k, typ, id)
        ensures FirstDangling(rows, before, typ, id) == Some(before[k].ref)
      {
        assert k < n ==> FirstUnresolved(rows, before[..n], k, typ, id);
      }
    }
  }

  lemma WithIdAnswers(rows: seq<Row>, before: seq<Entry>, e: Entry)
    requires IdsUnique(rows) && !WithoutId(e.ref)
    ensures Answers(rows, before, e, Repaired(rows, before, e))
  {
    hide FindBy, UniqueByName, FindOneById, FirstDangling, IdMissing, FirstUnresolved, Unresolved;
    var id := e.ref.id.value;
    NameCounts(rows, e.typ, e.ref.name);
    IdLeadsToRow(rows, e.typ, id);
    if FindOneById(rows, e.typ, id).None? {
      FirstDanglingIs(rows, before, e.typ, id);
    } else {
      KnownNotDangling(rows, before, e.typ, id);
    }
  }

  lemma KnownNotDangling(rows: seq<Row>, before: seq<Entry>, typ: string, id: string)
    requires FindOneById(rows, typ, id).Some?
    ensures FirstDangling(rows, before, typ, id) == None
  {
  }

  /** Every reference of the walk gets the answer that the rows and the references before it determine. */
  lemma RepairAnswers(rows: seq<Row>, es: seq<Entry>, j: nat)
    requires IdsUnique(rows) && j < |es|
    ensures |RepairAll(rows, es)| == |es| && RepairAll(rows, es)[j].typ == es[j].typ
    ensures Answers(rows, es[..j], es[j], RepairAll(rows, es)[j].ref)
  {
    RepairAllAt(rows, es, j);
    hide Answers, Repaired, RepairAll;
    if WithoutId(es[j].ref) {
      WithoutIdAnswers(rows, es[..j], es[j]);
    } else {
      WithIdAnswers(rows, es[..j], es[j]);
    }
  }

  /** There is one answer only. */
  lemma AnswersOnce(rows: seq<Row>, before: seq<Entry>, e: Entry, out: Reference, out': Reference)
    requires Answers(rows, before, e, out) && Answers(rows, before, e, out')
    ensures out == out'
  {
    if !WithoutId(e.ref) && IdMissing(rows, e.typ, e.ref.id.value) {
      var id := e.ref.id.value;
      if k :| 0 <= k < |before| && Unresolved(rows, before[k], e.typ, id) {
        var m := FirstOf(rows, before, k, e.typ, id);
      }
    }
  }

  lemma FirstOf(rows: seq<Row>, before: seq<Entry>, k: int, typ: string, id: string) returns (m: int)
    requires 0 <= k < |before| && Unresolved(rows, before[k], typ, id)
    ensures FirstUnresolved(rows, before, m, typ, id)
    decreases k
  {
    hide Unresolved;
    m := k;
    if i :| 0 <= i < k && Unresolved(rows, before[i], typ, id) {
      m := FirstOf(rows, before, i, typ, id);
    }
  }

  // ---------------------------------------------------------------- the walk over the nodes

  /** The walk takes the references of the enabled nodes that have any, in order, and of no other node. */
  lemma WalkedInOrder(nodes: seq<NodeValue>, i: nat)
    requires i < |nodes|
    ensures Entries([]) == []
    ensures Entries(nodes[..i + 1]) ==
            Entries(nodes[..i]) + match nodes[i] { case NodeValue(false, Some(es)) => es case _ => [] }
  {
    EntriesSnoc(nodes, i);
  }

  /** A node that is disabled or has no credentials stays as it is; in any other one every reference gets the
      answer that the rows and the references walked before it determine. */
  lemma NodeAnswers(rows: seq<Row>, nodes: seq<NodeValue>, i: nat)
    requires IdsUnique(rows) && i < |nodes|
    ensures |RepairNodes(rows, nodes)| == |nodes|
    ensures nodes[i].disabled || nodes[i].credentials == None ==> RepairNodes(rows, nodes)[i] == nodes[i]
    ensures !nodes[i].disabled && nodes[i].credentials.Some? ==>
              var es, out := nodes[i].credentials.value, RepairNodes(rows, nodes)[i];
              && !out.disabled && out.credentials.Some? && |out.credentials.value| == |es|
              && forall k :: 0 <= k < |es| ==>
                   && out.credentials.value[k].typ == es[k].typ
                   && Answers(rows, Entries(nodes[..i]) + es[..k], es[k], out.credentials.value[k].ref)
  {
    hide Answers, Repaired, Entries;
    if !nodes[i].disabled && nodes[i].credentials.Some? {
      var es, before := nodes[i].credentials.value, Entries(nodes[..i]);
      RepairFromSplit(rows, before, es);
      forall k | 0 <= k < |es|
        ensures RepairFrom(rows, before, es)[k].typ == es[k].typ
        ensures Answers(rows, before + es[..k], es[k], RepairFrom(rows, before, es)[k].ref)
      {
        RepairAnswers(rows, before + es, |before| + k);
        assert (before + es)[..|before| + k] == before + es[..k];
      }
    }
  }

  // ---------------------------------------------------------------- what is asked

  ghost predicate Occurs(es: seq<Entry>, typ: string, id: string) {
    exists k :: 0 <= k < |es| && es[k].typ == typ && es[k].ref == Details(Some(id), es[k].ref.name)
  }

  ghost predicate OccursWithout(es: seq<Entry>, typ: string, name: string) {
    exists k :: 0 <= k < |es| && es[k].typ == typ && WithoutId(es[k].ref) && es[k].ref.name == name
  }

  /** The table is asked for a name in the old style exactly when a reference without an id has it, and for an id
      that is missing exactly when a reference has it; it is asked for no other id. */
  lemma {:induction false} AskedIff(rows: seq<Row>, es: seq<Entry>, typ: string, name: string, id: string)
    requires IdsUnique(rows)
    ensures Query.ByName(typ, name, true) in AllQueries(rows, es) <==> OccursWithout(es, typ, name)
    ensures Query.ById(typ, id) in AllQueries(rows, es) ==> Occurs(es, typ, id)
    ensures IdMissing(rows, typ, id) && Occurs(es, typ, id) ==> Query.ById(typ, id) in AllQueries(rows, es)
  {
    hide QueriesFor, IdMissing, OccursWithout, Occurs;
    if es == [] {
      NothingOccurs(typ, name, id);
    } else {
      var n := |es| - 1;
      AskedIff(rows, es[..n], typ, name, id);
      OccursSnoc(es[..n], es[n], typ, name, id);
      assert es == es[..n] + [es[n]];
      AskedNow(rows, es[..n], es[n], typ, name, id);
    }
  }

  lemma NothingOccurs(typ: string, name: string, id: string)
    ensures !Occurs([], typ, id) && !OccursWithout([], typ, name)
  {
  }

  lemma OccursSnoc(es: seq<Entry>, e: Entry, typ: string, name: string, id: string)
    ensures Occurs(es + [e], typ, id) <==>
              Occurs(es, typ, id) || (e.typ == typ && e.ref == Details(Some(id), e.ref.name))
    ensures OccursWithout(es + [e], typ, name) <==>
              OccursWithout(es, typ, name) || (e.typ == typ && WithoutId(e.ref) && e.ref.name == name)
  {
    var after := es + [e];
    assert after[|es|] == e && forall k :: 0 <= k < |es| ==> after[k] == es[k];
  }

  lemma AskedNow(rows: seq<Row>, es: seq<Entry>, e: Entry, typ: string, name: string, id: string)
    requires IdsUnique(rows)
    ensures Query.ByName(typ, name, true) in QueriesFor(rows, es, e) <==>
            e.typ == typ && WithoutId(e.ref) && e.ref.name == name && !OccursWithout(es, typ, name)
    ensures Query.ById(typ, id) in QueriesFor(rows, es, e) ==> e.typ == typ && e.ref == Details(Some(id), e.ref.name)
    ensures IdMissing(rows, typ, id) && e.typ == typ && e.ref == Details(Some(id), e.ref.name) ==>
              Query.ById(typ, id) in QueriesFor(rows, es, e) || Occurs(es, typ, id)
  {
    hide FindBy, UniqueByName, FindOneById, IdMissing;
    assert SeenName(es, typ, name) <==> OccursWithout(es, typ, name);
    IdLeadsToRow(rows, typ, id);
    if IdMissing(rows, typ, id) && KnownId(rows, es, typ, id) {
      var i :| 0 <= i < |es| && Gave(rows, es[..i], es[i], typ, id);
      GaveIsMissing(rows, es[..i], es[i], typ, id);
    }
  }

  lemma GaveIsMissing(rows: seq<Row>, before: seq<Entry>, e: Entry, typ: string, id: string)
    requires IdsUnique(rows) && FindOneById(rows, typ, id).None? && Gave(rows, before, e, typ, id)
    ensures e.ref == Details(Some(id), e.ref.name)
  {
    hide FindBy, FindOneById;
    var found := FindOneById(rows, typ, e.ref.id.value);
    FindOneByIdFound(rows, typ, e.ref.id.value);
    FindOneByIdFound(rows, typ, id);
    NamedRowHasItsId(rows, typ, e.ref.name);
  }
}
