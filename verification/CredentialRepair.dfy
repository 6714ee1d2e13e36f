/** Repair of a workflow's credential references against the credentials table
    (packages/cli/src/workflow-helpers.ts).

    The source walks every credential of every enabled node and answers from two caches.  Here the
    outcome is stated without caches, as a function of the occurrences seen earlier in the walk
    (`Repaired`); the method with the caches is proved to compute it, and the theorems about the
    repair are proved of that function. */
module CredentialRepair {
  import opened Wrappers

  /** A row of the credentials table. */
  datatype Row = Row(id: string, name: string, typ: string)

  /** A node's reference to a credential: the old style is a bare name, or a record whose id is null. */
  datatype Reference = Legacy(name: string) | Details(id: Option<string>, name: string)

  /** One property of a node's `credentials` object: credential type and reference. */
  datatype Entry = Entry(typ: string, ref: Reference)

  /** The two fields of a node that the repair looks at.  The entries are in property order. */
  datatype NodeValue = NodeValue(disabled: bool, credentials: Option<seq<Entry>>)

  /** Database reads issued by the repair; `legacy` marks the branch for old-style references. */
  datatype Query = ByName(typ: string, name: string, legacy: bool) | ById(typ: string, id: string)

  /** No two rows of one type share an id: the id is the table's primary key. */
  ghost predicate IdsUnique(rows: seq<Row>) {
    forall i, j :: 0 <= i < j < |rows| ==> rows[i].typ != rows[j].typ || rows[i].id != rows[j].id
  }

  function FindBy(rows: seq<Row>, typ: string, name: string): seq<Row> {
    if rows == [] then []
    else
      (if rows[0].typ == typ && rows[0].name == name then [rows[0]] else []) + FindBy(rows[1..], typ, name)
  }

  function FindOneById(rows: seq<Row>, typ: string, id: string): Option<Row> {
    if rows == [] then None
    else if rows[0].typ == typ && rows[0].id == id then Some(rows[0])
    else FindOneById(rows[1..], typ, id)
  }

  /** The row a name stands for: there must be exactly one of the type. */
  function UniqueByName(rows: seq<Row>, typ: string, name: string): Option<Row> {
    var found := FindBy(rows, typ, name);
    if |found| == 1 then Some(found[0]) else None
  }

  function ToRow(r: Row): Reference { Details(Some(r.id), r.name) }

  predicate OldStyle(ref: Reference) { ref.Legacy? || ref.id.None? }

  /** What an old-style reference is turned into when it is served from the cache. */
  function Normal(ref: Reference): Reference {
    if ref.Legacy? then Details(None, ref.name) else ref
  }

  /** The lookup without caches: by id, else by unique name, else unchanged. */
  function Lookup(rows: seq<Row>, e: Entry): Reference {
    var byId := if OldStyle(e.ref) then None else FindOneById(rows, e.typ, e.ref.id.value);
    var byName := UniqueByName(rows, e.typ, e.ref.name);
    if byId.Some? then ToRow(byId.value) else if byName.Some? then ToRow(byName.value) else e.ref
  }

  // ---------------------------------------------------------------- the repair, without caches

  ghost predicate SeenName(before: seq<Entry>, typ: string, name: string) {
    exists i :: 0 <= i < |before| && OldStyle(before[i].ref) && before[i].typ == typ && before[i].ref.name == name
  }

  /** `e` refers to `id`, and neither the id nor the name leads to a row. */
  predicate Dangling(rows: seq<Row>, e: Entry, typ: string, id: string) {
    && e.typ == typ && !OldStyle(e.ref) && e.ref.id.value == id
    && FindOneById(rows, typ, id).None?
    && UniqueByName(rows, typ, e.ref.name).None?
  }

  /** The earliest dangling reference to `id`: it is what later occurrences of the id become. */
  function FirstDangling(rows: seq<Row>, before: seq<Entry>, typ: string, id: string): (r: Option<Reference>)
    ensures r.Some? ==> exists i :: 0 <= i < |before| && Dangling(rows, before[i], typ, id) && r.value == before[i].ref
    ensures r.None? ==> forall i :: 0 <= i < |before| ==> !Dangling(rows, before[i], typ, id)
  {
    if before == [] then None
    else
      var n := |before| - 1;
      var r := FirstDangling(rows, before[..n], typ, id);
      if r.Some? then r
      else if Dangling(rows, before[n], typ, id) then Some(before[n].ref)
      else None
  }

  /** The repaired reference of `e`, given the occurrences walked before it. */
  ghost function Repaired(rows: seq<Row>, before: seq<Entry>, e: Entry): Reference {
    if OldStyle(e.ref) then
      if Lookup(rows, e) == e.ref && SeenName(before, e.typ, e.ref.name) then Normal(e.ref) else Lookup(rows, e)
    else
      var first := FirstDangling(rows, before, e.typ, e.ref.id.value);
      if first.Some? then first.value else Lookup(rows, e)
  }

  ghost function RepairAll(rows: seq<Row>, es: seq<Entry>): (r: seq<Entry>) {
    RepairFrom(rows, [], es)
  }

  ghost function RepairFrom(rows: seq<Row>, before: seq<Entry>, es: seq<Entry>): (r: seq<Entry>) {
    seq(|es|, k requires 0 <= k < |es| => Entry(es[k].typ, Repaired(rows, before + es[..k], es[k])))
  }

  function NodeEntries(n: NodeValue): seq<Entry> {
    if n.disabled || n.credentials.None? then [] else n.credentials.value
  }

  /** Everything the repair walks over, in order. */
  function Entries(nodes: seq<NodeValue>): seq<Entry> {
    if nodes == [] then [] else Entries(nodes[..|nodes| - 1]) + NodeEntries(nodes[|nodes| - 1])
  }

  ghost function RepairNode(rows: seq<Row>, before: seq<Entry>, n: NodeValue): NodeValue {
    if n.disabled || n.credentials.None? then n
    else n.(credentials := Some(RepairFrom(rows, before, n.credentials.value)))
  }

  ghost function RepairNodes(rows: seq<Row>, nodes: seq<NodeValue>): seq<NodeValue> {
    seq(|nodes|, i requires 0 <= i < |nodes| => RepairNode(rows, Entries(nodes[..i]), nodes[i]))
  }

  // ---------------------------------------------------------------- the queries

  /** The by-id cache already knows `id`: an earlier occurrence with an id was repaired to it. */
  ghost predicate KnownId(rows: seq<Row>, before: seq<Entry>, typ: string, id: string) {
    exists i :: 0 <= i < |before| && Gave(rows, before[..i], before[i], typ, id)
  }

  ghost predicate Gave(rows: seq<Row>, before: seq<Entry>, e: Entry, typ: string, id: string) {
    && e.typ == typ && !OldStyle(e.ref)
    && Repaired(rows, before, e) == Details(Some(id), Repaired(rows, before, e).name)
  }

  ghost function QueriesFor(rows: seq<Row>, before: seq<Entry>, e: Entry): seq<Query> {
    if OldStyle(e.ref) then
      if SeenName(before, e.typ, e.ref.name) then [] else [ByName(e.typ, e.ref.name, true)]
    else if KnownId(rows, before, e.typ, e.ref.id.value) then []
    else if FindOneById(rows, e.typ, e.ref.id.value).Some? then [ById(e.typ, e.ref.id.value)]
    else [ById(e.typ, e.ref.id.value), ByName(e.typ, e.ref.name, false)]
  }

  ghost function AllQueries(rows: seq<Row>, es: seq<Entry>): seq<Query> {
    if es == [] then []
    else
      var n := |es| - 1;
      AllQueries(rows, es[..n]) + QueriesFor(rows, es[..n], es[n])
  }

  // ---------------------------------------------------------------- the source's procedure

  class CredentialsRepository {
    const rows: seq<Row>
    var queries: seq<Query>

    constructor (rows: seq<Row>)
      ensures this.rows == rows && queries == []
    {
      this.rows := rows;
      queries := [];
    }

    method FindByName(typ: string, name: string, legacy: bool) returns (found: seq<Row>)
      modifies this
      ensures found == FindBy(rows, typ, name)
      ensures queries == old(queries) + [ByName(typ, name, legacy)]
    {
      queries := queries + [ByName(typ, name, legacy)];
      found := FindBy(rows, typ, name);
    }

    method FindOne(typ: string, id: string) returns (found: Option<Row>)
      modifies this
      ensures found == FindOneById(rows, typ, id)
      ensures queries == old(queries) + [ById(typ, id)]
    {
      queries := queries + [ById(typ, id)];
      found := FindOneById(rows, typ, id);
    }
  }

  class Node {
    const disabled: bool
    var credentials: Option<seq<Entry>>

    constructor (disabled: bool, credentials: Option<seq<Entry>>)
      ensures this.disabled == disabled && this.credentials == credentials
    {
      this.disabled, this.credentials := disabled, credentials;
    }

    function Value(): NodeValue reads this { NodeValue(disabled, credentials) }
  }

  type Cache = map<(string, string), Reference>

  /** What the by-name cache holds after the walk over `before`. */
  ghost predicate NameCacheOk(rows: seq<Row>, before: seq<Entry>, cache: Cache) {
    && (forall t, n :: (t, n) in cache <==> SeenName(before, t, n))
    && (forall t, n :: (t, n) in cache ==>
          cache[(t, n)] == Normal(Lookup(rows, Entry(t, Legacy(n)))))
  }

  /** What the by-id cache holds after the walk over `before`. */
  ghost predicate IdCacheOk(rows: seq<Row>, before: seq<Entry>, cache: Cache) {
    && (forall t, i :: (t, i) in cache <==> KnownId(rows, before, t, i))
    && (forall t, i :: (t, i) in cache ==>
          var first := FirstDangling(rows, before, t, i);
          if first.Some? then cache[(t, i)] == first.value
          else FindOneById(rows, t, i).Some? && cache[(t, i)] == ToRow(FindOneById(rows, t, i).value))
  }

  lemma {:induction false} FindByFound(rows: seq<Row>, typ: string, name: string)
    ensures forall r :: r in FindBy(rows, typ, name) <==> r in rows && r.typ == typ && r.name == name
  {
    if rows != [] {
      FindByFound(rows[1..], typ, name);
      assert rows == [rows[0]] + rows[1..];
    }
  }

  lemma {:induction false} FindOneByIdFound(rows: seq<Row>, typ: string, id: string)
    ensures FindOneById(rows, typ, id).Some? ==>
              var r := FindOneById(rows, typ, id).value; r in rows && r.typ == typ && r.id == id
    ensures FindOneById(rows, typ, id).None? ==> forall r :: r in rows ==> r.typ != typ || r.id != id
  {
    if rows != [] {
      FindOneByIdFound(rows[1..], typ, id);
      assert rows == [rows[0]] + rows[1..];
    }
  }

  /** A row found by name is the row its own id leads to. */
  lemma NamedRowHasItsId(rows: seq<Row>, typ: string, name: string)
    requires IdsUnique(rows)
    ensures var u := UniqueByName(rows, typ, name);
            u.Some? ==> u.value in rows && u.value.typ == typ && u.value.name == name
                        && FindOneById(rows, typ, u.value.id) == u
  {
    var u := UniqueByName(rows, typ, name);
    FindByFound(rows, typ, name);
    if u.Some? {
      assert u.value in FindBy(rows, typ, name);
      FindOneByIdFound(rows, typ, u.value.id);
    }
  }

  /** Appending one entry to the walk keeps the first dangling reference, if there is one. */
  lemma FirstDanglingSnoc(rows: seq<Row>, before: seq<Entry>, e: Entry, typ: string, id: string)
    ensures var first := FirstDangling(rows, before, typ, id);
            FirstDangling(rows, before + [e], typ, id) ==
            if first.Some? then first else if Dangling(rows, e, typ, id) then Some(e.ref) else None
  {
    assert (before + [e])[..|before|] == before;
  }

  lemma KnownIdSnoc(rows: seq<Row>, before: seq<Entry>, e: Entry, typ: string, id: string)
    ensures KnownId(rows, before + [e], typ, id) <==> KnownId(rows, before, typ, id) || Gave(rows, before, e, typ, id)
  {
    var after := before + [e];
    assert after[|before|] == e && after[..|before|] == before;
    assert forall i :: 0 <= i < |before| ==> after[i] == before[i] && after[..i] == before[..i];
  }

  lemma DanglingIsKnown(rows: seq<Row>, before: seq<Entry>, typ: string, id: string)
    ensures FirstDangling(rows, before, typ, id).Some? ==> KnownId(rows, before, typ, id)
  {
    if FirstDangling(rows, before, typ, id).Some? {
      var i :| 0 <= i < |before| && Dangling(rows, before[i], typ, id);
      assert Gave(rows, before[..i], before[i], typ, id);
    }
  }

  lemma SeenNameSnoc(before: seq<Entry>, e: Entry, typ: string, name: string)
    ensures SeenName(before + [e], typ, name) <==>
            SeenName(before, typ, name) || (OldStyle(e.ref) && e.typ == typ && e.ref.name == name)
  {
    var after := before + [e];
    assert after[|before|] == e;
    assert forall i :: 0 <= i < |before| ==> after[i] == before[i];
  }

  /** The by-name cache after one more entry. */
  lemma NameCacheStep(rows: seq<Row>, before: seq<Entry>, e: Entry, cache: Cache)
    requires NameCacheOk(rows, before, cache)
    ensures !OldStyle(e.ref) ==> NameCacheOk(rows, before + [e], cache)
    ensures OldStyle(e.ref) ==>
              var key, ref := (e.typ, e.ref.name), Normal(Lookup(rows, Entry(e.typ, Legacy(e.ref.name))));
              && NameCacheOk(rows, before + [e], cache[key := ref])
              && (key in cache <==> SeenName(before, e.typ, e.ref.name))
              && (key in cache ==> cache[key] == ref)
  {
    forall t, n
      ensures SeenName(before + [e], t, n) <==>
              SeenName(before, t, n) || (OldStyle(e.ref) && e.typ == t && e.ref.name == n)
    {
      SeenNameSnoc(before, e, t, n);
    }
  }

  /** The by-id cache after one more entry: nothing changes for an old-style reference, and an entry
      with an id leaves its repaired reference under the id of that reference. */
  lemma IdCacheStep(rows: seq<Row>, before: seq<Entry>, e: Entry, cache: Cache)
    requires IdsUnique(rows) && IdCacheOk(rows, before, cache)
    ensures OldStyle(e.ref) ==> IdCacheOk(rows, before + [e], cache)
    ensures !OldStyle(e.ref) ==>
              var ref := Repaired(rows, before, e);
              && ref.Details? && ref.id.Some?
              && IdCacheOk(rows, before + [e], cache[(e.typ, ref.id.value) := ref])
              && ((e.typ, e.ref.id.value) in cache <==> KnownId(rows, before, e.typ, e.ref.id.value))
              && (FirstDangling(rows, before, e.typ, e.ref.id.value).Some? ==> (e.typ, e.ref.id.value) in cache)
              && ((e.typ, e.ref.id.value) in cache ==> cache[(e.typ, e.ref.id.value)] == ref && ref.id == e.ref.id)
  {
    NamedRowHasItsId(rows, e.typ, e.ref.name);
    if !OldStyle(e.ref) {
      FindOneByIdFound(rows, e.typ, e.ref.id.value);
      DanglingIsKnown(rows, before, e.typ, e.ref.id.value);
    }
    forall t, i
      ensures KnownId(rows, before + [e], t, i) <==> KnownId(rows, before, t, i) || Gave(rows, before, e, t, i)
      ensures var first := FirstDangling(rows, before, t, i);
              FirstDangling(rows, before + [e], t, i) ==
              if first.Some? then first else if Dangling(rows, e, t, i) then Some(e.ref) else None
    {
      KnownIdSnoc(rows, before, e, t, i);
      FirstDanglingSnoc(rows, before, e, t, i);
    }
  }

  /** The body of the inner loop: answer one reference, from the caches where they know it. */
  method ReplaceReference(repo: CredentialsRepository, byName0: Cache, byId0: Cache,
                          ghost before: seq<Entry>, e: Entry)
    returns (ref: Reference, byName: Cache, byId: Cache)
    requires IdsUnique(repo.rows)
    requires NameCacheOk(repo.rows, before, byName0) && IdCacheOk(repo.rows, before, byId0)
    modifies repo
    ensures ref == Repaired(repo.rows, before, e)
    ensures NameCacheOk(repo.rows, before + [e], byName) && IdCacheOk(repo.rows, before + [e], byId)
    ensures repo.queries == old(repo.queries) + QueriesFor(repo.rows, before, e)
  {
    hide NameCacheOk, IdCacheOk, SeenName, KnownId, FindBy, FindOneById, FirstDangling;
    byName, byId, ref := byName0, byId0, e.ref;
    NameCacheStep(repo.rows, before, e, byName);
    IdCacheStep(repo.rows, before, e, byId);
    if !OldStyle(e.ref) {
      FindOneByIdFound(repo.rows, e.typ, e.ref.id.value);
      NamedRowHasItsId(repo.rows, e.typ, e.ref.name);
    }
    if e.ref.Legacy? || e.ref.id.None? {
      var name := e.ref.name;
      if (e.typ, name) !in byName {
        var credentials := repo.FindByName(e.typ, name, true);
        if |credentials| == 1 {
          byName := byName[(e.typ, name) := Details(Some(credentials[0].id), credentials[0].name)];
          ref := byName[(e.typ, name)];
          return;
        }
        byName := byName[(e.typ, name) := Details(None, name)];
      } else {
        ref := byName[(e.typ, name)];
        assert byName == byName[(e.typ, name) := ref];
      }
      return;
    }

    var id := e.ref.id.value;
    if (e.typ, id) !in byId {
      var credentials := repo.FindOne(e.typ, id);
      if credentials.Some? {
        byId := byId[(e.typ, id) := Details(Some(credentials.value.id), credentials.value.name)];
        ref := byId[(e.typ, id)];
        return;
      }
      var credsByName := repo.FindByName(e.typ, e.ref.name, false);
      if |credsByName| == 1 {
        byId := byId[(e.typ, credsByName[0].id) := Details(Some(credsByName[0].id), credsByName[0].name)];
        ref := byId[(e.typ, credsByName[0].id)];
        return;
      }
      byId := byId[(e.typ, id) := e.ref];
      return;
    }
    ref := byId[(e.typ, id)];
    assert byId == byId[(e.typ, id) := ref];
  }

  lemma AllQueriesSnoc(rows: seq<Row>, es: seq<Entry>, e: Entry)
    ensures AllQueries(rows, es + [e]) == AllQueries(rows, es) + QueriesFor(rows, es, e)
  {
    assert (es + [e])[..|es|] == es;
  }

  /** The inner loop over the entries of one node. */
  method ReplaceInNode(repo: CredentialsRepository, node: Node, byName0: Cache, byId0: Cache, ghost before: seq<Entry>)
    returns (byName: Cache, byId: Cache)
    requires IdsUnique(repo.rows)
    requires NameCacheOk(repo.rows, before, byName0) && IdCacheOk(repo.rows, before, byId0)
    requires node.credentials.Some? && !node.disabled
    requires repo.queries == AllQueries(repo.rows, before)
    modifies repo, node
    ensures node.Value() == RepairNode(repo.rows, before, old(node.Value()))
    ensures var after := before + old(node.credentials.value);
            && NameCacheOk(repo.rows, after, byName) && IdCacheOk(repo.rows, after, byId)
            && repo.queries == AllQueries(repo.rows, after)
  {
    hide NameCacheOk, IdCacheOk, AllQueries, QueriesFor, Repaired;
    byName, byId := byName0, byId0;
    var allNodeCredentials := node.credentials.value;
    ghost var goal := RepairFrom(repo.rows, before, allNodeCredentials);
    assert before + allNodeCredentials[..0] == before;
    for k := 0 to |allNodeCredentials|
      invariant node.credentials.Some? && |node.credentials.value| == |goal|
      invariant forall j :: 0 <= j < k ==> node.credentials.value[j] == goal[j]
      invariant forall j :: k <= j < |goal| ==> node.credentials.value[j] == allNodeCredentials[j]
      invariant NameCacheOk(repo.rows, before + allNodeCredentials[..k], byName)
      invariant IdCacheOk(repo.rows, before + allNodeCredentials[..k], byId)
      invariant repo.queries == AllQueries(repo.rows, before + allNodeCredentials[..k])
    {
      var e := allNodeCredentials[k];
      ghost var walked := before + allNodeCredentials[..k];
      var ref;
      ref, byName, byId := ReplaceReference(repo, byName, byId, walked, e);
      assert goal[k] == Entry(e.typ, ref);
      // The key comes from the object itself, so assigning to it replaces the entry it came from.
      node.credentials := Some(node.credentials.value[k := Entry(e.typ, ref)]);
      AllQueriesSnoc(repo.rows, walked, e);
      assert before + allNodeCredentials[..k + 1] == walked + [e];
    }
    assert allNodeCredentials[..|allNodeCredentials|] == allNodeCredentials;
    assert node.credentials.value == goal;
  }

  lemma EmptyWalk(rows: seq<Row>)
    ensures Entries([]) == [] && NameCacheOk(rows, [], map[]) && IdCacheOk(rows, [], map[])
            && AllQueries(rows, []) == []
  {
  }

  lemma EntriesSnoc(nodes: seq<NodeValue>, i: nat)
    requires i < |nodes|
    ensures Entries(nodes[..i + 1]) == Entries(nodes[..i]) + NodeEntries(nodes[i])
  {
    assert nodes[..i + 1][..i] == nodes[..i];
  }

  ghost function Values(nodes: seq<Node>): seq<NodeValue>
    reads nodes
  {
    seq(|nodes|, i requires 0 <= i < |nodes| reads nodes => nodes[i].Value())
  }

  /** The procedure of the source.  Nodes come from a parsed workflow, so no node appears twice. */
  method ReplaceInvalidCredentials(repo: CredentialsRepository, nodes: seq<Node>)
    requires IdsUnique(repo.rows) && repo.queries == []
    requires forall i, j :: 0 <= i < j < |nodes| ==> nodes[i] != nodes[j]
    modifies repo, nodes
    ensures Values(nodes) == RepairNodes(repo.rows, old(Values(nodes)))
    ensures repo.queries == AllQueries(repo.rows, old(Entries(Values(nodes))))
  {
    hide NameCacheOk, IdCacheOk, AllQueries, RepairFrom, Entries;
    EmptyWalk(repo.rows);
    var credentialsByName: Cache := map[];
    var credentialsById: Cache := map[];
    ghost var input := Values(nodes);
    ghost var goal := RepairNodes(repo.rows, input);
    assert input[..0] == [];
    for i := 0 to |nodes|
      invariant forall k :: 0 <= k < i ==> nodes[k].Value() == goal[k]
      invariant forall k :: i <= k < |nodes| ==> nodes[k].Value() == input[k]
      invariant NameCacheOk(repo.rows, Entries(input[..i]), credentialsByName)
      invariant IdCacheOk(repo.rows, Entries(input[..i]), credentialsById)
      invariant repo.queries == AllQueries(repo.rows, Entries(input[..i]))
    {
      var node := nodes[i];
      ghost var before := Entries(input[..i]);
      EntriesSnoc(input, i);
      if node.credentials.None? || node.disabled {
        assert before + [] == before;
        continue;
      }
      credentialsByName, credentialsById := ReplaceInNode(repo, node, credentialsByName, credentialsById, before);
    }
    assert input[..|nodes|] == input;
  }
}
