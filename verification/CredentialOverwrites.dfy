/** Preset values for credential fields, inherited along the hierarchy of credential types
    (packages/cli/src/credentials-overwrites.ts).

    `setData` resolves inheritance type by type while it overwrites the table it reads, and a memo
    makes it hand back entries that are not merged yet.  `get` merges once more along the ancestors,
    and this is what makes the answer right. */
module CredentialOverwrites {
  import opened Wrappers
  import opened CredentialHierarchy

  datatype Value = Null | Undefined | Text(text: string) | Other(code: int)
  type Fields = map<string, Value>
  type Table = map<string, Fields>
  type Declarations = map<string, Option<seq<string>>>

  function OwnFields(table: Table, t: string): Fields {
    if t in table then table[t] else map[]
  }

  /** The declared lists never lead back to the type, so that resolving them ends. */
  ghost predicate Ranked(decl: Declarations, rank: string -> nat) {
    forall t, i :: t in decl && decl[t].Some? && 0 <= i < |decl[t].value| ==> rank(decl[t].value[i]) < rank(t)
  }

  /** The outcome of `getOverwrites`: the fields, if any, and the types now marked as resolved. */
  function Resolve(decl: Declarations, rank: string -> nat, stored: Table, resolved: seq<string>, t: string)
    : (r: (Option<Fields>, seq<string>))
    requires Ranked(decl, rank)
    decreases rank(t), 1, 0
  {
    if t in resolved then (if t in stored then Some(stored[t]) else None, resolved)
    else if t !in decl then (None, resolved)
    else if decl[t].None? then (if t in stored then Some(stored[t]) else None, resolved + [t])
    else
      var (fields, resolved') := ResolveBases(decl, rank, stored, resolved, t, |decl[t].value|);
      (Some(fields + OwnFields(stored, t)), resolved' + [t])
  }

  /** The fields of the first `n` declared bases, later ones winning. */
  function ResolveBases(decl: Declarations, rank: string -> nat, stored: Table, resolved: seq<string>, t: string,
                        n: nat)
    : (r: (Fields, seq<string>))
    requires Ranked(decl, rank) && t in decl && decl[t].Some? && n <= |decl[t].value|
    decreases rank(t), 0, n
  {
    if n == 0 then (map[], resolved)
    else
      var (fields, resolved1) := ResolveBases(decl, rank, stored, resolved, t, n - 1);
      var (more, resolved2) := Resolve(decl, rank, stored, resolved1, decl[t].value[n - 1]);
      (fields + (if more.Some? then more.value else map[]), resolved2)
  }

  /** The table and the memo after `setData` has visited the first `n` keys of the given table. */
  function Settle(decl: Declarations, rank: string -> nat, raw: Table, order: seq<string>, n: nat)
    : (r: (Table, seq<string>))
    requires Ranked(decl, rank) && n <= |order|
  {
    if n == 0 then (raw, [])
    else
      var (stored, resolved) := Settle(decl, rank, raw, order, n - 1);
      var (fields, resolved') := Resolve(decl, rank, stored, resolved, order[n - 1]);
      (if fields.Some? && fields.value != map[] then stored[order[n - 1] := fields.value] else stored, resolved')
  }

  /** Merging along a list of types, earlier ones winning. */
  function Layered(table: Table, types: seq<string>): Fields {
    if types == [] then map[] else Layered(table, types[1..]) + OwnFields(table, types[0])
  }

  /** The fields `get` answers with for a type, over the table as it stands. */
  function Effective(h: Hierarchy, stored: Table, t: string): Fields
    requires h.Acyclic()
  {
    Layered(stored, [t] + h.Ancestors(t))
  }

  predicate Unset(v: Value) { v.Null? || v.Undefined? || v == Text("") }

  /** Filling the unset fields of `data`. */
  function Filled(data: Fields, overwrites: Fields): Fields {
    map k | k in data.Keys + overwrites.Keys ::
      if k in overwrites && (k !in data || Unset(data[k])) then overwrites[k] else data[k]
  }

  // ---------------------------------------------------------------- merging along a list

  lemma MergeAssociative(a: Fields, b: Fields, c: Fields)
    ensures (a + b) + c == a + (b + c)
  {
  }

  lemma MergeAbsorbs(a: Fields, b: Fields)
    requires a.Keys <= b.Keys
    ensures a + b == b
  {
  }

  lemma {:induction false} LayeredConcat(table: Table, a: seq<string>, b: seq<string>)
    ensures Layered(table, a + b) == Layered(table, b) + Layered(table, a)
  {
    if a == [] {
      assert a + b == b;
    } else {
      assert (a + b)[1..] == a[1..] + b;
      LayeredConcat(table, a[1..], b);
      MergeAssociative(Layered(table, b), Layered(table, a[1..]), OwnFields(table, a[0]));
    }
  }

  lemma {:induction false} LayeredKeys(table: Table, types: seq<string>, k: string)
    ensures k in Layered(table, types) <==> exists i :: 0 <= i < |types| && k in OwnFields(table, types[i])
  {
    if types == [] {
    } else {
      LayeredKeys(table, types[1..], k);
      if i :| 0 <= i < |types| && k in OwnFields(table, types[i]) && i > 0 {
        assert types[1..][i - 1] == types[i];
      }
    }
  }

  /** Only the first occurrences of the list matter. */
  lemma {:induction false} LayeredDeduplicated(table: Table, types: seq<string>)
    ensures Layered(table, types) == Layered(table, Deduplicated(types))
  {
    if types == [] {
    } else {
      hide Deduplicated, OwnFields;
      var rest, last := types[..|types| - 1], types[|types| - 1];
      assert types == rest + [last];
      LayeredDeduplicated(table, rest);
      assert Layered(table, [last]) == OwnFields(table, last);
      LayeredConcat(table, rest, [last]);
      LayeredConcat(table, Deduplicated(rest), [last]);
      DeduplicatedSnoc(rest, last);
      if last in rest {
        forall k | k in OwnFields(table, last) ensures k in Layered(table, rest) {
          LayeredKeys(table, rest, k);
        }
        MergeAbsorbs(Layered(table, [last]), Layered(table, rest));
      }
    }
  }

  // ---------------------------------------------------------------- the source's service

  class CredentialsOverwrites {
    const types: CredentialTypes
    var overwriteData: Table
    var resolvedTypes: seq<string>

    constructor (types: CredentialTypes)
      ensures this.types == types && overwriteData == map[] && resolvedTypes == []
    {
      this.types := types;
      overwriteData, resolvedTypes := map[], [];
    }

    method GetOverwrites(t: string) returns (overwrites: Option<Fields>)
      requires types.h.Acyclic() && Ranked(types.Extends(), types.h.rank)
      modifies this`resolvedTypes, types`loaded
      ensures types.Extends() == old(types.Extends())
      ensures (overwrites, resolvedTypes) ==
              Resolve(old(types.Extends()), types.h.rank, overwriteData, old(resolvedTypes), t)
      decreases types.h.rank(t)
    {
      if t in resolvedTypes {
        return if t in overwriteData then Some(overwriteData[t]) else None;
      }
      if !types.Recognizes(t) {
        return None;
      }
      var bases := types.GetByName(t);
      if bases.value.None? {
        resolvedTypes := resolvedTypes + [t];
        return if t in overwriteData then Some(overwriteData[t]) else None;
      }
      ghost var decl := types.Extends();
      var fields: Fields := map[];
      for i := 0 to |bases.value.value|
        invariant types.Extends() == decl == old(types.Extends())
        invariant (fields, resolvedTypes) ==
                  ResolveBases(decl, types.h.rank, overwriteData, old(resolvedTypes), t, i)
      {
        var more := GetOverwrites(bases.value.value[i]);
        fields := fields + (if more.Some? then more.value else map[]);
      }
      if t in overwriteData {
        fields := fields + overwriteData[t];
      }
      assert fields + map[] == fields;
      resolvedTypes := resolvedTypes + [t];
      return Some(fields);
    }

    /** `order` is the order in which the keys of the table are enumerated. */
    method SetData(data: Table, order: seq<string>)
      requires types.h.Acyclic() && Ranked(types.Extends(), types.h.rank)
      modifies this, types`loaded
      ensures types.Extends() == old(types.Extends())
      ensures (overwriteData, resolvedTypes) ==
              Settle(old(types.Extends()), types.h.rank, data, order, |order|)
    {
      resolvedTypes := [];
      overwriteData := data;
      for i := 0 to |order|
        invariant types.Extends() == old(types.Extends())
        invariant (overwriteData, resolvedTypes) ==
                  Settle(old(types.Extends()), types.h.rank, data, order, i)
      {
        var overwrites := GetOverwrites(order[i]);
        if overwrites.Some? && overwrites.value != map[] {
          overwriteData := overwriteData[order[i] := overwrites.value];
        }
      }
    }

    /** However much the `extends` arrays have grown, the answer is the one of the declared lists. */
    method Get(name: string) returns (acc: Fields)
      requires types.Valid()
      modifies types`lists
      ensures types.Valid()
      ensures acc == Effective(types.h, overwriteData, name)
    {
      hide Settled, Deduplicated, Layered, Hierarchy.Ancestors;
      ghost var lists := types.lists;
      var parents := types.GetParentTypes(name);
      SettledAfterCall(types.h, lists, types.lists, name);
      SameEffective(overwriteData, name, parents, types.h.Ancestors(name));
      acc := MergeChain([name] + parents);
    }

    /** The reversed chain of types, merged into one object. */
    method MergeChain(chain: seq<string>) returns (acc: Fields)
      ensures acc == Layered(overwriteData, chain)
    {
      acc := map[];
      var i := |chain|;
      assert chain[i..] == [];
      while i > 0
        invariant 0 <= i <= |chain|
        invariant acc == Layered(overwriteData, chain[i..])
      {
        i := i - 1;
        assert chain[i..][1..] == chain[i + 1..];
        if chain[i] in overwriteData {
          acc := acc + overwriteData[chain[i]];
        }
      }
      assert chain[0..] == chain;
    }

    method ApplyOverwrite(t: string, data: Fields) returns (returnData: Fields)
      requires types.Valid()
      modifies types`lists
      ensures types.Valid()
      ensures returnData == Filled(data, Effective(types.h, overwriteData, t))
    {
      var overwrites := Get(t);
      returnData := Fill(data, overwrites);
    }
  }

  /** The loop of `applyOverwrite`, over the keys in any order. */
  method Fill(data: Fields, overwrites: Fields) returns (returnData: Fields)
    ensures returnData == Filled(data, overwrites)
  {
    returnData := data;
    var keys := overwrites.Keys;
    assert overwrites - keys == map[];
    while keys != {}
      invariant keys <= overwrites.Keys
      invariant returnData == Filled(data, overwrites - keys)
      decreases keys
    {
      var key :| key in keys;
      FilledStep(data, overwrites, keys, key);
      keys := keys - {key};
      if key !in returnData || Unset(returnData[key]) {
        returnData := returnData[key := overwrites[key]];
      }
    }
    assert overwrites - {} == overwrites;
  }

  lemma FilledStep(data: Fields, overwrites: Fields, keys: set<string>, key: string)
    requires keys <= overwrites.Keys && key in keys
    ensures var before, after := Filled(data, overwrites - keys), Filled(data, overwrites - (keys - {key}));
            after == if key !in before || Unset(before[key]) then before[key := overwrites[key]] else before
  {
    var before, after := Filled(data, overwrites - keys), Filled(data, overwrites - (keys - {key}));
    assert after.Keys == before.Keys + {key};
  }

  lemma SameEffective(table: Table, t: string, a: seq<string>, b: seq<string>)
    requires Deduplicated(a) == Deduplicated(b)
    ensures Layered(table, [t] + a) == Layered(table, [t] + b)
  {
    DeduplicatedConcat([t], [t], a, b);
    LayeredDeduplicated(table, [t] + a);
    LayeredDeduplicated(table, [t] + b);
  }
}
