/** What post-processing the loaders keeps, and what running it again changes. */
module NodeLoadingTheorems {
  import opened Wrappers
  import opened NodeLoading

  // ---------------------------------------------------------------- running it again

  lemma {:induction false} MergedKept(names: Arrays, names': Arrays, loaders: seq<Loader>)
    requires Kept(names, names') && forall l :: l in loaders ==> NamesExist(names, l)
    ensures Merged(names', loaders) == Merged(names, loaders)
  {
    if loaders != [] {
      var l := loaders[|loaders| - 1];
      MergedKept(names, names', loaders[..|loaders| - 1]);
      assert NamesExist(names, l);
      forall t | t in l.knownCredentials ensures Contribution(names', l, t) == Contribution(names, l, t) {
        ContributionKept(names, names', l, t);
      }
      hide Kept, NamesExist, Contribution;
    }
  }

  /** A contribution is the same when the arrays of the loader are. */
  lemma ContributionKept(names: Arrays, names': Arrays, l: Loader, t: string)
    requires Kept(names, names') && NamesExist(names, l) && t in l.knownCredentials
    ensures Contribution(names', l, t) == Contribution(names, l, t)
  {
  }

  lemma {:induction false} CredentialsExist(names: Arrays, loaders: seq<Loader>, c: CredentialType)
    requires (forall l :: l in loaders ==> NamesExist(names, l)) && c in AllCredentials(loaders)
    ensures c.parents.Some? ==> c.parents.value in names
  {
    var l := loaders[|loaders| - 1];
    if c in l.credentials {
      assert NamesExist(names, l);
    } else {
      CredentialsExist(names, loaders[..|loaders| - 1], c);
    }
  }

  lemma {:induction false} FindFinds(credentials: seq<CredentialType>, name: string)
    ensures Find(credentials, name).Some? ==> Find(credentials, name).value in credentials
  {
    if credentials != [] && credentials[0].name != name {
      FindFinds(credentials[1..], name);
    }
  }

  lemma SupportKept(names: Arrays, names': Arrays, loaders: seq<Loader>, d: Description)
    requires Kept(names, names') && forall l :: l in loaders ==> NamesExist(names, l)
    ensures SupportsProxyAuth(names', AllCredentials(loaders), d) ==
            SupportsProxyAuth(names, AllCredentials(loaders), d)
  {
    forall c | c in d.credentials && Find(AllCredentials(loaders), c).Some?
      ensures Proxies(names', Find(AllCredentials(loaders), c).value) ==
              Proxies(names, Find(AllCredentials(loaders), c).value)
    {
      FindFinds(AllCredentials(loaders), c);
      CredentialsExist(names, loaders, Find(AllCredentials(loaders), c).value);
    }
  }

  lemma {:induction false} TargetsKept(names: Arrays, names': Arrays, loaders: seq<Loader>, nodes: seq<Description>)
    requires Kept(names, names') && forall l :: l in loaders ==> NamesExist(names, l)
    ensures Targets(names', AllCredentials(loaders), nodes) == Targets(names, AllCredentials(loaders), nodes)
  {
    if nodes != [] {
      TargetsKept(names, names', loaders, nodes[..|nodes| - 1]);
      SupportKept(names, names', loaders, nodes[|nodes| - 1]);
    }
  }

  lemma {:induction false} CallArraysExist(options: Arrays, ps: seq<Property>, a: nat)
    requires a in CallArrays(ps) && forall j :: 0 <= j < |ps| && ps[j].options.Some? ==> ps[j].options.value in options
    ensures a in options
  {
    if a in CallArrays(ps[..|ps| - 1]) {
      CallArraysExist(options, ps[..|ps| - 1], a);
    }
  }

  lemma {:induction false} TargetsExist(names: Arrays, options: Arrays, credentials: seq<CredentialType>,
                                        nodes: seq<Description>, a: nat)
    requires OptionsExist(options, nodes) && a in Targets(names, credentials, nodes)
    ensures a in options
  {
    var rest, d := nodes[..|nodes| - 1], nodes[|nodes| - 1];
    if a in Targets(names, credentials, rest) {
      TargetsExist(names, options, credentials, rest, a);
    } else {
      CallArraysExist(options, d.properties, a);
    }
  }

  lemma {:induction false} TargetOfOne(names: Arrays, credentials: seq<CredentialType>, nodes: seq<Description>,
                                       d: Description)
    requires d in nodes
    ensures TargetsIn(names, credentials, d) <= Targets(names, credentials, nodes)
  {
    hide TargetsIn;
    if d != nodes[|nodes| - 1] {
      TargetOfOne(names, credentials, nodes[..|nodes| - 1], d);
    }
  }

  /** Hot reloads do not accumulate: running post-processing again on unchanged loaders works again, gives
      the same known tables and supported nodes, and pushes nothing into the loaders' options. */
  lemma ReprocessedIsSame(s: State, s1: State, s2: State, ok: bool)
    requires LoadersOk(s.names, s.options, s.loaders)
    requires PostProcessed(s, s1, true) && PostProcessed(s1, s2, ok)
    ensures ok && s2.knownNodes == s1.knownNodes && KnownViews(s2) == KnownViews(s1)
    ensures forall a :: a in s.options ==> a in s2.options && s2.options[a] == s1.options[a]
  {
    MergedKept(s.names, s1.names, s.loaders);
    TargetsKept(s.names, s1.names, s.loaders, AllNodes(s.loaders));
    hide KnownViews, ViewsWithTools, NodesWithTools, Merged, MergedNodes, AllNodes, AllCredentials, Usable, Targets;
    forall a | a in TargetsOf(s1) ensures Get(s1.options, a) != [] {
      TargetsExist(s.names, s.options, AllCredentials(s.loaders), AllNodes(s.loaders), a);
      assert InjectedAll(s.options, TargetsOf(s))[a] != [];
    }
    forall a | a in s.options ensures a in s2.options && s2.options[a] == s1.options[a] {
      assert s1.options[a] == InjectedAll(s.options, TargetsOf(s))[a];
      assert s2.options[a] == InjectedAll(s1.options, TargetsOf(s1))[a];
    }
  }

  // ---------------------------------------------------------------- the tools made anew

  /** The options that tool `d` has for property `j` of node `u`. */
  function ToolOptions(options: Arrays, u: Description, d: Description, j: nat): seq<string>
    requires j < |u.properties| <= |d.properties|
  {
    var p := d.properties[|d.properties| - |u.properties| + j];
    if p.options.Some? then Get(options, p.options.value) else []
  }

  lemma PropertyOfTool(u: Description, offset: nat, j: nat)
    requires j < |u.properties|
    ensures var d := Tool(u, offset);
            |u.properties| <= |d.properties|
              && d.properties[|d.properties| - |u.properties| + j] == Cloned(u.properties[j], offset)
  {
  }

  lemma OptionsOfToolOf(s: State, options: Arrays, u: Description, d: Description, j: nat)
    requires ToolOf(s, options, u, d) && j < |u.properties| && u.properties[j].options.Some?
    ensures |u.properties| <= |d.properties|
    ensures ToolOptions(options, u, d, j) == OptionsOfTool(s, u, u.properties[j].options.value)
  {
    hide OptionsOfTool, Tool;
    var offset: nat :| d == Tool(u, offset) && Copied(s, options, u, offset);
    PropertyOfTool(u, offset, j);
  }

  lemma {:induction false} UsableAmong(nodes: seq<Description>, i: nat)
    requires i < |Usable(nodes)|
    ensures Usable(nodes)[i] in nodes && Usable(nodes)[i].usableAsTool
  {
    var rest := nodes[..|nodes| - 1];
    if i < |Usable(rest)| {
      UsableAmong(rest, i);
    }
  }

  lemma OptionsExistIn(options: Arrays, nodes: seq<Description>, u: Description, j: nat)
    requires OptionsExist(options, nodes) && u in nodes && j < |u.properties| && u.properties[j].options.Some?
    ensures u.properties[j].options.value in options
  {
    var k :| 0 <= k < |nodes| && nodes[k] == u;
    assert nodes[k].properties[j].options.Some?;
  }

  /** The table of tools can change: a tool `d2` made anew differs from the tool `d1` made before in the
      options of a property exactly when these options are shared with a node that takes custom calls for
      them, which the node of the tool does not. */
  lemma ToolSameIff(s: State, s1: State, s2: State, ok: bool, u: Description, d1: Description, d2: Description, j: nat)
    requires LoadersOk(s.names, s.options, s.loaders)
    requires PostProcessed(s, s1, true) && PostProcessed(s1, s2, ok)
    requires u in AllNodes(s.loaders) && ToolOf(s, s1.options, u, d1) && ToolOf(s1, s2.options, u, d2)
    requires j < |u.properties| && u.properties[j].options.Some?
    ensures |u.properties| <= |d1.properties| && |u.properties| <= |d2.properties|
    ensures var a := u.properties[j].options.value;
            ToolOptions(s2.options, u, d2, j) == ToolOptions(s1.options, u, d1, j) <==>
            (a in TargetsOf(s) ==>
             a in TargetsIn(s.names, AllCredentials(s.loaders), u) || Injected(s.options[a]) == s.options[a])
  {
    var a := u.properties[j].options.value;
    OptionsOfToolOf(s, s1.options, u, d1, j);
    OptionsOfToolOf(s1, s2.options, u, d2, j);
    OptionsExistIn(s.options, AllNodes(s.loaders), u, j);
    hide ToolOptions, ToolOf, NodesWithTools, ViewsWithTools, KnownViews, Merged, Usable;
    SupportKept(s.names, s1.names, s.loaders, u);
    TargetOfOne(s.names, AllCredentials(s.loaders), AllNodes(s.loaders), u);
    hide Targets, CallArrays, AllNodes, AllCredentials, SupportsProxyAuth;
    assert s1.options[a] == InjectedAll(s.options, TargetsOf(s))[a];
  }

  /** From the second time on, the tools stay the same too: the shared options then end with the custom call. */
  lemma ToolsSettle(s: State, s1: State, s2: State, s3: State, ok2: bool, ok3: bool, u: Description, d2: Description,
                    d3: Description, j: nat)
    requires LoadersOk(s.names, s.options, s.loaders)
    requires PostProcessed(s, s1, true) && PostProcessed(s1, s2, ok2) && PostProcessed(s2, s3, ok3)
    requires u in AllNodes(s.loaders) && ToolOf(s1, s2.options, u, d2) && ToolOf(s2, s3.options, u, d3)
    requires j < |u.properties| && u.properties[j].options.Some?
    ensures |u.properties| <= |d2.properties| && |u.properties| <= |d3.properties|
    ensures ToolOptions(s3.options, u, d3, j) == ToolOptions(s2.options, u, d2, j)
  {
    var a := u.properties[j].options.value;
    OptionsExistIn(s.options, AllNodes(s.loaders), u, j);
    TargetsKept(s.names, s1.names, s.loaders, AllNodes(s.loaders));
    ReprocessedIsSame(s, s1, s2, ok2);
    LoadersStay(s, s1);
    assert s1.options[a] == InjectedAll(s.options, TargetsOf(s))[a];
    hide PostProcessed, LoadersOk, ToolOf, Targets, TargetsIn, AllNodes, AllCredentials, ToolOptions;
    ToolSameIff(s1, s2, s3, ok3, u, d2, d3, j);
  }

  lemma LoadersStay(s: State, s1: State)
    requires LoadersOk(s.names, s.options, s.loaders) && PostProcessed(s, s1, true)
    ensures LoadersOk(s1.names, s1.options, s1.loaders) && s1.loaders == s.loaders
  {
    forall l | l in s.loaders ensures NamesExist(s1.names, l) { assert NamesExist(s.names, l); }
    var done := InjectedAll(s.options, TargetsOf(s));
    forall a | a in s.options ensures a in s1.options { assert a in done; }
  }

  // ---------------------------------------------------------------- clashes

  /** The last loader that knows a credential type. */
  function LastKnowing(loaders: seq<Loader>, t: string): (r: Option<nat>)
    ensures r.Some? ==> r.value < |loaders| && t in loaders[r.value].knownCredentials
    ensures forall j :: (if r.Some? then r.value + 1 else 0) <= j < |loaders| ==> t !in loaders[j].knownCredentials
  {
    if loaders == [] then None
    else if t in loaders[|loaders| - 1].knownCredentials then Some(|loaders| - 1)
    else LastKnowing(loaders[..|loaders| - 1], t)
  }

  /** The merged table has exactly the types that some loader knows, each as the last of these loaders has it. */
  lemma {:induction false} LaterLoaderWins(names: Arrays, loaders: seq<Loader>, t: string)
    ensures t in Merged(names, loaders) <==> LastKnowing(loaders, t).Some?
    ensures LastKnowing(loaders, t).Some? ==>
              Merged(names, loaders)[t] == Contribution(names, loaders[LastKnowing(loaders, t).value], t)
  {
    hide Contribution;
    if loaders != [] {
      LaterLoaderWins(names, loaders[..|loaders| - 1], t);
    }
  }

  /** The tools of the nodes in `names`, in the order they are made. */
  function ToolsOf(usable: seq<Description>, n: nat, names: seq<string>): seq<string>
    requires n <= |usable|
  {
    if n == 0 then []
    else
      var r := ToolsOf(usable, n - 1, names);
      if usable[n - 1].name in names then r + [ToolName(usable[n - 1].name)] else r
  }

  lemma {:induction false} ToolsAreTools(usable: seq<Description>, n: nat, names: seq<string>, x: string)
    requires n <= |usable|
    ensures x in ToolsOf(usable, n, names) <==>
            exists i :: 0 <= i < n && usable[i].name in names && x == ToolName(usable[i].name)
  {
    if n > 0 {
      ToolsAreTools(usable, n - 1, names, x);
    }
  }

  /** When no usable node has the name of a tool made before it, a credential type supports its nodes and
      exactly their tools, one for each version of a node that can be a tool. */
  lemma {:induction false} SupportedNodesAndTheirTools(usable: seq<Description>, n: nat, names: seq<string>)
    requires n <= |usable|
    requires forall i, j :: 0 <= i < j < n ==> usable[j].name != ToolName(usable[i].name)
    ensures WithTools(usable, n, names) == names + ToolsOf(usable, n, names)
  {
    if n > 0 {
      SupportedNodesAndTheirTools(usable, n - 1, names);
      ToolsAreTools(usable, n - 1, names, usable[n - 1].name);
    }
  }
}
