/** The service that rebuilds its tables from the loaders (packages/cli/src/load-nodes-and-credentials.ts),
    against what `NodeLoading` promises. */
module LoadNodesAndCredentials {
  import opened Wrappers
  import opened NodeLoading
  import opened NodeLoadingTheorems
  import opened NodeLoadingSteps

  class LoadNodesAndCredentials {
    var loaders: seq<Loader>
    var names: Arrays
    var nextName: nat
    var options: Arrays
    var nextOption: nat
    var knownNodes: map<string, Option<KnownNode>>
    var knownCredentials: Table
    var typesNodes: seq<Description>
    var typesCredentials: seq<CredentialType>

    ghost function Model(): State
      reads this
    {
      State(loaders, names, options, knownNodes, knownCredentials, typesNodes, typesCredentials)
    }

    ghost predicate Valid()
      reads this
    {
      Below(names, nextName) && Below(options, nextOption) && LoadersOk(names, options, loaders)
    }

    /** The entry of one type is made anew, with an array of supported nodes of its own. */
    method CopyCredential(l: Loader, t: string) returns (k: KnownCredential)
      requires t in l.knownCredentials && Below(names, nextName)
      modifies this`names, this`nextName, this`knownCredentials
      ensures knownCredentials == old(knownCredentials)[t := k]
      ensures ViewOf(names, k) == Contribution(old(names), l, t)
      ensures k.supportedNodes.Some? ==> k.supportedNodes.value == old(nextName) && old(nextName) in names
      ensures nextName == if k.supportedNodes.Some? then old(nextName) + 1 else old(nextName)
      ensures Kept(old(names), names) && Below(names, nextName)
    {
      var d := l.knownCredentials[t];
      k := KnownCredential(d.className, Join(l.directory, d.sourcePath), None, d.parents);
      if l.isPackage && d.supportedNodes.Some? {
        k := k.(supportedNodes := Some(nextName));
        names := names[nextName := Prefixed(l.packageName, Get(names, d.supportedNodes.value))];
        nextName := nextName + 1;
      }
      knownCredentials := knownCredentials[t := k];
    }

    method CopyCredentials(l: Loader, ghost names0: Arrays, ghost views: Views, ghost start: nat)
      requires Below(names, nextName) && Kept(names0, names) && NamesExist(names0, l) && start <= nextName
      requires Shows(names, knownCredentials, views) && Fresh(knownCredentials, start, nextName)
      modifies this`names, this`nextName, this`knownCredentials
      ensures Below(names, nextName) && Kept(names0, names) && start <= nextName
      ensures Shows(names, knownCredentials, views + map t | t in l.knownCredentials :: Contribution(names0, l, t))
      ensures Fresh(knownCredentials, start, nextName)
    {
      hide Shows, Fresh, Contribution, ViewOf, Partly, NamesExist;
      var left := l.knownCredentials.Keys;
      PartlyAll(names0, views, l);
      while left != {}
        invariant left <= l.knownCredentials.Keys && start <= nextName
        invariant Below(names, nextName) && Kept(names0, names)
        invariant Shows(names, knownCredentials, Partly(names0, views, l, left))
                  && Fresh(knownCredentials, start, nextName)
        decreases left
      {
        var t :| t in left;
        ContributionKept(names0, names, l, t);
        PartlyStep(names0, views, l, left, t);
        ghost var known, had, next := knownCredentials, names, nextName;
        var k := CopyCredential(l, t);
        ShowsStep(had, names, known, Partly(names0, views, l, left), t, k);
        FreshStep(known, start, next, t, k);
        left := left - {t};
      }
    }

    /** The descriptions and the known nodes of one loader. */
    method CopyTypes(l: Loader)
      modifies this`typesNodes, this`typesCredentials, this`knownNodes
      ensures typesNodes == old(typesNodes) + l.nodes && typesCredentials == old(typesCredentials) + l.credentials
      ensures knownNodes == old(knownNodes) + map t | t in l.knownNodes ::
                              Some(KnownNode(l.knownNodes[t].className, Join(l.directory, l.knownNodes[t].sourcePath)))
    {
      typesNodes := typesNodes + l.nodes;
      typesCredentials := typesCredentials + l.credentials;
      knownNodes := knownNodes + map t | t in l.knownNodes ::
        Some(KnownNode(l.knownNodes[t].className, Join(l.directory, l.knownNodes[t].sourcePath)));
    }

    method MergeLoaders()
      requires Valid()
      modifies this`names, this`nextName, this`knownCredentials, this`knownNodes, this`typesNodes, this`typesCredentials
      ensures Below(names, nextName) && Kept(old(names), names) && old(nextName) <= nextName
      ensures Shows(names, knownCredentials, Merged(old(names), loaders))
              && Fresh(knownCredentials, old(nextName), nextName)
      ensures knownNodes == MergedNodes(loaders)
      ensures typesNodes == AllNodes(loaders) && typesCredentials == AllCredentials(loaders)
    {
      NothingYet(names, nextName);
      hide Contribution, Join, Shows, Fresh, NamesExist;
      knownNodes, knownCredentials, typesNodes, typesCredentials := map[], map[], [], [];
      for i := 0 to |loaders|
        invariant Below(names, nextName) && Kept(old(names), names) && old(nextName) <= nextName
        invariant Shows(names, knownCredentials, Merged(old(names), loaders[..i]))
        invariant Fresh(knownCredentials, old(nextName), nextName)
        invariant knownNodes == MergedNodes(loaders[..i])
        invariant typesNodes == AllNodes(loaders[..i]) && typesCredentials == AllCredentials(loaders[..i])
      {
        assert loaders[..i + 1][..i] == loaders[..i] && loaders[..i + 1][i] == loaders[i];
        CopyTypes(loaders[i]);
        CopyCredentials(loaders[i], old(names), Merged(old(names), loaders[..i]), old(nextName));
      }
      assert loaders[..|loaders|] == loaders;
    }

    /** The name of a tool goes into every list of supported nodes that has its node. */
    method PushTool(node: string, ghost views: Views, ghost start: nat)
      requires Shows(names, knownCredentials, views) && Fresh(knownCredentials, start, nextName)
      modifies this`names
      ensures SameBelow(old(names), names, start)
      ensures Shows(names, knownCredentials, PushedAll(views, node))
    {
      hide ViewOf, ToolName;
      var credentialNames := set t | t in knownCredentials && knownCredentials[t].supportedNodes.Some?
                                     && node in Get(names, knownCredentials[t].supportedNodes.value);
      ghost var all := credentialNames;
      while credentialNames != {}
        invariant credentialNames <= all && names.Keys == old(names).Keys
        invariant forall a :: a in names && a < start ==> names[a] == old(names)[a]
        invariant forall t :: t in knownCredentials && knownCredentials[t].supportedNodes.Some? ==>
                    var a := knownCredentials[t].supportedNodes.value;
                    names[a] == if t in all && t !in credentialNames then old(names)[a] + [ToolName(node)]
                      else old(names)[a]
        decreases credentialNames
      {
        var t :| t in credentialNames;
        var a := knownCredentials[t].supportedNodes.value;
        names := names[a := names[a] + [ToolName(node)]];
        credentialNames := credentialNames - {t};
      }
      ToolPushed(old(names), names, knownCredentials, views, node, all);
    }

    /** The options of a description are copied; the copy of array `a` is array `offset + a`. */
    method CloneOptions(d: Description) returns (offset: nat)
      requires Below(options, nextOption) && ArraysIn(options, d)
      modifies this`options, this`nextOption
      ensures offset == old(nextOption) && nextOption == offset + offset
      ensures Kept(old(options), options) && Below(options, nextOption) && ClonedInto(old(options), options, d, offset)
    {
      offset := nextOption;
      nextOption := offset + offset;
      for j := 0 to |d.properties|
        invariant nextOption == offset + offset && Kept(old(options), options) && Below(options, nextOption)
        invariant ClonedInto(old(options), options, d.(properties := d.properties[..j]), offset)
      {
        var p := d.properties[j];
        if p.options.Some? {
          options := options[offset + p.options.value := options[p.options.value]];
        }
      }
      assert d.properties[..|d.properties|] == d.properties;
    }

    method CreateAiTool(u: Description, ghost views: Views, ghost start: nat) returns (offset: nat)
      requires Shows(names, knownCredentials, views) && Fresh(knownCredentials, start, nextName)
      requires Below(options, nextOption) && ArraysIn(options, u)
      modifies this`names, this`options, this`nextOption, this`knownNodes, this`typesNodes
      ensures SameBelow(old(names), names, start)
      ensures Shows(names, knownCredentials, PushedAll(views, u.name))
      ensures typesNodes == old(typesNodes) + [Tool(u, offset)]
      ensures knownNodes ==
              old(knownNodes)[ToolName(u.name) := if u.name in old(knownNodes) then old(knownNodes)[u.name] else None]
      ensures offset == old(nextOption) && nextOption == offset + offset
      ensures Kept(old(options), options) && Below(options, nextOption) && ClonedInto(old(options), options, u, offset)
    {
      hide Shows, Fresh, Tool, ClonedInto, ArraysIn;
      offset := CloneOptions(u);
      typesNodes := typesNodes + [Tool(u, offset)];
      knownNodes := knownNodes[ToolName(u.name) := if u.name in knownNodes then knownNodes[u.name] else None];
      PushTool(u.name, views, start);
    }

    method CreateAiTools(ghost views: Views, ghost start: nat) returns (ghost offsets: seq<nat>)
      requires Shows(names, knownCredentials, views) && Fresh(knownCredentials, start, nextName)
      requires Below(options, nextOption) && OptionsExist(options, typesNodes)
      modifies this`names, this`options, this`nextOption, this`knownNodes, this`typesNodes
      ensures SameBelow(old(names), names, start)
      ensures Kept(old(options), options) && Below(options, nextOption)
      ensures var usable := Usable(old(typesNodes));
              && Shows(names, knownCredentials, ViewsWithTools(usable, |usable|, views))
              && knownNodes == NodesWithTools(usable, |usable|, old(knownNodes))
              && |offsets| == |usable| && typesNodes == old(typesNodes) + Tools(usable, offsets)
              && Made(old(options), old(nextOption), options, nextOption, usable, offsets)
    {
      hide Shows, Fresh, Usable, Tool, PushedAll, ViewsWithTools, ArraysIn, ClonedInto, Tools, Made, OptionsExist;
      var usable := Usable(typesNodes);
      offsets := [];
      NoToolsYet(usable, views, options, nextOption);
      assert usable[..0] == [];
      for i := 0 to |usable|
        invariant SameBelow(old(names), names, start)
        invariant Kept(old(options), options) && Below(options, nextOption)
        invariant Shows(names, knownCredentials, ViewsWithTools(usable, i, views))
        invariant knownNodes == NodesWithTools(usable, i, old(knownNodes))
        invariant |offsets| == i && typesNodes == old(typesNodes) + Tools(usable[..i], offsets)
        invariant Made(old(options), old(nextOption), options, nextOption, usable[..i], offsets)
      {
        UsableExist(options, old(options), old(typesNodes), i);
        ViewsWithToolsStep(usable, i, views);
        ghost var had, next := options, nextOption;
        var offset := CreateAiTool(usable[i], ViewsWithTools(usable, i, views), start);
        assert usable[..i + 1] == usable[..i] + [usable[i]];
        MadeStep(old(options), old(nextOption), had, next, options, usable[..i], offsets, usable[i], offset);
        offsets := offsets + [offset];
      }
      assert usable[..|usable|] == usable;
    }

    /** One list of options; an empty one has no last option to look at. */
    method PushCall(a: nat) returns (ok: bool)
      requires a in options
      modifies this`options
      ensures ok <==> old(options)[a] != []
      ensures options == if ok then old(options)[a := Injected(old(options)[a])] else old(options)
    {
      if options[a] == [] {
        return false;
      }
      if options[a][|options[a]| - 1] != CUSTOM_API_CALL_NAME {
        options := options[a := options[a] + [CUSTOM_API_CALL_NAME]];
      }
      ok := true;
    }

    /** The options of one node that takes custom calls. */
    method InjectIntoNode(d: Description) returns (ok: bool)
      requires forall j :: 0 <= j < |d.properties| && d.properties[j].options.Some? ==>
               d.properties[j].options.value in options
      modifies this`options
      ensures options.Keys == old(options).Keys
      ensures ok <==> NoneEmpty(old(options), CallArrays(d.properties))
      ensures ok ==> options == InjectedAll(old(options), CallArrays(d.properties))
      ensures PartlyInjected(old(options), options)
    {
      hide InjectedAll, CallArrays, Injected;
      var ps := d.properties;
      NoneYet(options);
      for j := 0 to |ps|
        invariant options.Keys == old(options).Keys
        invariant NoneEmpty(old(options), CallArrays(ps[..j]))
        invariant options == InjectedAll(old(options), CallArrays(ps[..j]))
      {
        CallArraysSnoc(ps, j);
        if TakesCalls(ps[j]) {
          InjectedStep(old(options), CallArrays(ps[..j]), ps[j].options.value);
          InjectedIsPartly(old(options), CallArrays(ps[..j]));
          ok := PushCall(ps[j].options.value);
          if !ok {
            CallArraysGrow(ps, j + 1, |ps|);
            return;
          }
        }
      }
      assert ps[..|ps|] == ps;
      InjectedIsPartly(old(options), CallArrays(ps));
      ok := true;
    }

    method InjectCustomApiCallOptions() returns (ok: bool)
      requires OptionsExist(options, typesNodes)
      modifies this`options
      ensures options.Keys == old(options).Keys
      ensures ok <==> NoneEmpty(old(options), Targets(names, typesCredentials, typesNodes))
      ensures ok ==> options == InjectedAll(old(options), Targets(names, typesCredentials, typesNodes))
      ensures PartlyInjected(old(options), options)
    {
      hide InjectedAll, TargetsIn, CallArrays;
      ghost var all, nodes := Targets(names, typesCredentials, typesNodes), typesNodes;
      NoneYet(options);
      for i := 0 to |typesNodes|
        invariant options.Keys == old(options).Keys && typesNodes == nodes
        invariant NoneEmpty(old(options), Targets(names, typesCredentials, nodes[..i]))
        invariant options == InjectedAll(old(options), Targets(names, typesCredentials, nodes[..i]))
      {
        var node := typesNodes[i];
        ghost var done := Targets(names, typesCredentials, nodes[..i]);
        TargetsSnoc(names, typesCredentials, nodes, i);
        if node.latest && SupportsProxyAuth(names, typesCredentials, node) {
          InjectedTwice(old(options), done, TargetsIn(names, typesCredentials, node));
          TargetsAreCalls(names, typesCredentials, node);
          ghost var had := options;
          ok := InjectIntoNode(node);
          InjectedIsPartly(old(options), done);
          PartlyTwice(old(options), had, options);
          if !ok {
            TargetsGrow(names, typesCredentials, nodes, i + 1, |nodes|);
            return;
          }
        } else {
          NoTargets(names, typesCredentials, node);
        }
      }
      assert nodes[..|nodes|] == nodes;
      InjectedIsPartly(old(options), all);
      ok := true;
    }

    /** Rebuilds all tables.  It fails where an empty list of options is looked at. */
    method PostProcessLoaders() returns (ok: bool)
      requires Valid()
      modifies this
      ensures PostProcessed(old(Model()), Model(), ok) && Valid()
    {
      hide Shows, Fresh, Made, Usable, AllNodes, AllCredentials, Targets, Merged, MergedNodes;
      hide NodesWithTools, ViewsWithTools, InjectedAll, Tools, NamesExist, OptionsExist;
      ghost var s, next := Model(), nextOption;
      MergeLoaders();
      ghost var names1 := names;
      ghost var offsets := CreateAiTools(Merged(s.names, loaders), old(nextName));
      ghost var options1, usable := options, Usable(AllNodes(loaders));
      SameBelowKept(s.names, names1, names, old(nextName));
      ToolsExist(s.options, options, next, nextOption, AllNodes(loaders), usable, offsets);
      ok := InjectCustomApiCallOptions();
      ShowsIsViews(Model(), ViewsWithTools(usable, |usable|, Merged(s.names, s.loaders)));
      TargetsKept(s.names, names, loaders, typesNodes);
      UsableAreNodes(AllNodes(loaders));
      EmptyTargets(s, options1, next, nextOption, usable, offsets);
      if ok {
        Finished(s, options1, next, nextOption, usable, offsets);
      }
      PartlyFrom(s.options, options1, options);
      StillLoaded(s, names, options);
      ToolsAfter(AllNodes(loaders), usable, offsets);
    }
  }
}
