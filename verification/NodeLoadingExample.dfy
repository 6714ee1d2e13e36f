/** Two nodes that share their options, and what post-processing them twice does to the tool of one. */
module NodeLoadingExample {
  import opened Wrappers
  import opened NodeLoading
  import opened NodeLoadingTheorems

  /** An old version of a node that can be a tool, and the latest one, which takes custom calls; they share the
      options of their resource. */
  function SharedNodes(): seq<Description> {
    [Description("n", false, true, [], [Property("resource", Some(0))]),
     Description("n", true, false, ["api"], [Property("resource", Some(0))])]
  }

  function SharedLoader(): Loader {
    Loader("dir", "pkg", true, map[], map[], SharedNodes(), [CredentialType("api", true, None)])
  }

  /** The state before post-processing, once it has run (`offset` is where the copies for the tool begin). */
  function Before(): State {
    State([SharedLoader()], map[], map[0 := ["a"]], map[], map[], [], [])
  }

  function ToolsMade(options: Arrays, offset: nat): State {
    State([SharedLoader()], map[], options, map["nTool" := None], map[],
          SharedNodes() + [Tool(SharedNodes()[0], offset)], [CredentialType("api", true, None)])
  }

  function Once(): State { ToolsMade(map[0 := ["a", CUSTOM_API_CALL_NAME], 1 := ["a"]], 1) }

  function Again(): State {
    ToolsMade(map[0 := ["a", CUSTOM_API_CALL_NAME], 1 := ["a"], 2 := ["a", CUSTOM_API_CALL_NAME]], 2)
  }

  lemma SharedTables(s: State)
    requires s.loaders == [SharedLoader()]
    ensures AllNodes(s.loaders) == SharedNodes() && AllCredentials(s.loaders) == [CredentialType("api", true, None)]
    ensures Merged(s.names, s.loaders) == map[] && MergedNodes(s.loaders) == map[]
    ensures Usable(AllNodes(s.loaders)) == [SharedNodes()[0]]
    ensures NodesWithTools([SharedNodes()[0]], 1, map[]) == map["nTool" := None]
  {
    assert s.loaders[..0] == [] && AllNodes([]) == [] && AllCredentials([]) == [];
    assert Merged(s.names, []) == map[] && MergedNodes([]) == map[];
    SharedUsable();
    hide Usable;
  }

  lemma SharedUsable()
    ensures Usable(SharedNodes()) == [SharedNodes()[0]]
    ensures NodesWithTools([SharedNodes()[0]], 1, map[]) == map["nTool" := None]
  {
    var nodes := SharedNodes();
    assert nodes[..1] == [nodes[0]] && [nodes[0]][..0] == [] && Usable([]) == [];
    assert Usable([nodes[0]]) == [nodes[0]] && Usable(nodes) == [nodes[0]];
    assert "n" + "Tool" == "nTool";
  }

  lemma SharedTargets(s: State)
    requires s.loaders == [SharedLoader()]
    ensures TargetsOf(s) == {0} && TargetsIn(s.names, AllCredentials(s.loaders), SharedNodes()[0]) == {}
  {
    SharedTables(s);
    var nodes, creds := SharedNodes(), [CredentialType("api", true, None)];
    assert nodes[..1] == [nodes[0]] && [nodes[0]][..0] == [];
    assert Find(creds, "api") == Some(creds[0]) && Proxies(s.names, creds[0]);
    assert "api" in nodes[1].credentials && SupportsProxyAuth(s.names, creds, nodes[1]);
    var p := Property("resource", Some(0));
    assert nodes[1].properties == [p] && [p][..0] == [] && CallArrays([p][..0]) == {};
    assert CallArrays([p]) == {} + {0} == {0};
    assert TargetsIn(s.names, creds, nodes[0]) == {} && TargetsIn(s.names, creds, nodes[1]) == {0};
    assert Targets(s.names, creds, [nodes[0]]) == {};
    assert Targets(s.names, creds, nodes) == {} + {0};
  }

  /** The arrays after one round: the shared one has the custom call, and there is a copy for the tool. */
  ghost predicate RoundArrays(s: State, options: Arrays, offset: nat, shared: seq<string>) {
    && s.loaders == [SharedLoader()] && s.names == map[] && 0 in s.options && s.options[0] == shared != []
    && offset !in s.options && options == s.options[0 := Injected(shared)][offset := shared]
  }

  lemma RoundCopied(s: State, options: Arrays, offset: nat, shared: seq<string>)
    requires RoundArrays(s, options, offset, shared)
    ensures ToolOf(s, options, SharedNodes()[0], Tool(SharedNodes()[0], offset))
  {
    SharedTargets(s);
    hide TargetsOf, TargetsIn, AllNodes, AllCredentials, Injected, Tool;
    assert offset + 0 == offset;
    assert Copied(s, options, SharedNodes()[0], offset);
  }

  lemma RoundInjected(s: State, options: Arrays, offset: nat, shared: seq<string>)
    requires RoundArrays(s, options, offset, shared)
    ensures NoEmptyTarget(s) && Kept(InjectedAll(s.options, TargetsOf(s)), options)
  {
    SharedTargets(s);
    hide TargetsOf, TargetsIn, AllNodes, AllCredentials, Injected, SharedLoader;
  }

  /** One round of post-processing over the shared nodes. */
  lemma SharedRound(s: State, options: Arrays, offset: nat, shared: seq<string>)
    requires RoundArrays(s, options, offset, shared)
    ensures PostProcessed(s, ToolsMade(options, offset), true)
  {
    hide ToolOf, NoEmptyTarget, TargetsOf, InjectedAll, AllNodes, AllCredentials, Merged, MergedNodes, Usable;
    hide NodesWithTools, Tool, KnownViews, ViewsWithTools, SharedNodes, SharedLoader, RoundArrays, ToolsMade;
    RoundCopied(s, options, offset, shared);
    RoundInjected(s, options, offset, shared);
    RoundTables(s, options, offset, shared);
  }

  lemma RoundTables(s: State, options: Arrays, offset: nat, shared: seq<string>)
    requires RoundArrays(s, options, offset, shared)
    ensures var s', u := ToolsMade(options, offset), SharedNodes()[0];
            && s'.loaders == s.loaders && Kept(s.names, s'.names) && s'.options == options
            && s'.knownNodes == NodesWithTools([u], 1, MergedNodes(s.loaders))
            && KnownViews(s') == ViewsWithTools([u], 1, Merged(s.names, s.loaders))
            && s'.credentials == AllCredentials(s.loaders) && Usable(AllNodes(s.loaders)) == [u]
            && |AllNodes(s.loaders)| == 2 && |s'.nodes| == 3 && s'.nodes[..2] == AllNodes(s.loaders)
            && s'.nodes[2] == Tool(u, offset)
  {
    hide AllNodes, AllCredentials, Merged, MergedNodes, Usable, NodesWithTools, Tool, Injected;
    hide KnownViews, ViewsWithTools;
    SharedTables(s);
    NoViews(ToolsMade(options, offset), SharedNodes()[0]);
  }

  lemma NoViews(s: State, u: Description)
    requires s.knownCredentials == map[]
    ensures KnownViews(s) == map[] == ViewsWithTools([u], 1, map[])
  {
  }

  lemma RoundOptions(s: State, options: Arrays, offset: nat, shared: seq<string>)
    requires RoundArrays(s, options, offset, shared)
    ensures var u, d := SharedNodes()[0], ToolsMade(options, offset).nodes[2];
            |u.properties| <= |d.properties| && ToolOptions(options, u, d, 0) == shared
  {
    var u := SharedNodes()[0];
    assert ToolsMade(options, offset).nodes[2] == Tool(u, offset);
    PropertyOfTool(u, offset, 0);
    hide Tool, Injected;
  }

  /** The two rounds give the tool different options: the custom call that the latest version takes has reached
      the list that the old version shares with it. */
  lemma SharedOptionsChangeTool()
    ensures LoadersOk(Before().names, Before().options, Before().loaders)
    ensures PostProcessed(Before(), Once(), true) && PostProcessed(Once(), Again(), true)
    ensures var u := SharedNodes()[0];
            && |u.properties| <= |Once().nodes[2].properties| && |u.properties| <= |Again().nodes[2].properties|
            && ToolOptions(Once().options, u, Once().nodes[2], 0) == ["a"]
            && ToolOptions(Again().options, u, Again().nodes[2], 0) == ["a", CUSTOM_API_CALL_NAME]
  {
    var one, two := ["a"], ["a", CUSTOM_API_CALL_NAME];
    BeforeOk();
    RoundsMade();
    hide PostProcessed, LoadersOk, Tool, ToolOptions, RoundArrays, SharedNodes;
    SharedRound(Before(), Once().options, 1, one);
    RoundOptions(Before(), Once().options, 1, one);
    SharedRound(Once(), Again().options, 2, two);
    RoundOptions(Once(), Again().options, 2, two);
  }

  lemma BeforeOk()
    ensures LoadersOk(Before().names, Before().options, Before().loaders)
  {
    hide AllNodes, AllCredentials, SharedNodes, Merged, MergedNodes, Usable, NodesWithTools;
    SharedTables(Before());
    SharedOptionsExist(Before().options);
  }

  lemma SharedOptionsExist(options: Arrays)
    requires 0 in options
    ensures OptionsExist(options, SharedNodes())
  {
  }

  lemma RoundsMade()
    ensures RoundArrays(Before(), Once().options, 1, ["a"])
    ensures RoundArrays(Once(), Again().options, 2, ["a", CUSTOM_API_CALL_NAME])
  {
    assert Injected(["a"]) == ["a", CUSTOM_API_CALL_NAME] by { assert "a"[0] != CUSTOM_API_CALL_NAME[0]; }
    assert Injected(["a", CUSTOM_API_CALL_NAME]) == ["a", CUSTOM_API_CALL_NAME];
    hide Tool, SharedNodes, Injected;
  }
}
