/** What post-processing leaves, said of what the loaders have: their nodes, their credentials and their arrays. */
module NodeLoadingEffects {
  import opened Wrappers
  import opened NodeLoading
  import opened NodeLoadingTheorems

  // ---------------------------------------------------------------- nodes and credentials of all loaders

  /** The loaders are walked in order, each with all its nodes and credentials. */
  lemma LoadersInOrder(loaders: seq<Loader>, i: nat)
    requires i < |loaders|
    ensures AllNodes([]) == [] && AllNodes(loaders[..i + 1]) == AllNodes(loaders[..i]) + loaders[i].nodes
    ensures AllCredentials([]) == []
    ensures AllCredentials(loaders[..i + 1]) == AllCredentials(loaders[..i]) + loaders[i].credentials
  {
    assert loaders[..i + 1][..i] == loaders[..i];
  }

  lemma {:induction false} NodeOfLoader(loaders: seq<Loader>, i: nat, d: Description)
    requires i < |loaders| && d in loaders[i].nodes
    ensures d in AllNodes(loaders)
  {
    if i < |loaders| - 1 {
      NodeOfLoader(loaders[..|loaders| - 1], i, d);
    }
  }

  // ---------------------------------------------------------------- custom API calls

  /** Credential `k` is the first of this name. */
  ghost predicate FirstNamed(credentials: seq<CredentialType>, name: string, k: int) {
    0 <= k < |credentials| && credentials[k].name == name && forall m :: 0 <= m < k ==> credentials[m].name != name
  }

  /** The credential authenticates requests itself, or extends one of three OAuth credentials. */
  ghost predicate Authenticates(names: Arrays, c: CredentialType) {
    || c.authenticates
    || (c.parents.Some? && c.parents.value in names
        && ("oAuth2Api" in names[c.parents.value] || "googleOAuth2Api" in names[c.parents.value]
            || "oAuth1Api" in names[c.parents.value]))
  }

  /** The latest version of a node that can make requests for its credentials. */
  ghost predicate OffersCalls(names: Arrays, credentials: seq<CredentialType>, d: Description) {
    && d.latest
    && exists name, k ::
         name in d.credentials && FirstNamed(credentials, name, k) && Authenticates(names, credentials[k])
  }

  /** The list of options `a` is that of a resource or an operation. */
  ghost predicate ListsChoices(d: Description, a: nat) {
    exists p :: p in d.properties && p.options == Some(a) && (p.name == "resource" || p.name == "operation")
  }

  lemma {:induction false} FindIsFirst(credentials: seq<CredentialType>, name: string)
    ensures forall k :: FirstNamed(credentials, name, k) ==> Find(credentials, name) == Some(credentials[k])
    ensures Find(credentials, name).Some? ==> exists k :: FirstNamed(credentials, name, k)
  {
    if credentials != [] {
      if credentials[0].name == name {
        assert FirstNamed(credentials, name, 0);
      } else {
        FindIsFirst(credentials[1..], name);
        forall k | FirstNamed(credentials, name, k) ensures Find(credentials, name) == Some(credentials[k]) {
          assert FirstNamed(credentials[1..], name, k - 1);
        }
        if k :| FirstNamed(credentials[1..], name, k) {
          assert FirstNamed(credentials, name, k + 1);
        }
      }
    }
  }

  lemma ProxiesIff(names: Arrays, c: CredentialType)
    ensures Proxies(names, c) <==> Authenticates(names, c)
  {
    assert ProxyParent("oAuth2Api") && ProxyParent("googleOAuth2Api") && ProxyParent("oAuth1Api");
    if !c.authenticates && c.parents.Some? && c.parents.value in names {
      var list := Get(names, c.parents.value);
      assert list == names[c.parents.value];
      if p :| p in list && ProxyParent(p) {
        assert p == "oAuth2Api" || p == "googleOAuth2Api" || p == "oAuth1Api";
      }
    }
  }

  lemma SupportIff(names: Arrays, credentials: seq<CredentialType>, d: Description)
    ensures d.latest && SupportsProxyAuth(names, credentials, d) <==> OffersCalls(names, credentials, d)
  {
    forall name
      ensures forall k :: FirstNamed(credentials, name, k) ==> Find(credentials, name) == Some(credentials[k])
      ensures Find(credentials, name).Some? ==> exists k :: FirstNamed(credentials, name, k)
    {
      FindIsFirst(credentials, name);
    }
    forall c ensures Proxies(names, c) <==> Authenticates(names, c) { ProxiesIff(names, c); }
    hide Find, Proxies, Authenticates, FirstNamed;
    if OffersCalls(names, credentials, d) {
      var name, k :| name in d.credentials && FirstNamed(credentials, name, k) && Authenticates(names, credentials[k]);
      assert Find(credentials, name) == Some(credentials[k]);
    }
  }

  lemma {:induction false} CallArraysIff(ps: seq<Property>, a: nat)
    ensures a in CallArrays(ps) <==>
            exists p :: p in ps && p.options == Some(a) && (p.name == "resource" || p.name == "operation")
  {
    if ps != [] {
      var rest, p := ps[..|ps| - 1], ps[|ps| - 1];
      assert ps == rest + [p];
      CallArraysIff(rest, a);
    }
  }

  lemma TargetIff(names: Arrays, credentials: seq<CredentialType>, d: Description, a: nat)
    ensures a in TargetsIn(names, credentials, d) <==> OffersCalls(names, credentials, d) && ListsChoices(d, a)
  {
    SupportIff(names, credentials, d);
    CallArraysIff(d.properties, a);
    hide CallArrays, OffersCalls, SupportsProxyAuth;
  }

  /** Some node that offers calls lists its choices in `a`. */
  ghost predicate Chosen(names: Arrays, credentials: seq<CredentialType>, nodes: seq<Description>, a: nat) {
    exists d :: d in nodes && OffersCalls(names, credentials, d) && ListsChoices(d, a)
  }

  lemma {:induction false} TargetsIff(names: Arrays, credentials: seq<CredentialType>, nodes: seq<Description>, a: nat)
    ensures a in Targets(names, credentials, nodes) <==> Chosen(names, credentials, nodes, a)
  {
    hide OffersCalls, ListsChoices;
    if nodes != [] {
      var rest, d := nodes[..|nodes| - 1], nodes[|nodes| - 1];
      assert nodes == rest + [d];
      TargetsIff(names, credentials, rest, a);
      TargetIff(names, credentials, d, a);
      hide TargetsIn;
    }
  }

  /** The list with the custom call at its end, once. */
  ghost predicate EndsWithCall(before: seq<string>, after: seq<string>) {
    && after != [] && after[|after| - 1] == "Custom API Call"
    && (after == before || after == before + ["Custom API Call"])
    && (before != [] && before[|before| - 1] == "Custom API Call" ==> after == before)
  }

  /** Post-processing puts a custom call at the end of exactly the lists in which a node that offers calls lists its
      choices of a resource or an operation; it leaves every other list of the loaders as it is. */
  lemma CallsAdded(s: State, s': State, a: nat)
    requires LoadersOk(s.names, s.options, s.loaders) && PostProcessed(s, s', true) && a in s.options
    ensures a in s'.options
    ensures if Chosen(s.names, AllCredentials(s.loaders), AllNodes(s.loaders), a)
            then EndsWithCall(s.options[a], s'.options[a]) else s'.options[a] == s.options[a]
  {
    hide LoadersOk, Merged, MergedNodes, Usable, NodesWithTools, ViewsWithTools, KnownViews, ToolOf, NoEmptyTarget;
    hide AllNodes, AllCredentials, Targets, Chosen;
    TargetsIff(s.names, AllCredentials(s.loaders), AllNodes(s.loaders), a);
    assert a in InjectedAll(s.options, TargetsOf(s));
  }

  /** It works exactly if no such list is empty. */
  lemma WorksIff(s: State, s': State, ok: bool)
    requires LoadersOk(s.names, s.options, s.loaders) && PostProcessed(s, s', ok)
    ensures ok <==> forall a :: Chosen(s.names, AllCredentials(s.loaders), AllNodes(s.loaders), a) ==>
                      a in s.options && s.options[a] != []
  {
    hide LoadersOk, Merged, MergedNodes, Usable, NodesWithTools, ViewsWithTools, KnownViews, ToolOf, InjectedAll;
    hide AllNodes, AllCredentials, Targets, Chosen, PartlyInjected;
    forall a ensures a in TargetsOf(s) <==> Chosen(s.names, AllCredentials(s.loaders), AllNodes(s.loaders), a) {
      TargetsIff(s.names, AllCredentials(s.loaders), AllNodes(s.loaders), a);
    }
  }

  // ---------------------------------------------------------------- known credentials

  /** Loader `i` is the last one that knows the credential type. */
  ghost predicate LastToKnow(loaders: seq<Loader>, t: string, i: int) {
    && 0 <= i < |loaders| && t in loaders[i].knownCredentials
    && forall j :: i < j < |loaders| ==> t !in loaders[j].knownCredentials
  }

  /** The names with the name of the package and a dot before each. */
  ghost predicate WithPackage(package: string, names: seq<string>, prefixed: seq<string>) {
    |prefixed| == |names| && forall i :: 0 <= i < |names| ==> prefixed[i] == package + "." + names[i]
  }

  predicate IsTool(usable: seq<Description>, x: string, node: string) {
    x == node + "Tool" && exists i :: 0 <= i < |usable| && usable[i].name == node
  }

  /** `x` is the tool of a node in the list. */
  ghost predicate ToolOfOne(usable: seq<Description>, list: seq<string>, x: string) {
    exists node :: node in list && IsTool(usable, x, node)
  }

  /** The list goes on with tools, each of a node that it has, and has the tool of each of the first `n` usable nodes
      that it began with. */
  ghost predicate WithTheirTools(usable: seq<Description>, n: nat, before: seq<string>, after: seq<string>)
    requires n <= |usable|
  {
    && before <= after
    && (forall i :: |before| <= i < |after| ==> ToolOfOne(usable, after, after[i]))
    && (forall i :: 0 <= i < n && usable[i].name in before ==> usable[i].name + "Tool" in after)
  }

  lemma {:induction false} ToolsFollow(usable: seq<Description>, n: nat, names: seq<string>)
    requires n <= |usable|
    ensures WithTheirTools(usable, n, names, WithTools(usable, n, names))
  {
    hide WithTheirTools;
    if n == 0 {
      NoToolsFollow(usable, names);
    } else {
      ToolsFollow(usable, n - 1, names);
      OneToolFollows(usable, n, names, WithTools(usable, n - 1, names));
    }
  }

  lemma NoToolsFollow(usable: seq<Description>, names: seq<string>)
    ensures WithTheirTools(usable, 0, names, names)
  {
  }

  lemma OneToolFollows(usable: seq<Description>, n: nat, names: seq<string>, r: seq<string>)
    requires 0 < n <= |usable| && WithTheirTools(usable, n - 1, names, r)
    ensures WithTheirTools(usable, n, names, if usable[n - 1].name in r then r + [usable[n - 1].name + "Tool"] else r)
  {
    var u := usable[n - 1].name;
    var r' := if u in r then r + [u + "Tool"] else r;
    forall i | |names| <= i < |r'| ensures ToolOfOne(usable, r', r'[i]) {
      if i < |r| {
        assert ToolOfOne(usable, r, r[i]);
      } else {
        assert u in r' && IsTool(usable, u + "Tool", u);
      }
    }
    hide IsTool, ToolOfOne;
  }

  /** What post-processing knows of a credential type: what the last loader has that knows it, its path inside the
      loader's directory; the nodes it supports come with the name of the package and are followed by their tools;
      from other loaders than packages there are none. */
  ghost predicate KnownAs(s: State, l: Loader, t: string, usable: seq<Description>, v: View)
    requires t in l.knownCredentials
  {
    var k := l.knownCredentials[t];
    && v.className == k.className && v.sourcePath == l.directory + "/" + k.sourcePath && v.parents == k.parents
    && match k.supportedNodes
       case Some(a) =>
         if l.isPackage then
           v.supportedNodes.Some?
           && exists prefixed :: WithPackage(l.packageName, if a in s.names then s.names[a] else [], prefixed)
                                 && WithTheirTools(usable, |usable|, prefixed, v.supportedNodes.value)
         else v.supportedNodes == None
       case None => v.supportedNodes == None
  }

  lemma CredentialsKnown(s: State, s': State, ok: bool, t: string)
    requires PostProcessed(s, s', ok)
    ensures t in s'.knownCredentials <==> exists i :: 0 <= i < |s.loaders| && t in s.loaders[i].knownCredentials
    ensures forall i :: LastToKnow(s.loaders, t, i) ==>
              t in s'.knownCredentials
              && KnownAs(s, s.loaders[i], t, Usable(AllNodes(s.loaders)), ViewOf(s'.names, s'.knownCredentials[t]))
  {
    hide AllNodes, AllCredentials, Usable, NodesWithTools, MergedNodes, Merged, ToolOf, NoEmptyTarget, TargetsOf;
    hide Contribution, WithTools, ViewOf, InjectedAll, PartlyInjected, KnownAs;
    var usable := Usable(AllNodes(s.loaders));
    LaterLoaderWins(s.names, s.loaders, t);
    assert t in KnownViews(s') <==> t in s'.knownCredentials;
    assert t in ViewsWithTools(usable, |usable|, Merged(s.names, s.loaders)) <==> t in Merged(s.names, s.loaders);
    forall i | LastToKnow(s.loaders, t, i)
      ensures t in s'.knownCredentials
              && KnownAs(s, s.loaders[i], t, usable, ViewOf(s'.names, s'.knownCredentials[t]))
    {
      assert LastKnowing(s.loaders, t) == Some(i);
      assert KnownViews(s')[t] == ViewOf(s'.names, s'.knownCredentials[t]);
      ContributionKnownAs(s, s.loaders[i], t, usable);
    }
  }

  lemma ContributionKnownAs(s: State, l: Loader, t: string, usable: seq<Description>)
    requires t in l.knownCredentials
    ensures KnownAs(s, l, t, usable, ViewWithTools(usable, |usable|, Contribution(s.names, l, t)))
  {
    var k := l.knownCredentials[t];
    if k.supportedNodes.Some? && l.isPackage {
      var names := Get(s.names, k.supportedNodes.value);
      var prefixed := Prefixed(l.packageName, names);
      ToolsFollow(usable, |usable|, prefixed);
      hide WithTools;
      assert WithPackage(l.packageName, names, prefixed);
      assert WithTheirTools(usable, |usable|, prefixed, WithTools(usable, |usable|, prefixed));
    }
  }

  // ---------------------------------------------------------------- tools

  /** The nodes among the first `n` that can be used as a tool. */
  ghost function UsableBefore(nodes: seq<Description>, n: nat): nat
    requires n <= |nodes|
  {
    if n == 0 then 0 else UsableBefore(nodes, n - 1) + if nodes[n - 1].usableAsTool then 1 else 0
  }

  lemma {:induction false} UsableInOrder(nodes: seq<Description>, k: nat)
    requires k < |nodes|
    ensures |Usable(nodes)| == UsableBefore(nodes, |nodes|) >= UsableBefore(nodes, k + 1)
    ensures nodes[k].usableAsTool ==>
              var m := UsableBefore(nodes, k); m < |Usable(nodes)| && Usable(nodes)[m] == nodes[k]
    decreases |nodes|
  {
    var n := |nodes| - 1;
    var rest := nodes[..n];
    CountPrefix(nodes, n, n);
    CountPrefix(nodes, n, k);
    assert nodes == rest + [nodes[n]];
    if n == 0 {
      assert Usable(rest) == [];
    } else {
      UsableInOrder(rest, if k < n then k else n - 1);
      if k < n {
        CountPrefix(nodes, n, k + 1);
      }
    }
  }

  lemma {:induction false} CountPrefix(nodes: seq<Description>, n: nat, k: nat)
    requires k <= n <= |nodes|
    ensures UsableBefore(nodes[..n], k) == UsableBefore(nodes, k)
  {
    if k > 0 {
      CountPrefix(nodes, n, k - 1);
    }
  }

  /** `d` is the tool of node `u`: named after it, itself no tool, with a description of the tool among its properties,
      put in front where the node has none; the options of each property are a copy in an array of its own, with
      the custom call where the node offers calls for them. */
  ghost predicate ToolFor(s: State, s': State, u: Description, d: Description) {
    && d.name == u.name + "Tool" && d.latest == u.latest && !d.usableAsTool && d.credentials == u.credentials
    && exists offset: nat :: WithProperties(s, s', u, d, offset)
  }

  ghost predicate Describes(ps: seq<Property>) { exists p :: p in ps && p.name == "toolDescription" }

  ghost predicate WithProperties(s: State, s': State, u: Description, d: Description, offset: nat) {
    var front := if Describes(u.properties) then 0 else 1;
    && |d.properties| == |u.properties| + front
    && (front == 1 ==> d.properties[0] == Property("toolDescription", None))
    && forall i :: 0 <= i < |u.properties| ==>
         && d.properties[front + i].name == u.properties[i].name
         && CopiesOptions(s, s', u, u.properties[i].options, d.properties[front + i].options, offset)
  }

  ghost predicate CopiesOptions(s: State, s': State, u: Description, options: Option<nat>, copy: Option<nat>,
                                offset: nat) {
    match options
    case None => copy == None
    case Some(a) =>
      var before := if a in s.options then s.options[a] else [];
      && copy == Some(offset + a) && offset + a !in s.options && offset + a in s'.options
      && if OffersCalls(s.names, AllCredentials(s.loaders), u) && ListsChoices(u, a)
         then EndsWithCall(before, s'.options[offset + a]) else s'.options[offset + a] == before
  }

  /** Behind the nodes of the loaders comes the tool of each node that can be used as one, in order. */
  lemma ToolsFollowNodes(s: State, s': State, k: nat)
    requires LoadersOk(s.names, s.options, s.loaders) && PostProcessed(s, s', true)
    ensures var nodes := AllNodes(s.loaders);
            && |s'.nodes| == |nodes| + UsableBefore(nodes, |nodes|) && s'.nodes[..|nodes|] == nodes
            && (k < |nodes| && nodes[k].usableAsTool ==>
                  var m := |nodes| + UsableBefore(nodes, k);
                  m < |s'.nodes| && ToolFor(s, s', nodes[k], s'.nodes[m]))
    ensures s'.credentials == AllCredentials(s.loaders)
  {
    hide AllNodes, AllCredentials, NodesWithTools, MergedNodes, Merged, NoEmptyTarget, TargetsOf, InjectedAll, ToolOf;
    hide Usable, ToolFor, LoadersOk, KnownViews, ViewsWithTools, UsableBefore;
    var nodes := AllNodes(s.loaders);
    if k < |nodes| {
      UsableInOrder(nodes, k);
      if nodes[k].usableAsTool {
        var m := UsableBefore(nodes, k);
        ToolOfIsFor(s, s', nodes[k], s'.nodes[|nodes| + m]);
      }
    } else if |nodes| > 0 {
      UsableInOrder(nodes, 0);
    } else {
      NoneUsable(nodes);
    }
  }

  lemma NoneUsable(nodes: seq<Description>)
    requires nodes == []
    ensures |Usable(nodes)| == 0 == UsableBefore(nodes, 0)
  {
  }

  lemma ToolOfIsFor(s: State, s': State, u: Description, d: Description)
    requires ToolOf(s, s'.options, u, d)
    ensures ToolFor(s, s', u, d)
  {
    hide AllCredentials, TargetsIn, OffersCalls, ListsChoices, Injected;
    var offset: nat :| d == Tool(u, offset) && Copied(s, s'.options, u, offset);
    ToolProperties(u, offset);
    hide Tool;
    forall i | 0 <= i < |u.properties|
      ensures var front := if Describes(u.properties) then 0 else 1;
              CopiesOptions(s, s', u, u.properties[i].options, d.properties[front + i].options, offset)
    {
      assert CopiedProperty(s, s'.options, u, u.properties[i], offset);
      CopiedIsCopy(s, s', u, u.properties[i], offset);
    }
    hide CopiesOptions, Copied;
    assert WithProperties(s, s', u, d, offset);
  }

  lemma CopiedIsCopy(s: State, s': State, u: Description, p: Property, offset: nat)
    requires CopiedProperty(s, s'.options, u, p, offset)
    ensures CopiesOptions(s, s', u, p.options, Cloned(p, offset).options, offset)
  {
    if p.options.Some? {
      TargetIff(s.names, AllCredentials(s.loaders), u, p.options.value);
    }
    hide TargetsIn, AllCredentials, OffersCalls, ListsChoices;
  }

  lemma ToolProperties(u: Description, offset: nat)
    ensures var d, front := Tool(u, offset), if Describes(u.properties) then 0 else 1;
            && d.name == u.name + "Tool" && d.latest == u.latest && !d.usableAsTool && d.credentials == u.credentials
            && |d.properties| == |u.properties| + front
            && (front == 1 ==> d.properties[0] == Property("toolDescription", None))
            && forall i :: 0 <= i < |u.properties| ==> d.properties[front + i] == Cloned(u.properties[i], offset)
  {
    DescribesCopies(u.properties, offset);
    hide Describes, Cloned;
  }

  lemma DescribesCopies(ps: seq<Property>, offset: nat)
    ensures Describes(ps) <==>
            exists i :: 0 <= i < |ClonedAll(ps, offset)| && ClonedAll(ps, offset)[i].name == "toolDescription"
  {
    var copies := ClonedAll(ps, offset);
    assert forall i :: 0 <= i < |ps| ==> copies[i].name == ps[i].name;
    if p :| p in ps && p.name == "toolDescription" {
      var i :| 0 <= i < |ps| && ps[i] == p;
      assert copies[i].name == "toolDescription";
    }
    if i :| 0 <= i < |copies| && copies[i].name == "toolDescription" {
      assert ps[i] in ps;
    }
  }

  // ---------------------------------------------------------------- known nodes

  ghost predicate LastToHave(loaders: seq<Loader>, x: string, i: int) {
    && 0 <= i < |loaders| && x in loaders[i].knownNodes
    && forall j :: i < j < |loaders| ==> x !in loaders[j].knownNodes
  }

  ghost predicate NodeFrom(l: Loader, x: string, known: Option<KnownNode>)
    requires x in l.knownNodes
  {
    && known.Some? && known.value.className == l.knownNodes[x].className
    && known.value.sourcePath == l.directory + "/" + l.knownNodes[x].sourcePath
  }

  lemma MergedNodesStep(loaders: seq<Loader>, x: string)
    requires loaders != []
    ensures var l, rest := loaders[|loaders| - 1], MergedNodes(loaders[..|loaders| - 1]);
            && (x in MergedNodes(loaders) <==> x in l.knownNodes || x in rest)
            && (x in l.knownNodes ==> NodeFrom(l, x, MergedNodes(loaders)[x]))
            && (x !in l.knownNodes && x in rest ==> MergedNodes(loaders)[x] == rest[x])
  {
  }

  lemma {:induction false} LastMerged(loaders: seq<Loader>, x: string, i: nat)
    requires LastToHave(loaders, x, i)
    ensures x in MergedNodes(loaders) && NodeFrom(loaders[i], x, MergedNodes(loaders)[x])
  {
    MergedNodesStep(loaders, x);
    hide MergedNodes, NodeFrom;
    if i < |loaders| - 1 {
      LastMerged(loaders[..|loaders| - 1], x, i);
    }
  }

  lemma {:induction false} NeverMerged(loaders: seq<Loader>, x: string)
    requires forall l :: l in loaders ==> x !in l.knownNodes
    ensures x !in MergedNodes(loaders)
  {
    if loaders != [] {
      assert loaders[|loaders| - 1] in loaders;
      MergedNodesStep(loaders, x);
      NeverMerged(loaders[..|loaders| - 1], x);
    }
  }

  ghost predicate NamesTool(usable: seq<Description>, n: int, x: string) {
    exists i :: 0 <= i < n <= |usable| && x == usable[i].name + "Tool"
  }

  lemma {:induction false} NodesWithToolsIs(usable: seq<Description>, n: nat, known: map<string, Option<KnownNode>>,
                                            x: string, i: nat)
    requires n <= |usable|
    ensures var r := NodesWithTools(usable, n, known);
            && (!NamesTool(usable, n, x) ==> (x in r <==> x in known) && (x in known ==> r[x] == known[x]))
            && (i < n && !NamesTool(usable, n, usable[i].name) ==>
                  var u := usable[i].name;
                  u + "Tool" in r && r[u + "Tool"] == if u in known then known[u] else None)
  {
    if n > 0 {
      var u := usable[n - 1].name;
      NodesWithToolsIs(usable, n - 1, known, x, i);
      NodesWithToolsIs(usable, n - 1, known, u, i);
      assert NamesTool(usable, n, x) <==> NamesTool(usable, n - 1, x) || x == u + "Tool";
      if i < n && u + "Tool" == usable[i].name + "Tool" {
        assert u == (u + "Tool")[..|u + "Tool"| - 4] == usable[i].name;
      }
    }
  }

  /** A node that is not named like a tool is known as the last loader has it that knows it, by its path inside the
      loader's directory; the tool of a node is known as the node is, which may be not at all. */
  lemma NodesKnown(s: State, s': State, ok: bool, x: string, l: nat, i: nat)
    requires PostProcessed(s, s', ok)
    ensures var usable := Usable(AllNodes(s.loaders));
            && (!NamesTool(usable, |usable|, x) ==>
                  && ((forall l :: l in s.loaders ==> x !in l.knownNodes) ==> x !in s'.knownNodes)
                  && (LastToHave(s.loaders, x, l) ==>
                        x in s'.knownNodes && NodeFrom(s.loaders[l], x, s'.knownNodes[x])))
            && (i < |usable| && !NamesTool(usable, |usable|, usable[i].name) ==>
                  var u := usable[i].name;
                  u + "Tool" in s'.knownNodes
                  && s'.knownNodes[u + "Tool"] == if u in s'.knownNodes then s'.knownNodes[u] else None)
  {
    hide AllNodes, AllCredentials, MergedNodes, Merged, NoEmptyTarget, TargetsOf, InjectedAll, ToolOf;
    hide Usable, NodesWithTools, KnownViews, ViewsWithTools, NodeFrom;
    var usable, merged := Usable(AllNodes(s.loaders)), MergedNodes(s.loaders);
    NodesWithToolsIs(usable, |usable|, merged, x, i);
    if LastToHave(s.loaders, x, l) {
      LastMerged(s.loaders, x, l);
    }
    if forall l :: l in s.loaders ==> x !in l.knownNodes {
      NeverMerged(s.loaders, x);
    }
    if i < |usable| {
      NodesWithToolsIs(usable, |usable|, merged, usable[i].name, i);
    }
  }
}
