/** The tables built from the loaders (packages/cli/src/load-nodes-and-credentials.ts).

    Arrays are modelled by identity: `names` holds the arrays of names (`supportedNodes`, `extends`),
    `options` the arrays of options of node properties, an option being its name.  What a loader
    refers to is shared with it, so a push into an array that belongs to a loader is seen by it. */
module NodeLoading {
  import opened Wrappers

  const CUSTOM_API_CALL_NAME := "Custom API Call"

  type Arrays = map<nat, seq<string>>

  datatype KnownNode = KnownNode(className: string, sourcePath: string)

  datatype KnownCredential = KnownCredential(
    className: string, sourcePath: string, supportedNodes: Option<nat>, parents: Option<nat>)

  datatype Property = Property(name: string, options: Option<nat>)

  /** `latest`: there is no default version, or this version is it. */
  datatype Description = Description(
    name: string, latest: bool, usableAsTool: bool, credentials: seq<string>, properties: seq<Property>)

  datatype CredentialType = CredentialType(name: string, authenticates: bool, parents: Option<nat>)

  datatype Loader = Loader(
    directory: string, packageName: string, isPackage: bool,
    knownNodes: map<string, KnownNode>, knownCredentials: map<string, KnownCredential>,
    nodes: seq<Description>, credentials: seq<CredentialType>)

  datatype State = State(
    loaders: seq<Loader>, names: Arrays, options: Arrays,
    knownNodes: map<string, Option<KnownNode>>, knownCredentials: map<string, KnownCredential>,
    nodes: seq<Description>, credentials: seq<CredentialType>)

  // ---------------------------------------------------------------- the known tables, by contents

  datatype View = View(className: string, sourcePath: string, supportedNodes: Option<seq<string>>, parents: Option<nat>)

  type Views = map<string, View>

  function Join(directory: string, path: string): string { directory + "/" + path }

  function Prefixed(packageName: string, names: seq<string>): seq<string> {
    seq(|names|, i requires 0 <= i < |names| => packageName + "." + names[i])
  }

  function Get(arrays: Arrays, a: nat): seq<string> {
    if a in arrays then arrays[a] else []
  }

  function ViewOf(names: Arrays, k: KnownCredential): View {
    View(k.className, k.sourcePath,
         if k.supportedNodes.Some? then Some(Get(names, k.supportedNodes.value)) else None,
         k.parents)
  }

  /** What a loader contributes for a credential type: the nodes of a package get its prefix, those of
      other loaders are dropped. */
  function Contribution(names: Arrays, l: Loader, t: string): View
    requires t in l.knownCredentials
  {
    var v := ViewOf(names, l.knownCredentials[t]);
    View(v.className, Join(l.directory, v.sourcePath),
         if l.isPackage && v.supportedNodes.Some? then Some(Prefixed(l.packageName, v.supportedNodes.value)) else None,
         v.parents)
  }

  /** Later loaders win. */
  function Merged(names: Arrays, loaders: seq<Loader>): Views {
    if loaders == [] then map[]
    else
      var l := loaders[|loaders| - 1];
      Merged(names, loaders[..|loaders| - 1]) + map t | t in l.knownCredentials :: Contribution(names, l, t)
  }

  function MergedNodes(loaders: seq<Loader>): map<string, Option<KnownNode>> {
    if loaders == [] then map[]
    else
      var l := loaders[|loaders| - 1];
      MergedNodes(loaders[..|loaders| - 1])
      + map t | t in l.knownNodes ::
          Some(KnownNode(l.knownNodes[t].className, Join(l.directory, l.knownNodes[t].sourcePath)))
  }

  function AllNodes(loaders: seq<Loader>): seq<Description> {
    if loaders == [] then [] else AllNodes(loaders[..|loaders| - 1]) + loaders[|loaders| - 1].nodes
  }

  function AllCredentials(loaders: seq<Loader>): seq<CredentialType> {
    if loaders == [] then [] else AllCredentials(loaders[..|loaders| - 1]) + loaders[|loaders| - 1].credentials
  }

  // ---------------------------------------------------------------- tools

  function ToolName(node: string): string { node + "Tool" }

  function Usable(nodes: seq<Description>): seq<Description> {
    if nodes == [] then []
    else
      var rest := Usable(nodes[..|nodes| - 1]);
      if nodes[|nodes| - 1].usableAsTool then rest + [nodes[|nodes| - 1]] else rest
  }

  /** The supported nodes of a credential type once the first `n` tools have been made. */
  function WithTools(usable: seq<Description>, n: nat, names: seq<string>): (r: seq<string>)
    requires n <= |usable|
  {
    if n == 0 then names
    else
      var r := WithTools(usable, n - 1, names);
      if usable[n - 1].name in r then r + [ToolName(usable[n - 1].name)] else r
  }

  function ViewWithTools(usable: seq<Description>, n: nat, v: View): View
    requires n <= |usable|
  {
    v.(supportedNodes := if v.supportedNodes.Some? then Some(WithTools(usable, n, v.supportedNodes.value)) else None)
  }

  function ViewsWithTools(usable: seq<Description>, n: nat, views: Views): Views
    requires n <= |usable|
  {
    map t | t in views :: ViewWithTools(usable, n, views[t])
  }

  /** A tool is known as its node is, which may be not at all. */
  function NodesWithTools(usable: seq<Description>, n: nat, known: map<string, Option<KnownNode>>)
    : map<string, Option<KnownNode>>
    requires n <= |usable|
  {
    if n == 0 then known
    else
      var r, u := NodesWithTools(usable, n - 1, known), usable[n - 1].name;
      r[ToolName(u) := if u in r then r[u] else None]
  }

  /** A deep copy: arrays shared inside a description stay shared inside its copy. */
  function Cloned(p: Property, offset: nat): Property {
    Property(p.name, if p.options.Some? then Some(offset + p.options.value) else None)
  }

  function ClonedAll(ps: seq<Property>, offset: nat): seq<Property> {
    seq(|ps|, i requires 0 <= i < |ps| => Cloned(ps[i], offset))
  }

  /** The conversion of a copied description into a tool. */
  function Tool(d: Description, offset: nat): Description {
    var properties := ClonedAll(d.properties, offset);
    Description(ToolName(d.name), d.latest, false, d.credentials,
                if exists i :: 0 <= i < |properties| && properties[i].name == "toolDescription" then properties
                else [Property("toolDescription", None)] + properties)
  }

  // ---------------------------------------------------------------- custom API calls

  function Find(credentials: seq<CredentialType>, name: string): Option<CredentialType> {
    if credentials == [] then None
    else if credentials[0].name == name then Some(credentials[0])
    else Find(credentials[1..], name)
  }

  predicate ProxyParent(t: string) { t == "oAuth2Api" || t == "googleOAuth2Api" || t == "oAuth1Api" }

  predicate Proxies(names: Arrays, c: CredentialType) {
    c.authenticates || (c.parents.Some? && exists p :: p in Get(names, c.parents.value) && ProxyParent(p))
  }

  predicate SupportsProxyAuth(names: Arrays, credentials: seq<CredentialType>, d: Description) {
    exists c :: c in d.credentials && var found := Find(credentials, c); found.Some? && Proxies(names, found.value)
  }

  predicate TakesCalls(p: Property) { (p.name == "resource" || p.name == "operation") && p.options.Some? }

  /** The arrays of options of the resources and operations among these properties. */
  function CallArrays(ps: seq<Property>): set<nat> {
    if ps == [] then {}
    else
      var rest, p := CallArrays(ps[..|ps| - 1]), ps[|ps| - 1];
      if TakesCalls(p) then rest + {p.options.value} else rest
  }

  /** The arrays that get a custom call for the sake of this node. */
  function TargetsIn(names: Arrays, credentials: seq<CredentialType>, d: Description): set<nat> {
    if d.latest && SupportsProxyAuth(names, credentials, d) then CallArrays(d.properties) else {}
  }

  function Targets(names: Arrays, credentials: seq<CredentialType>, nodes: seq<Description>): set<nat> {
    if nodes == [] then {}
    else Targets(names, credentials, nodes[..|nodes| - 1]) + TargetsIn(names, credentials, nodes[|nodes| - 1])
  }

  function TargetsOf(s: State): set<nat> {
    Targets(s.names, AllCredentials(s.loaders), AllNodes(s.loaders))
  }

  function Injected(options: seq<string>): seq<string> {
    if options != [] && options[|options| - 1] == CUSTOM_API_CALL_NAME then options
    else options + [CUSTOM_API_CALL_NAME]
  }

  function InjectedAll(options: Arrays, targets: set<nat>): Arrays {
    map a | a in options :: if a in targets then Injected(options[a]) else options[a]
  }

  // ---------------------------------------------------------------- what post-processing promises

  /** The arrays that loaders refer to exist. */
  ghost predicate OptionsExist(options: Arrays, nodes: seq<Description>) {
    forall i, j :: 0 <= i < |nodes| && 0 <= j < |nodes[i].properties| && nodes[i].properties[j].options.Some? ==>
      nodes[i].properties[j].options.value in options
  }

  ghost predicate NamesExist(names: Arrays, l: Loader) {
    && (forall t :: t in l.knownCredentials && l.knownCredentials[t].supportedNodes.Some? ==>
          l.knownCredentials[t].supportedNodes.value in names)
    && (forall c :: c in l.credentials && c.parents.Some? ==> c.parents.value in names)
  }

  ghost predicate LoadersOk(names: Arrays, options: Arrays, loaders: seq<Loader>) {
    && (forall l :: l in loaders ==> NamesExist(names, l))
    && OptionsExist(options, AllNodes(loaders))
  }

  /** Existing arrays are kept as they are. */
  ghost predicate Kept(arrays: Arrays, arrays': Arrays) {
    forall a :: a in arrays ==> a in arrays' && arrays'[a] == arrays[a]
  }

  /** Nothing but an option of a custom call has been added. */
  ghost predicate PartlyInjected(options: Arrays, options': Arrays) {
    forall a :: a in options ==> a in options' && (options'[a] == options[a] || options'[a] == Injected(options[a]))
  }

  /** Copies of the options of node `u`, in arrays of their own, with custom calls where `u` takes them. */
  ghost predicate Copied(s: State, options: Arrays, u: Description, offset: nat) {
    forall i :: 0 <= i < |u.properties| ==> CopiedProperty(s, options, u, u.properties[i], offset)
  }

  ghost predicate CopiedProperty(s: State, options: Arrays, u: Description, p: Property, offset: nat) {
    p.options.Some? ==>
      var a := p.options.value;
      offset + a !in s.options && offset + a in options && options[offset + a] == OptionsOfTool(s, u, a)
  }

  ghost function OptionsOfTool(s: State, u: Description, a: nat): seq<string> {
    if a in TargetsIn(s.names, AllCredentials(s.loaders), u) then Injected(Get(s.options, a)) else Get(s.options, a)
  }

  ghost predicate ToolOf(s: State, options: Arrays, u: Description, d: Description) {
    exists offset: nat :: d == Tool(u, offset) && Copied(s, options, u, offset)
  }

  /** No node that takes custom calls has a resource or operation without options. */
  ghost predicate NoEmptyTarget(s: State) {
    forall a :: a in TargetsOf(s) ==> Get(s.options, a) != []
  }

  /** From `s` to `s'` the loaders and their arrays of names are untouched, and the known tables are those
      of the loaders with the tools; when no array of a node that takes custom calls is empty, so are
      the descriptions, and their arrays have the option of a custom call. */
  ghost predicate PostProcessed(s: State, s': State, ok: bool) {
    var usable := Usable(AllNodes(s.loaders));
    && s'.loaders == s.loaders
    && Kept(s.names, s'.names)
    && s'.knownNodes == NodesWithTools(usable, |usable|, MergedNodes(s.loaders))
    && KnownViews(s') == ViewsWithTools(usable, |usable|, Merged(s.names, s.loaders))
    && s'.credentials == AllCredentials(s.loaders)
    && (ok <==> NoEmptyTarget(s))
    && (if ok then Kept(InjectedAll(s.options, TargetsOf(s)), s'.options) else PartlyInjected(s.options, s'.options))
    && |s'.nodes| == |AllNodes(s.loaders)| + |usable| && s'.nodes[..|AllNodes(s.loaders)|] == AllNodes(s.loaders)
    && (ok ==> forall i :: 0 <= i < |usable| ==> ToolOf(s, s'.options, usable[i], s'.nodes[|AllNodes(s.loaders)| + i]))
  }

  function KnownViews(s: State): Views {
    map t | t in s.knownCredentials :: ViewOf(s.names, s.knownCredentials[t])
  }
}
