/** The steps in which the tables are rebuilt, and what each of them keeps. */
module NodeLoadingSteps {
  import opened Wrappers
  import opened NodeLoading
  import opened NodeLoadingTheorems

  type Table = map<string, KnownCredential>

  /** The lists of supported nodes are arrays made since `start` and before `next`, and no two entries share one. */
  ghost predicate Fresh(known: Table, start: nat, next: nat) {
    && (forall t :: t in known && known[t].supportedNodes.Some? ==> start <= known[t].supportedNodes.value < next)
    && (forall t, u :: t in known && u in known && t != u && known[t].supportedNodes.Some? ==>
          known[t].supportedNodes != known[u].supportedNodes)
  }

  ghost predicate Below(arrays: Arrays, next: nat) {
    forall a :: a in arrays ==> a < next
  }

  ghost predicate Shows(names: Arrays, known: Table, views: Views) {
    && known.Keys == views.Keys
    && forall t :: t in known ==>
         ViewOf(names, known[t]) == views[t]
           && (known[t].supportedNodes.Some? ==> known[t].supportedNodes.value in names)
  }

  /** The table after some of the types of loader `l` have been copied. */
  function Partly(names: Arrays, views: Views, l: Loader, left: set<string>): Views {
    views + map t | t in l.knownCredentials && t !in left :: Contribution(names, l, t)
  }

  lemma ShowsStep(names: Arrays, names': Arrays, known: Table, views: Views, t: string, k: KnownCredential)
    requires Shows(names, known, views) && Kept(names, names')
    requires k.supportedNodes.Some? ==> k.supportedNodes.value in names'
    ensures Shows(names', known[t := k], views[t := ViewOf(names', k)])
  {
  }

  lemma FreshStep(known: Table, start: nat, next: nat, t: string, k: KnownCredential)
    requires Fresh(known, start, next) && start <= next
    requires k.supportedNodes.Some? ==> k.supportedNodes.value == next
    ensures Fresh(known[t := k], start, if k.supportedNodes.Some? then next + 1 else next)
  {
  }

  lemma PartlyStep(names: Arrays, views: Views, l: Loader, left: set<string>, t: string)
    requires t in left && left <= l.knownCredentials.Keys
    ensures Partly(names, views, l, left - {t}) == Partly(names, views, l, left)[t := Contribution(names, l, t)]
  {
    hide Contribution;
  }

  lemma PartlyAll(names: Arrays, views: Views, l: Loader)
    ensures Partly(names, views, l, l.knownCredentials.Keys) == views
    ensures Partly(names, views, l, {}) == views + map t | t in l.knownCredentials :: Contribution(names, l, t)
  {
    hide Contribution;
  }

  function Pushed(v: View, node: string): View {
    if v.supportedNodes.Some? && node in v.supportedNodes.value
    then v.(supportedNodes := Some(v.supportedNodes.value + [ToolName(node)])) else v
  }

  function PushedAll(views: Views, node: string): Views {
    map t | t in views :: Pushed(views[t], node)
  }

  /** The arrays made before `start` are as they were. */
  ghost predicate SameBelow(arrays: Arrays, arrays': Arrays, start: nat) {
    arrays'.Keys == arrays.Keys && forall a :: a in arrays && a < start ==> arrays'[a] == arrays[a]
  }

  lemma TargetsAreCalls(names: Arrays, credentials: seq<CredentialType>, d: Description)
    requires d.latest && SupportsProxyAuth(names, credentials, d)
    ensures TargetsIn(names, credentials, d) == CallArrays(d.properties)
  {
  }

  lemma NoTargets(names: Arrays, credentials: seq<CredentialType>, d: Description)
    requires !(d.latest && SupportsProxyAuth(names, credentials, d))
    ensures forall targets: set<nat> :: targets + TargetsIn(names, credentials, d) == targets
  {
  }

  lemma TargetsSnoc(names: Arrays, credentials: seq<CredentialType>, nodes: seq<Description>, i: nat)
    requires i < |nodes|
    ensures Targets(names, credentials, nodes[..i + 1]) ==
            Targets(names, credentials, nodes[..i]) + TargetsIn(names, credentials, nodes[i])
  {
    assert nodes[..i + 1][..i] == nodes[..i];
  }

  lemma {:induction false} TargetsGrow(names: Arrays, credentials: seq<CredentialType>, nodes: seq<Description>,
                                       i: nat, j: nat)
    requires i <= j <= |nodes|
    ensures Targets(names, credentials, nodes[..i]) <= Targets(names, credentials, nodes[..j])
    ensures nodes[..|nodes|] == nodes
    decreases j
  {
    hide TargetsIn;
    if i < j {
      TargetsGrow(names, credentials, nodes, i, j - 1);
      TargetsSnoc(names, credentials, nodes, j - 1);
    }
  }

  ghost predicate ArraysIn(options: Arrays, d: Description) {
    forall j :: 0 <= j < |d.properties| && d.properties[j].options.Some? ==> d.properties[j].options.value in options
  }

  ghost predicate ClonedInto(options: Arrays, options': Arrays, d: Description, offset: nat) {
    forall j :: 0 <= j < |d.properties| && d.properties[j].options.Some? ==>
      var a := d.properties[j].options.value;
      a in options && offset + a in options' && options'[offset + a] == options[a]
  }

  function Tools(usable: seq<Description>, offsets: seq<nat>): seq<Description>
    requires |usable| == |offsets|
  {
    seq(|usable|, i requires 0 <= i < |usable| => Tool(usable[i], offsets[i]))
  }

  /** The tools have copies of the options, each in a range of arrays of its own. */
  ghost predicate Made(options0: Arrays, next0: nat, options: Arrays, next: nat, usable: seq<Description>,
                       offsets: seq<nat>) {
    && next0 <= next && |usable| == |offsets|
    && (forall i :: 0 <= i < |usable| ==> next0 <= offsets[i] && offsets[i] + offsets[i] <= next)
    && (forall i, k :: 0 <= i < k < |usable| ==> offsets[i] + offsets[i] <= offsets[k])
    && (forall i :: 0 <= i < |usable| ==> ClonedInto(options0, options, usable[i], offsets[i]))
  }

  lemma MadeStep(options0: Arrays, next0: nat, options: Arrays, next: nat, options': Arrays,
                 usable: seq<Description>, offsets: seq<nat>, u: Description, offset: nat)
    requires Made(options0, next0, options, next, usable, offsets) && offset == next
    requires Kept(options0, options) && Kept(options, options') && ArraysIn(options0, u)
             && ClonedInto(options, options', u, offset)
    ensures Made(options0, next0, options', offset + offset, usable + [u], offsets + [offset])
    ensures Tools(usable + [u], offsets + [offset]) == Tools(usable, offsets) + [Tool(u, offset)]
  {
    hide Tool;
    forall i | 0 <= i < |usable| ensures ClonedInto(options0, options', usable[i], offsets[i]) {
      assert ClonedInto(options0, options, usable[i], offsets[i]);
    }
    assert ClonedInto(options0, options', u, offset);
  }

  lemma UsableExist(options: Arrays, options0: Arrays, nodes: seq<Description>, i: nat)
    requires OptionsExist(options0, nodes) && Kept(options0, options) && i < |Usable(nodes)|
    ensures ArraysIn(options0, Usable(nodes)[i]) && ArraysIn(options, Usable(nodes)[i])
  {
    UsableAmong(nodes, i);
    var u := Usable(nodes)[i];
    forall j | 0 <= j < |u.properties| && u.properties[j].options.Some?
      ensures u.properties[j].options.value in options0
    {
      OptionsExistIn(options0, nodes, u, j);
    }
  }

  lemma UsableAreNodes(nodes: seq<Description>)
    ensures forall u :: u in Usable(nodes) ==> u in nodes
  {
    forall u | u in Usable(nodes) ensures u in nodes {
      var i :| 0 <= i < |Usable(nodes)| && Usable(nodes)[i] == u;
      UsableAmong(nodes, i);
    }
  }

  lemma NoToolsYet(usable: seq<Description>, views: Views, options: Arrays, next: nat)
    ensures ViewsWithTools(usable, 0, views) == views && Tools([], []) == []
            && Made(options, next, options, next, [], [])
  {
  }

  lemma ViewsWithToolsStep(usable: seq<Description>, i: nat, views: Views)
    requires i < |usable|
    ensures ViewsWithTools(usable, i + 1, views) == PushedAll(ViewsWithTools(usable, i, views), usable[i].name)
  {
  }

  lemma ToolPushed(names0: Arrays, names: Arrays, known: Table, views: Views, node: string, pushed: set<string>)
    requires Shows(names0, known, views) && names.Keys == names0.Keys
    requires pushed == set t | t in known && known[t].supportedNodes.Some?
             && node in Get(names0, known[t].supportedNodes.value)
    requires forall t :: t in known && known[t].supportedNodes.Some? ==>
               var a := known[t].supportedNodes.value;
               names[a] == if t in pushed then names0[a] + [ToolName(node)] else names0[a]
    ensures Shows(names, known, PushedAll(views, node))
  {
    hide ToolName;
    forall t | t in known ensures ViewOf(names, known[t]) == Pushed(views[t], node) {
      assert ViewOf(names0, known[t]) == views[t];
    }
  }

  lemma NothingYet(names: Arrays, next: nat)
    ensures Shows(names, map[], map[]) && Fresh(map[], next, next)
  {
  }

  lemma SameBelowKept(names0: Arrays, names1: Arrays, names: Arrays, start: nat)
    requires Kept(names0, names1) && SameBelow(names1, names, start) && Below(names0, start)
    ensures Kept(names0, names)
  {
  }

  lemma ShowsIsViews(s: State, views: Views)
    requires Shows(s.names, s.knownCredentials, views)
    ensures KnownViews(s) == views
  {
  }

  lemma ToolsAfter(nodes: seq<Description>, usable: seq<Description>, offsets: seq<nat>)
    requires |usable| == |offsets|
    ensures |nodes + Tools(usable, offsets)| == |nodes| + |usable|
            && (nodes + Tools(usable, offsets))[..|nodes|] == nodes
    ensures forall i :: 0 <= i < |usable| ==>
            (nodes + Tools(usable, offsets))[|nodes| + i] == Tool(usable[i], offsets[i])
  {
    hide Tool;
  }

  // ---------------------------------------------------------------- the targets among the tools

  lemma {:induction false} CallArraysCloned(ps: seq<Property>, offset: nat, b: nat)
    ensures b in CallArrays(ClonedAll(ps, offset)) <==> b >= offset && b - offset in CallArrays(ps)
  {
    if ps != [] {
      var n := |ps| - 1;
      assert ClonedAll(ps, offset)[..n] == ClonedAll(ps[..n], offset);
      CallArraysCloned(ps[..n], offset, b);
    }
  }

  lemma {:induction false} CallArraysFront(p: Property, ps: seq<Property>)
    requires !TakesCalls(p)
    ensures CallArrays([p] + ps) == CallArrays(ps)
  {
    var all, n := [p] + ps, |ps|;
    if ps == [] {
      assert all[..0] == [];
    } else {
      assert all[..n] == [p] + ps[..n - 1] && all[n] == ps[n - 1];
      CallArraysFront(p, ps[..n - 1]);
    }
  }

  lemma {:induction false} CallArraysFrom(ps: seq<Property>, a: nat) returns (j: nat)
    requires a in CallArrays(ps)
    ensures j < |ps| && ps[j].options == Some(a)
  {
    if a in CallArrays(ps[..|ps| - 1]) {
      j := CallArraysFrom(ps[..|ps| - 1], a);
    } else {
      j := |ps| - 1;
    }
  }

  lemma ToolTargets(names: Arrays, credentials: seq<CredentialType>, u: Description, offset: nat, b: nat)
    ensures b in TargetsIn(names, credentials, Tool(u, offset)) <==>
            b >= offset && b - offset in TargetsIn(names, credentials, u)
  {
    CallArraysCloned(u.properties, offset, b);
    CallArraysFront(Property("toolDescription", None), ClonedAll(u.properties, offset));
  }

  /** `b` is an array that a tool has for a target of its node. */
  ghost predicate ToolTarget(names: Arrays, credentials: seq<CredentialType>, usable: seq<Description>,
                             offsets: seq<nat>, b: nat)
    requires |usable| == |offsets|
  {
    exists i :: 0 <= i < |usable| && b >= offsets[i] && b - offsets[i] in TargetsIn(names, credentials, usable[i])
  }

  lemma {:induction false} TargetsWithTools(names: Arrays, credentials: seq<CredentialType>, nodes: seq<Description>,
                                            usable: seq<Description>, offsets: seq<nat>, b: nat)
    requires |usable| == |offsets|
    ensures b in Targets(names, credentials, nodes + Tools(usable, offsets)) <==>
            b in Targets(names, credentials, nodes) || ToolTarget(names, credentials, usable, offsets, b)
  {
    hide TargetsIn, Tool;
    var n := |usable|;
    if n == 0 {
      assert nodes + Tools(usable, offsets) == nodes;
    } else {
      var all := nodes + Tools(usable, offsets);
      assert all[..|all| - 1] == nodes + Tools(usable[..n - 1], offsets[..n - 1]);
      TargetsWithTools(names, credentials, nodes, usable[..n - 1], offsets[..n - 1], b);
      ToolTargets(names, credentials, usable[n - 1], offsets[n - 1], b);
      if ToolTarget(names, credentials, usable[..n - 1], offsets[..n - 1], b) {
        var i :| 0 <= i < n - 1 && b >= offsets[..n - 1][i]
                 && b - offsets[..n - 1][i] in TargetsIn(names, credentials, usable[..n - 1][i]);
        assert b - offsets[i] in TargetsIn(names, credentials, usable[i]);
      }
      if ToolTarget(names, credentials, usable, offsets, b)
         && !(b >= offsets[n - 1] && b - offsets[n - 1] in TargetsIn(names, credentials, usable[n - 1])) {
        var i :| 0 <= i < n && b >= offsets[i] && b - offsets[i] in TargetsIn(names, credentials, usable[i]);
        assert b - offsets[..n - 1][i] in TargetsIn(names, credentials, usable[..n - 1][i]);
      }
    }
  }

  lemma TargetOfTool(names: Arrays, credentials: seq<CredentialType>, options0: Arrays, next0: nat, options: Arrays,
                     next: nat, usable: seq<Description>, offsets: seq<nat>, i: nat, b: nat)
    requires Made(options0, next0, options, next, usable, offsets) && Below(options0, next0)
    requires i < |usable| && b >= offsets[i] && b - offsets[i] in TargetsIn(names, credentials, usable[i])
    ensures b - offsets[i] in options0 && b - offsets[i] < next0 && b in options
            && options[b] == options0[b - offsets[i]]
  {
    var j := CallArraysFrom(usable[i].properties, b - offsets[i]);
    assert ClonedInto(options0, options, usable[i], offsets[i]);
  }

  /** No array of the loaders is a target for the sake of a tool. */
  lemma NoToolTargetBelow(names: Arrays, credentials: seq<CredentialType>, next0: nat, usable: seq<Description>,
                          offsets: seq<nat>, b: nat)
    requires |usable| == |offsets| && b < next0 && forall i :: 0 <= i < |offsets| ==> next0 <= offsets[i]
    ensures !ToolTarget(names, credentials, usable, offsets, b)
  {
  }

  /** The copy of array `a` for tool `i` is a target exactly when `a` is for its node. */
  lemma ToolTargetAt(names: Arrays, credentials: seq<CredentialType>, options0: Arrays, next0: nat, options: Arrays,
                     next: nat, usable: seq<Description>, offsets: seq<nat>, i: nat, a: nat)
    requires Made(options0, next0, options, next, usable, offsets) && Below(options0, next0)
    requires i < |usable| && a in options0
    ensures ToolTarget(names, credentials, usable, offsets, offsets[i] + a) <==>
            a in TargetsIn(names, credentials, usable[i])
  {
    var b := offsets[i] + a;
    if ToolTarget(names, credentials, usable, offsets, b) {
      var k :| 0 <= k < |usable| && b >= offsets[k] && b - offsets[k] in TargetsIn(names, credentials, usable[k]);
      TargetOfTool(names, credentials, options0, next0, options, next, usable, offsets, k, b);
      assert k == i;
    }
    if a in TargetsIn(names, credentials, usable[i]) {
      assert b - offsets[i] == a;
    }
  }

  lemma ToolsExist(options0: Arrays, options: Arrays, next0: nat, next: nat, nodes: seq<Description>,
                   usable: seq<Description>, offsets: seq<nat>)
    requires OptionsExist(options0, nodes) && Kept(options0, options)
             && Made(options0, next0, options, next, usable, offsets)
    ensures OptionsExist(options, nodes + Tools(usable, offsets))
  {
    var all := nodes + Tools(usable, offsets);
    hide Tool, ClonedInto;
    forall i, j | 0 <= i < |all| && 0 <= j < |all[i].properties| && all[i].properties[j].options.Some?
      ensures all[i].properties[j].options.value in options
    {
      if i < |nodes| {
        assert all[i] == nodes[i];
      } else {
        assert ClonedInto(options0, options, usable[i - |nodes|], offsets[i - |nodes|]);
        assert all[i] == Tool(usable[i - |nodes|], offsets[i - |nodes|]);
        OptionsOfToolExist(options0, options, usable[i - |nodes|], offsets[i - |nodes|], j);
      }
    }
  }

  lemma OptionsOfToolExist(options0: Arrays, options: Arrays, u: Description, offset: nat, j: nat)
    requires ClonedInto(options0, options, u, offset) && j < |Tool(u, offset).properties|
    requires Tool(u, offset).properties[j].options.Some?
    ensures Tool(u, offset).properties[j].options.value in options
  {
    var k := j - (|Tool(u, offset).properties| - |u.properties|);
    if k >= 0 {
      PropertyOfTool(u, offset, k);
    }
  }

  lemma StillLoaded(s: State, names: Arrays, options: Arrays)
    requires LoadersOk(s.names, s.options, s.loaders) && Kept(s.names, names) && s.options.Keys <= options.Keys
    ensures LoadersOk(names, options, s.loaders)
  {
    forall l | l in s.loaders ensures NamesExist(names, l) {
      assert NamesExist(s.names, l);
    }
  }

  /** The targets when the tools are among the nodes. */
  function TargetsWith(s: State, usable: seq<Description>, offsets: seq<nat>): set<nat>
    requires |usable| == |offsets|
  {
    Targets(s.names, AllCredentials(s.loaders), AllNodes(s.loaders) + Tools(usable, offsets))
  }

  /** Tools change nothing about which of the loaders' arrays are targets. */
  lemma SameTargets(s: State, next0: nat, usable: seq<Description>, offsets: seq<nat>, a: nat)
    requires |usable| == |offsets| && a < next0 && forall i :: 0 <= i < |offsets| ==> next0 <= offsets[i]
    ensures a in TargetsWith(s, usable, offsets) <==> a in TargetsOf(s)
  {
    hide Targets, AllNodes, AllCredentials, Tools, ToolTarget;
    TargetsWithTools(s.names, AllCredentials(s.loaders), AllNodes(s.loaders), usable, offsets, a);
    NoToolTargetBelow(s.names, AllCredentials(s.loaders), next0, usable, offsets, a);
  }

  lemma TargetAt(s: State, options: Arrays, next0: nat, next: nat, usable: seq<Description>, offsets: seq<nat>, i: nat,
                 a: nat)
    requires LoadersOk(s.names, s.options, s.loaders) && Below(s.options, next0)
    requires Made(s.options, next0, options, next, usable, offsets) && i < |usable| && a in s.options
    ensures offsets[i] + a in TargetsWith(s, usable, offsets) <==>
            a in TargetsIn(s.names, AllCredentials(s.loaders), usable[i])
  {
    var names, creds, nodes := s.names, AllCredentials(s.loaders), AllNodes(s.loaders);
    hide Targets, TargetsIn, AllNodes, AllCredentials, Tools, ToolTarget;
    if offsets[i] + a in Targets(names, creds, nodes) {
      TargetsExist(names, s.options, creds, nodes, offsets[i] + a);
      assert false;
    }
    TargetsWithTools(names, creds, nodes, usable, offsets, offsets[i] + a);
    ToolTargetAt(names, creds, s.options, next0, options, next, usable, offsets, i, a);
  }

  lemma EmptyTargets(s: State, options: Arrays, next0: nat, next: nat, usable: seq<Description>, offsets: seq<nat>)
    requires LoadersOk(s.names, s.options, s.loaders) && Below(s.options, next0) && Kept(s.options, options)
    requires Made(s.options, next0, options, next, usable, offsets)
    requires forall u :: u in usable ==> u in AllNodes(s.loaders)
    ensures NoneEmpty(options, TargetsWith(s, usable, offsets)) <==> NoEmptyTarget(s)
  {
    var names, creds, nodes := s.names, AllCredentials(s.loaders), AllNodes(s.loaders);
    forall a | a in TargetsOf(s) ensures a in s.options && a in TargetsWith(s, usable, offsets) {
      TargetsExist(names, s.options, creds, nodes, a);
      SameTargets(s, next0, usable, offsets, a);
    }
    forall b | b in TargetsWith(s, usable, offsets) && b !in TargetsOf(s)
      ensures NoEmptyTarget(s) ==> Get(options, b) != []
    {
      TargetsWithTools(names, creds, nodes, usable, offsets, b);
      var i :| 0 <= i < |usable| && b >= offsets[i] && b - offsets[i] in TargetsIn(names, creds, usable[i]);
      TargetOfTool(names, creds, s.options, next0, options, next, usable, offsets, i, b);
      TargetOfOne(names, creds, nodes, usable[i]);
    }
  }

  lemma Finished(s: State, options: Arrays, next0: nat, next: nat, usable: seq<Description>, offsets: seq<nat>)
    requires LoadersOk(s.names, s.options, s.loaders) && Below(s.options, next0) && Kept(s.options, options)
    requires Made(s.options, next0, options, next, usable, offsets)
    ensures var done := InjectedAll(options, TargetsWith(s, usable, offsets));
            && Kept(InjectedAll(s.options, TargetsOf(s)), done)
            && forall i :: 0 <= i < |usable| ==> ToolOf(s, done, usable[i], Tool(usable[i], offsets[i]))
  {
    hide TargetsWith, TargetsOf, TargetsIn, Tool;
    var done := InjectedAll(options, TargetsWith(s, usable, offsets));
    forall a | a in s.options ensures done[a] == InjectedAll(s.options, TargetsOf(s))[a] {
      SameTargets(s, next0, usable, offsets, a);
    }
    forall i | 0 <= i < |usable| ensures Copied(s, done, usable[i], offsets[i]) {
      CopiedAt(s, options, next0, next, usable, offsets, i);
    }
  }

  lemma CopiedAt(s: State, options: Arrays, next0: nat, next: nat, usable: seq<Description>, offsets: seq<nat>, i: nat)
    requires LoadersOk(s.names, s.options, s.loaders) && Below(s.options, next0)
    requires Made(s.options, next0, options, next, usable, offsets) && i < |usable|
    ensures Copied(s, InjectedAll(options, TargetsWith(s, usable, offsets)), usable[i], offsets[i])
  {
    hide LoadersOk, Below, CopiedProperty, TargetsWith, InjectedAll;
    var u := usable[i];
    forall j | 0 <= j < |u.properties|
      ensures CopiedProperty(s, InjectedAll(options, TargetsWith(s, usable, offsets)), u, u.properties[j], offsets[i])
    {
      if u.properties[j].options.Some? {
        CopiedOne(s, options, next0, next, usable, offsets, i, j);
      } else {
        NothingCopied(s, InjectedAll(options, TargetsWith(s, usable, offsets)), u, u.properties[j], offsets[i]);
      }
    }
  }

  lemma NothingCopied(s: State, options: Arrays, u: Description, p: Property, offset: nat)
    requires p.options.None?
    ensures CopiedProperty(s, options, u, p, offset)
  {
  }

  lemma CopiedOne(s: State, options: Arrays, next0: nat, next: nat, usable: seq<Description>, offsets: seq<nat>,
                  i: nat, j: nat)
    requires LoadersOk(s.names, s.options, s.loaders) && Below(s.options, next0)
    requires Made(s.options, next0, options, next, usable, offsets) && i < |usable|
    requires j < |usable[i].properties| && usable[i].properties[j].options.Some?
    ensures CopiedProperty(s, InjectedAll(options, TargetsWith(s, usable, offsets)), usable[i], usable[i].properties[j],
                           offsets[i])
  {
    var a := usable[i].properties[j].options.value;
    assert ClonedInto(s.options, options, usable[i], offsets[i]);
    TargetAt(s, options, next0, next, usable, offsets, i, a);
    hide LoadersOk, Made, ClonedInto, TargetsWith, TargetsIn, AllNodes, AllCredentials;
  }

  ghost predicate NoneEmpty(options: Arrays, targets: set<nat>) {
    forall a :: a in targets ==> Get(options, a) != []
  }

  lemma NoneYet(options: Arrays)
    ensures CallArrays([]) == {} && InjectedAll(options, {}) == options
  {
  }

  lemma CallArraysSnoc(ps: seq<Property>, j: nat)
    requires j < |ps|
    ensures CallArrays(ps[..j + 1]) ==
            if TakesCalls(ps[j]) then CallArrays(ps[..j]) + {ps[j].options.value} else CallArrays(ps[..j])
  {
    assert ps[..j + 1][..j] == ps[..j];
  }

  lemma {:induction false} CallArraysGrow(ps: seq<Property>, i: nat, j: nat)
    requires i <= j <= |ps|
    ensures CallArrays(ps[..i]) <= CallArrays(ps[..j]) && CallArrays(ps[..|ps|]) == CallArrays(ps)
    decreases j
  {
    assert ps[..|ps|] == ps;
    if i < j {
      CallArraysGrow(ps, i, j - 1);
      CallArraysSnoc(ps, j - 1);
    }
  }

  lemma InjectedStep(options: Arrays, targets: set<nat>, a: nat)
    requires a in options
    ensures var done := InjectedAll(options, targets);
            && done.Keys == options.Keys && InjectedAll(options, targets + {a}) == done[a := Injected(done[a])]
            && (done[a] == [] <==> options[a] == [] && a !in targets)
  {
  }

  lemma InjectedTwice(options: Arrays, targets: set<nat>, more: set<nat>)
    ensures InjectedAll(InjectedAll(options, targets), more) == InjectedAll(options, targets + more)
    ensures NoneEmpty(options, targets) ==>
              (NoneEmpty(InjectedAll(options, targets), more) <==> NoneEmpty(options, targets + more))
  {
    var done := InjectedAll(options, targets);
    if NoneEmpty(options, targets) {
      assert forall a :: a !in targets ==> (Get(done, a) == [] <==> Get(options, a) == []);
    }
  }

  lemma InjectedIsPartly(options: Arrays, targets: set<nat>)
    ensures PartlyInjected(options, InjectedAll(options, targets))
  {
  }

  lemma PartlyTwice(options: Arrays, options': Arrays, options'': Arrays)
    requires PartlyInjected(options, options') && PartlyInjected(options', options'')
    ensures PartlyInjected(options, options'')
  {
  }

  lemma PartlyFrom(options: Arrays, options': Arrays, options'': Arrays)
    requires Kept(options, options') && PartlyInjected(options', options'')
    ensures PartlyInjected(options, options'')
  {
  }
}
