/**
 Loading a topology configuration and answering for one service: the active edges, the focus, its
 undirected component and its potential impact.
 */
module Topology {
  import opened Records
  import opened Text
  import opened Ordering
  import opened TopologySearch

  // ------------------------------------------------------------- configuration

  /** An instant as configured: missing, not an instant, or read. */
  datatype RawTime = Absent | Unparsable | At(time: int)

  datatype Node = Node(id: string, environment: string, namespace: string, service: string, sourceRef: string)

  datatype RawEdge = RawEdge(source: string, target: string, kind: string, sourceRef: string, from: RawTime, to: RawTime)

  datatype Config = Config(version: string, sourceRef: string, from: RawTime, to: RawTime, nodes: seq<Node>, edges: seq<RawEdge>)

  datatype Link = Link(edge: Edge, from: int, to: Option<int>)

  datatype Topology = Topology(from: int, to: Option<int>, nodes: seq<Node>, links: seq<Link>)

  /** `escape` is the path escaping of one segment. */
  function ServiceId(n: Node, escape: string -> string): string {
    escape(n.environment) + "/" + escape(n.namespace) + "/" + escape(n.service)
  }

  predicate Blank(s: string) { TrimSpace(s) == "" }

  predicate WindowOk(from: int, to: RawTime) {
    match to
    case Absent => true
    case Unparsable => false
    case At(t) => from <= t
  }

  function End(to: RawTime): Option<int> {
    if to.At? then Some(to.time) else None
  }

  predicate HeaderOk(c: Config) {
    && !Blank(c.version) && !Blank(c.sourceRef) && |c.nodes| <= 300 && |c.edges| <= 600
    && c.from.At? && WindowOk(c.from.time, c.to)
  }

  predicate NodeOk(n: Node, escape: string -> string) {
    && !Blank(n.environment) && !Blank(n.namespace) && !Blank(n.service) && !Blank(n.sourceRef)
    && |n.environment| <= 128 && |n.namespace| <= 128 && |n.service| <= 256
    && (n.id == "" || n.id == ServiceId(n, escape))
  }

  function Named(n: Node, escape: string -> string): Node {
    n.(id := ServiceId(n, escape))
  }

  function KindOf(e: RawEdge): string { if e.kind == "" then "declared" else e.kind }

  function FromOf(c: Config, e: RawEdge): RawTime { if e.from.Absent? then c.from else e.from }

  function ToOf(c: Config, e: RawEdge): RawTime { if e.to.Absent? then c.to else e.to }

  function LinkId(e: RawEdge): string {
    "dep_" + e.source + ":" + e.target + ":" + KindOf(e) + ":" + e.sourceRef
  }

  /** An edge whose window lies within the configuration's, with a known kind and a source. */
  predicate EdgeWindowOk(c: Config, e: RawEdge)
    requires c.from.At?
  {
    && (KindOf(e) == "declared" || KindOf(e) == "observed") && !Blank(e.sourceRef)
    && FromOf(c, e).At? && c.from.time <= FromOf(c, e).time
    && WindowOk(FromOf(c, e).time, ToOf(c, e))
    && (ToOf(c, e).At? && c.to.At? ==> ToOf(c, e).time <= c.to.time)
  }

  function LinkOf(c: Config, e: RawEdge): Link
    requires FromOf(c, e).At?
  {
    Link(Edge(LinkId(e), e.source, e.target, KindOf(e), e.sourceRef), FromOf(c, e).time, End(ToOf(c, e)))
  }

  /** Both ends are declared services of one environment. */
  predicate Joins(nodes: seq<Node>, source: string, target: string) {
    exists i, j | 0 <= i < |nodes| && 0 <= j < |nodes| ::
      nodes[i].id == source && nodes[j].id == target && nodes[i].environment == nodes[j].environment
  }

  function NamedNodes(nodes: seq<Node>, escape: string -> string): seq<Node> {
    seq(|nodes|, i requires 0 <= i < |nodes| => Named(nodes[i], escape))
  }

  ghost predicate NodesOk(nodes: seq<Node>, escape: string -> string) {
    && (forall i | 0 <= i < |nodes| :: NodeOk(nodes[i], escape))
    && (forall i, j | 0 <= i < j < |nodes| :: ServiceId(nodes[i], escape) != ServiceId(nodes[j], escape))
  }

  ghost predicate EdgesOk(c: Config, named: seq<Node>, n: nat)
    requires n <= |c.edges| && c.from.At?
  {
    && (forall i | 0 <= i < n :: Joins(named, c.edges[i].source, c.edges[i].target) && EdgeWindowOk(c, c.edges[i]))
    && (forall i, j | 0 <= i < j < n :: LinkId(c.edges[i]) != LinkId(c.edges[j]))
  }

  /** What a configuration must satisfy to be loaded. */
  ghost predicate Valid(c: Config, escape: string -> string) {
    HeaderOk(c) && NodesOk(c.nodes, escape) && EdgesOk(c, NamedNodes(c.nodes, escape), |c.edges|)
  }

  /** `seen` maps exactly the ids of the nodes to the nodes. */
  ghost predicate SeenAll(nodes: seq<Node>, escape: string -> string, seen: map<string, Node>) {
    && (forall i | 0 <= i < |nodes| ::
          ServiceId(nodes[i], escape) in seen && seen[ServiceId(nodes[i], escape)] == Named(nodes[i], escape))
    && (forall x | x in seen :: exists i | 0 <= i < |nodes| :: ServiceId(nodes[i], escape) == x)
  }

  method LoadNodes(nodes: seq<Node>, escape: string -> string) returns (seen: Option<map<string, Node>>)
    ensures seen.Some? <==> NodesOk(nodes, escape)
    ensures seen.Some? ==> SeenAll(nodes, escape, seen.value)
  {
    hide NodeOk, ServiceId;
    var known: map<string, Node> := map[];
    for i := 0 to |nodes|
      invariant forall j | 0 <= j < i :: NodeOk(nodes[j], escape)
      invariant forall j, k | 0 <= j < k < i :: ServiceId(nodes[j], escape) != ServiceId(nodes[k], escape)
      invariant forall j | 0 <= j < i ::
                  ServiceId(nodes[j], escape) in known && known[ServiceId(nodes[j], escape)] == Named(nodes[j], escape)
      invariant forall x | x in known :: exists j | 0 <= j < i :: ServiceId(nodes[j], escape) == x
    {
      var id := ServiceId(nodes[i], escape);
      if !NodeOk(nodes[i], escape) || id in known {
        return None;
      }
      known := known[id := Named(nodes[i], escape)];
    }
    return Some(known);
  }

  method LoadLinks(c: Config, escape: string -> string, seen: map<string, Node>) returns (links: Option<seq<Link>>)
    requires c.from.At? && SeenAll(c.nodes, escape, seen)
    ensures links.Some? <==> EdgesOk(c, NamedNodes(c.nodes, escape), |c.edges|)
    ensures links.Some? ==> |links.value| == |c.edges| && forall i | 0 <= i < |c.edges| ::
              EdgeWindowOk(c, c.edges[i]) && links.value[i] == LinkOf(c, c.edges[i])
  {
    hide EdgeWindowOk, LinkId, NamedNodes, Joins, SeenAll;
    var out: seq<Link> := [];
    var ids: set<string> := {};
    for i := 0 to |c.edges|
      invariant EdgesOk(c, NamedNodes(c.nodes, escape), i)
      invariant |out| == i && forall j | 0 <= j < i :: FromOf(c, c.edges[j]).At? && out[j] == LinkOf(c, c.edges[j])
      invariant forall j | 0 <= j < i :: LinkId(c.edges[j]) in ids
      invariant forall x | x in ids :: exists j | 0 <= j < i :: LinkId(c.edges[j]) == x
    {
      var e := c.edges[i];
      JoinsSeen(c.nodes, escape, seen, e.source, e.target);
      if e.source !in seen || e.target !in seen || seen[e.source].environment != seen[e.target].environment
         || !EdgeWindowOk(c, e) || LinkId(e) in ids {
        return None;
      }
      WindowHasFrom(c, e);
      out, ids := out + [LinkOf(c, e)], ids + {LinkId(e)};
    }
    return Some(out);
  }

  lemma WindowHasFrom(c: Config, e: RawEdge)
    requires c.from.At? && EdgeWindowOk(c, e)
    ensures FromOf(c, e).At?
  {
  }

  lemma JoinsSeen(nodes: seq<Node>, escape: string -> string, seen: map<string, Node>, a: string, b: string)
    requires SeenAll(nodes, escape, seen)
    ensures Joins(NamedNodes(nodes, escape), a, b) <==> a in seen && b in seen && seen[a].environment == seen[b].environment
  {
    var named := NamedNodes(nodes, escape);
    if a in seen && b in seen && seen[a].environment == seen[b].environment {
      var i :| 0 <= i < |nodes| && ServiceId(nodes[i], escape) == a;
      var j :| 0 <= j < |nodes| && ServiceId(nodes[j], escape) == b;
      assert named[i].id == a && named[j].id == b && named[i].environment == named[j].environment;
    }
  }

  /** The link of a configured edge: its own ends, kind and source, and its own window or else that of the configuration. */
  ghost predicate LinkFor(c: Config, e: RawEdge, l: Link) {
    && l.edge.source == e.source && l.edge.target == e.target && l.edge.sourceRef == e.sourceRef
    && l.edge.kind == (if e.kind == "" then "declared" else e.kind) && l.edge.kind in {"declared", "observed"}
    && (match e.from case Absent => c.from == At(l.from) case Unparsable => false case At(t) => l.from == t)
    && (match e.to
        case Absent => (match c.to case Absent => l.to == None case Unparsable => false case At(t) => l.to == Some(t))
        case Unparsable => false
        case At(t) => l.to == Some(t))
  }

  /** The limits on a configuration that is accepted. */
  ghost predicate Limited(c: Config) {
    && TrimSpace(c.version) != "" && TrimSpace(c.sourceRef) != "" && |c.nodes| <= 300 && |c.edges| <= 600
    && forall i | 0 <= i < |c.nodes| ::
         var n := c.nodes[i];
         && TrimSpace(n.environment) != "" && TrimSpace(n.namespace) != "" && TrimSpace(n.service) != "" && TrimSpace(n.sourceRef) != ""
         && |n.environment| <= 128 && |n.namespace| <= 128 && |n.service| <= 256
  }

  /** A configuration is loaded exactly when it is valid; ids, kinds and windows are then filled in. */
  method Load(c: Config, escape: string -> string) returns (t: Option<Topology>)
    ensures t.Some? <==> Valid(c, escape)
    ensures t.Some? ==> Loaded(t.value) && Limited(c)
    ensures t.Some? ==> |t.value.nodes| == |c.nodes| && |t.value.links| == |c.edges|
    ensures t.Some? ==> c.from == At(t.value.from) && (if c.to.At? then t.value.to == Some(c.to.time) else t.value.to == None)
    ensures t.Some? ==> forall i | 0 <= i < |c.nodes| ::
              var n := c.nodes[i];
              t.value.nodes[i] == n.(id := escape(n.environment) + "/" + escape(n.namespace) + "/" + escape(n.service))
    ensures t.Some? ==> forall i | 0 <= i < |c.edges| :: LinkFor(c, c.edges[i], t.value.links[i])
  {
    if !HeaderOk(c) {
      return None;
    }
    var seen := LoadNodes(c.nodes, escape);
    if seen.None? {
      return None;
    }
    var links := LoadLinks(c, escape, seen.value);
    if links.None? {
      return None;
    }
    t := Some(Topology(c.from.time, End(c.to), NamedNodes(c.nodes, escape), links.value));
    LoadedFrom(c, escape, t.value);
  }

  /** Node ids are distinct and not empty; links join nodes of one environment, within the configuration's window. */
  ghost predicate Loaded(t: Topology) {
    && (forall i | 0 <= i < |t.nodes| :: t.nodes[i].id != "")
    && (forall i, j | 0 <= i < j < |t.nodes| :: t.nodes[i].id != t.nodes[j].id)
    && (forall i | 0 <= i < |t.links| :: Joins(t.nodes, t.links[i].edge.source, t.links[i].edge.target))
    && (forall i | 0 <= i < |t.links| ::
          && t.from <= t.links[i].from
          && (t.links[i].to.Some? ==> t.links[i].from <= t.links[i].to.value)
          && (t.to.Some? ==> t.links[i].to.Some? && t.links[i].to.value <= t.to.value))
  }

  lemma IdNotEmpty(n: Node, escape: string -> string)
    ensures ServiceId(n, escape) != ""
  {
    assert |ServiceId(n, escape)| >= 2;
  }

  lemma LoadedFrom(c: Config, escape: string -> string, t: Topology)
    requires Valid(c, escape) && t.from == c.from.time && t.to == End(c.to) && t.nodes == NamedNodes(c.nodes, escape)
    requires |t.links| == |c.edges| && forall i | 0 <= i < |c.edges| ::
               EdgeWindowOk(c, c.edges[i]) && t.links[i] == LinkOf(c, c.edges[i])
    ensures Loaded(t) && Limited(c)
    ensures forall i | 0 <= i < |c.edges| :: LinkFor(c, c.edges[i], t.links[i])
  {
    hide Joins, LinkId, ServiceId, TrimSpace;
    forall i | 0 <= i < |t.nodes| ensures t.nodes[i].id != "" { IdNotEmpty(c.nodes[i], escape); }
  }

  // ------------------------------------------------------- answering for a service

  datatype Impact = Impact(service: string, sourceRefs: seq<string>)

  datatype View = View(active: bool, focus: string, nodes: seq<Node>, edges: seq<Edge>, impacts: seq<Impact>)

  datatype Answer = Undeclared | Ambiguous | Shown(view: View)

  predicate ActiveAt(t: Topology, now: int) {
    t.from <= now && (t.to.Some? ==> now < t.to.value)
  }

  predicate LinkActive(t: Topology, l: Link, now: int) {
    ActiveAt(t, now) && l.from <= now && (l.to.Some? ==> now < l.to.value)
  }

  function ActiveEdges(t: Topology, links: seq<Link>, now: int): seq<Edge> {
    if links == [] then []
    else
      var rest := ActiveEdges(t, links[..|links| - 1], now);
      if LinkActive(t, links[|links| - 1], now) then rest + [links[|links| - 1].edge] else rest
  }

  predicate Matches(n: Node, environment: string, service: string) {
    n.environment == environment &&
    (n.service == service || n.namespace + "/" + n.service == service || n.id == service)
  }

  /** A service is asked for by its name, by its namespace and name, or by its id, in its environment. */
  ghost predicate Answers(n: Node, environment: string, service: string) {
    n.environment == environment && service in {n.service, n.namespace + "/" + n.service, n.id}
  }

  lemma MatchesIs(nodes: seq<Node>, environment: string, service: string)
    ensures forall i | 0 <= i < |nodes| :: Matches(nodes[i], environment, service) <==> Answers(nodes[i], environment, service)
  {
  }

  /** The nodes, in order, of the undirected component of the focus. */
  ghost function ComponentNodes(nodes: seq<Node>, edges: seq<Edge>, focus: string): seq<Node> {
    if nodes == [] then []
    else
      var n, rest := nodes[|nodes| - 1], ComponentNodes(nodes[..|nodes| - 1], edges, focus);
      if Connected(edges, focus, n.id) then rest + [n] else rest
  }

  /** The edges, in order, with both ends in that component. */
  ghost function ComponentEdges(all: seq<Edge>, edges: seq<Edge>, focus: string): seq<Edge> {
    if all == [] then []
    else
      var e, rest := all[|all| - 1], ComponentEdges(all[..|all| - 1], edges, focus);
      if Connected(edges, focus, e.source) && Connected(edges, focus, e.target) then rest + [e] else rest
  }

  predicate ByService(a: Impact, b: Impact) { Less(a.service, b.service) }

  /** Impacts are exactly the dependents of the focus, in order, each with the references of a shortest path. */
  ghost predicate ImpactsExact(impacts: seq<Impact>, edges: seq<Edge>, focus: string) {
    && (forall i, j | 0 <= i < j < |impacts| :: Less(impacts[i].service, impacts[j].service))
    && (forall x :: x != focus && Depends(edges, x, focus) <==> exists i | 0 <= i < |impacts| :: impacts[i].service == x)
    && (forall i | 0 <= i < |impacts| :: SpellsShortest(impacts[i], edges, focus))
  }

  ghost predicate SpellsShortest(impact: Impact, edges: seq<Edge>, focus: string) {
    exists path :: Shortest(edges, path, impact.service, focus) && impact.sourceRefs == Refs(path)
  }

  method SelectActive(t: Topology, now: int) returns (edges: seq<Edge>)
    ensures edges == ActiveEdges(t, t.links, now)
  {
    edges := [];
    for i := 0 to |t.links|
      invariant edges == ActiveEdges(t, t.links[..i], now)
    {
      assert t.links[..i + 1][..i] == t.links[..i];
      if LinkActive(t, t.links[i], now) {
        edges := edges + [t.links[i].edge];
      }
    }
    assert t.links[..|t.links|] == t.links;
  }

  method FindFocus(t: Topology, environment: string, service: string) returns (focus: string, ambiguous: bool)
    requires Loaded(t)
    ensures ambiguous <==> exists i, j | 0 <= i < j < |t.nodes| ::
              Matches(t.nodes[i], environment, service) && Matches(t.nodes[j], environment, service)
    ensures !ambiguous && focus == "" <==> forall i | 0 <= i < |t.nodes| :: !Matches(t.nodes[i], environment, service)
    ensures focus != "" ==> exists i | 0 <= i < |t.nodes| :: t.nodes[i].id == focus && Matches(t.nodes[i], environment, service)
  {
    hide Matches;
    focus, ambiguous := "", false;
    ghost var at := 0;
    for i := 0 to |t.nodes|
      invariant focus == "" <==> forall j | 0 <= j < i :: !Matches(t.nodes[j], environment, service)
      invariant focus != "" ==> 0 <= at < i && t.nodes[at].id == focus && Matches(t.nodes[at], environment, service)
      invariant focus != "" ==> forall j | 0 <= j < i && j != at :: !Matches(t.nodes[j], environment, service)
    {
      if Matches(t.nodes[i], environment, service) {
        if focus != "" {
          return focus, true;
        }
        focus, at := t.nodes[i].id, i;
      }
    }
  }

  method SelectNodes(nodes: seq<Node>, visible: set<string>, ghost edges: seq<Edge>, ghost focus: string) returns (out: seq<Node>)
    requires forall x :: x in visible <==> Connected(edges, focus, x)
    ensures out == ComponentNodes(nodes, edges, focus)
  {
    out := [];
    for i := 0 to |nodes|
      invariant out == ComponentNodes(nodes[..i], edges, focus)
    {
      assert nodes[..i + 1][..i] == nodes[..i];
      if nodes[i].id in visible { out := out + [nodes[i]]; }
    }
    assert nodes[..|nodes|] == nodes;
  }

  method SelectEdges(edges: seq<Edge>, visible: set<string>, ghost focus: string) returns (out: seq<Edge>)
    requires forall x :: x in visible <==> Connected(edges, focus, x)
    ensures out == ComponentEdges(edges, edges, focus)
  {
    out := [];
    for i := 0 to |edges|
      invariant out == ComponentEdges(edges[..i], edges, focus)
    {
      assert edges[..i + 1][..i] == edges[..i];
      if edges[i].source in visible && edges[i].target in visible { out := out + [edges[i]]; }
    }
    assert edges[..|edges|] == edges;
  }

  /** The impact entries of a map, in the order of their service ids. */
  method ListImpacts(potential: map<string, seq<string>>) returns (impacts: seq<Impact>)
    ensures forall i, j | 0 <= i < j < |impacts| :: Less(impacts[i].service, impacts[j].service)
    ensures forall x :: x in potential <==> exists i | 0 <= i < |impacts| :: impacts[i].service == x
    ensures forall i | 0 <= i < |impacts| :: impacts[i].service in potential && impacts[i].sourceRefs == potential[impacts[i].service]
  {
    var left, listed: seq<Impact> := potential.Keys, [];
    while left != {}
      invariant left <= potential.Keys
      invariant forall i | 0 <= i < |listed| :: listed[i].service in potential && listed[i].service !in left &&
                                                listed[i].sourceRefs == potential[listed[i].service]
      invariant forall i, j | 0 <= i < j < |listed| :: listed[i].service != listed[j].service
      invariant forall x | x in potential && x !in left :: exists i | 0 <= i < |listed| :: listed[i].service == x
      decreases left
    {
      var x :| x in left;
      ghost var before := listed;
      listed, left := listed + [Impact(x, potential[x])], left - {x};
      assert listed[|before|].service == x;
      assert forall i | 0 <= i < |before| :: listed[i] == before[i];
    }
    impacts := Sort(listed, ByService);
    SortedImpacts(listed);
  }

  lemma SortedImpacts(listed: seq<Impact>)
    requires forall i, j | 0 <= i < j < |listed| :: listed[i].service != listed[j].service
    ensures var s := Sort(listed, ByService);
            && (forall i, j | 0 <= i < j < |s| :: Less(s[i].service, s[j].service))
            && (forall i | 0 <= i < |s| :: s[i] in listed)
            && (forall i | 0 <= i < |listed| :: listed[i] in s)
  {
    var s := Sort(listed, ByService);
    ServicesOrdered();
    SortSorts(listed, ByService);
    SortPermutes(listed, ByService);
    PermutationMembers(listed, s);
    PermutationKeepsDistinct(listed, s);
    forall i, j | 0 <= i < j < |s| ensures Less(s[i].service, s[j].service) {
      assert !ByService(s[j], s[i]);
      LessTotal(s[i].service, s[j].service);
      assert s[i] in listed && s[j] in listed && s[i] != s[j];
    }
  }

  lemma ServicesOrdered()
    ensures WeakOrder(ByService)
  {
    StringsAreOrdered();
    hide Less;
    assert forall a, b | ByService(a, b) :: !ByService(b, a);
    forall a, b, c | !ByService(b, a) && !ByService(c, b) ensures !ByService(c, a) {
      assert !Less(b.service, a.service) && !Less(c.service, b.service);
    }
  }

  /**
   The answer for one service: refused when no or several nodes match; otherwise the nodes and edges of the
   focus's undirected component over active edges, and its exact potential impact.
   */
  method ForService(t: Topology, environment: string, service: string, now: int) returns (r: Answer)
    requires Loaded(t)
    ensures r.Ambiguous? <==> exists i, j | 0 <= i < j < |t.nodes| ::
              Matches(t.nodes[i], environment, service) && Matches(t.nodes[j], environment, service)
    ensures r.Undeclared? <==> forall i | 0 <= i < |t.nodes| :: !Matches(t.nodes[i], environment, service)
    ensures r.Shown? ==>
              var edges := ActiveEdges(t, t.links, now);
              && (exists i | 0 <= i < |t.nodes| :: t.nodes[i].id == r.view.focus && Answers(t.nodes[i], environment, service))
              && r.view.active == ActiveAt(t, now)
              && r.view.nodes == ComponentNodes(t.nodes, edges, r.view.focus)
              && r.view.edges == ComponentEdges(edges, edges, r.view.focus)
              && ImpactsExact(r.view.impacts, edges, r.view.focus)
    ensures r.Shown? ==>
              var edges := ActiveEdges(t, t.links, now);
              && (forall n :: n in r.view.nodes <==> n in t.nodes && Connected(edges, r.view.focus, n.id))
              && (forall e :: e in r.view.edges <==> e in edges && Connected(edges, r.view.focus, e.source))
    ensures r.Shown? ==> forall i | 0 <= i < |r.view.nodes| :: r.view.nodes[i].environment == environment
  {
    hide Matches, Loaded, ActiveEdges, ComponentNodes, ComponentEdges, ImpactsExact, Connected, Depends, Shortest, Refs, Less, Answers;
    MatchesIs(t.nodes, environment, service);
    var edges := SelectActive(t, now);
    var focus, ambiguous := FindFocus(t, environment, service);
    if ambiguous {
      return Ambiguous;
    }
    if focus == "" {
      return Undeclared;
    }
    var visible := Component(edges, focus);
    var potential, paths := Dependents(edges, focus);
    var nodes := SelectNodes(t.nodes, visible, edges, focus);
    var kept := SelectEdges(edges, visible, focus);
    var impacts := ListImpacts(potential);
    ImpactsFromMap(impacts, potential, paths, edges, focus);
    ComponentEnvironment(t, environment, service, focus, now);
    ComponentIs(t.nodes, edges, focus);
    r := Shown(View(ActiveAt(t, now), focus, nodes, kept, impacts));
  }

  /** What is kept of a component: its nodes, and every edge out of it, whose other end is then in it as well. */
  lemma ComponentIs(nodes: seq<Node>, edges: seq<Edge>, focus: string)
    ensures forall n :: n in ComponentNodes(nodes, edges, focus) <==> n in nodes && Connected(edges, focus, n.id)
    ensures forall e :: e in ComponentEdges(edges, edges, focus) <==> e in edges && Connected(edges, focus, e.source)
  {
    hide Connected;
    KeptNodes(nodes, edges, focus);
    KeptEdges(edges, edges, focus);
    forall e | e in edges && Connected(edges, focus, e.source) ensures Connected(edges, focus, e.target) {
      var i :| 0 <= i < |edges| && edges[i] == e;
      assert Adjacent(edges, e.source, e.target);
      ExtendWalk(edges, focus, e.source, e.target);
    }
  }

  lemma {:induction false} KeptNodes(nodes: seq<Node>, edges: seq<Edge>, focus: string)
    ensures forall n :: n in ComponentNodes(nodes, edges, focus) <==> n in nodes && Connected(edges, focus, n.id)
    decreases |nodes|
  {
    hide Connected;
    if nodes != [] {
      KeptNodes(nodes[..|nodes| - 1], edges, focus);
      assert nodes == nodes[..|nodes| - 1] + [nodes[|nodes| - 1]];
    }
  }

  lemma {:induction false} KeptEdges(all: seq<Edge>, edges: seq<Edge>, focus: string)
    ensures forall e :: e in ComponentEdges(all, edges, focus) <==>
                        e in all && Connected(edges, focus, e.source) && Connected(edges, focus, e.target)
    decreases |all|
  {
    hide Connected;
    if all != [] {
      KeptEdges(all[..|all| - 1], edges, focus);
      assert all == all[..|all| - 1] + [all[|all| - 1]];
    }
  }

  lemma ImpactsFromMap(impacts: seq<Impact>, potential: map<string, seq<string>>, paths: map<string, seq<Edge>>,
                       edges: seq<Edge>, focus: string)
    requires forall i, j | 0 <= i < j < |impacts| :: Less(impacts[i].service, impacts[j].service)
    requires forall x :: x in potential <==> exists i | 0 <= i < |impacts| :: impacts[i].service == x
    requires forall i | 0 <= i < |impacts| :: impacts[i].service in potential && impacts[i].sourceRefs == potential[impacts[i].service]
    requires forall x :: x in potential <==> x != focus && Depends(edges, x, focus)
    requires forall x | x in potential :: x in paths && Shortest(edges, paths[x], x, focus) && potential[x] == Refs(paths[x])
    ensures ImpactsExact(impacts, edges, focus)
  {
    hide Less, Depends, Shortest, Refs;
    forall i | 0 <= i < |impacts| ensures SpellsShortest(impacts[i], edges, focus) {
      var x := impacts[i].service;
      assert Shortest(edges, paths[x], x, focus) && impacts[i].sourceRefs == Refs(paths[x]);
    }
    forall x ensures x != focus && Depends(edges, x, focus) <==> exists i | 0 <= i < |impacts| :: impacts[i].service == x {
      assert x in potential <==> x != focus && Depends(edges, x, focus);
    }
  }

  // ---------------------------------------------------------------- environments

  ghost predicate InEnvironment(nodes: seq<Node>, id: string, environment: string) {
    exists i | 0 <= i < |nodes| :: nodes[i].id == id && nodes[i].environment == environment
  }

  /** The active edges are those of the links whose window, and that of the configuration, holds the instant; ends are outside. */
  lemma {:induction false} ActiveIs(t: Topology, links: seq<Link>, now: int, e: Edge)
    ensures e in ActiveEdges(t, links, now) <==>
            && t.from <= now && (t.to.Some? ==> now < t.to.value)
            && exists i | 0 <= i < |links| :: links[i].edge == e && links[i].from <= now && (links[i].to.Some? ==> now < links[i].to.value)
    decreases |links|
  {
    if links != [] {
      var init, last := links[..|links| - 1], links[|links| - 1];
      ActiveIs(t, init, now, e);
      if i :| 0 <= i < |init| && init[i].edge == e && init[i].from <= now && (init[i].to.Some? ==> now < init[i].to.value) {
        assert links[i] == init[i];
      }
      if i :| 0 <= i < |links| && links[i].edge == e && links[i].from <= now && (links[i].to.Some? ==> now < links[i].to.value) {
        if i < |init| { assert init[i] == links[i]; }
      }
    }
  }

  lemma {:induction false} ActiveAreLinks(t: Topology, links: seq<Link>, now: int, e: Edge)
    requires e in ActiveEdges(t, links, now)
    ensures exists i | 0 <= i < |links| :: links[i].edge == e
    decreases |links|
  {
    if links != [] {
      var init := links[..|links| - 1];
      if e in ActiveEdges(t, init, now) {
        ActiveAreLinks(t, init, now, e);
        var i :| 0 <= i < |init| && init[i].edge == e;
        assert links[i].edge == e;
      } else {
        assert links[|links| - 1].edge == e;
      }
    }
  }

  lemma {:induction false} WalkStaysInside(t: Topology, edges: seq<Edge>, p: seq<string>, environment: string, now: int)
    requires Loaded(t) && edges == ActiveEdges(t, t.links, now)
    requires Walk(edges, p) && InEnvironment(t.nodes, p[0], environment)
    ensures InEnvironment(t.nodes, p[|p| - 1], environment)
    decreases |p|
  {
    if |p| > 1 {
      var init := p[..|p| - 1];
      assert Walk(edges, init);
      WalkStaysInside(t, edges, init, environment, now);
      assert Adjacent(edges, p[|p| - 2], p[|p| - 1]);
      var i :| 0 <= i < |edges| && ((edges[i].source == p[|p| - 2] && edges[i].target == p[|p| - 1]) ||
                                    (edges[i].source == p[|p| - 1] && edges[i].target == p[|p| - 2]));
      ActiveAreLinks(t, t.links, now, edges[i]);
      assert Joins(t.nodes, edges[i].source, edges[i].target);
    }
  }

  lemma {:induction false} ComponentIsConnected(nodes: seq<Node>, edges: seq<Edge>, focus: string, n: Node)
    requires n in ComponentNodes(nodes, edges, focus)
    ensures n in nodes && Connected(edges, focus, n.id)
    decreases |nodes|
  {
    if nodes != [] && n in ComponentNodes(nodes[..|nodes| - 1], edges, focus) {
      ComponentIsConnected(nodes[..|nodes| - 1], edges, focus, n);
    }
  }

  /** Everything shown is in the environment of the focus. */
  lemma ComponentEnvironment(t: Topology, environment: string, service: string, focus: string, now: int)
    requires Loaded(t)
    requires exists i | 0 <= i < |t.nodes| :: t.nodes[i].id == focus && Matches(t.nodes[i], environment, service)
    ensures forall n | n in ComponentNodes(t.nodes, ActiveEdges(t, t.links, now), focus) :: n.environment == environment
  {
    hide Loaded, ActiveEdges, ComponentNodes;
    var edges := ActiveEdges(t, t.links, now);
    assert InEnvironment(t.nodes, focus, environment);
    forall n | n in ComponentNodes(t.nodes, edges, focus) ensures n.environment == environment {
      ComponentIsConnected(t.nodes, edges, focus, n);
      var p :| Walk(edges, p) && p[0] == focus && p[|p| - 1] == n.id;
      WalkStaysInside(t, edges, p, environment, now);
      UniqueId(t, n, environment);
    }
  }

  lemma UniqueId(t: Topology, n: Node, environment: string)
    requires Loaded(t) && n in t.nodes && InEnvironment(t.nodes, n.id, environment)
    ensures n.environment == environment
  {
    var i :| 0 <= i < |t.nodes| && t.nodes[i] == n;
    var j :| 0 <= j < |t.nodes| && t.nodes[j].id == n.id && t.nodes[j].environment == environment;
    assert i == j;
  }
}
