/**
 The bounded evidence graph: the first truncation where it is built, and the neighbourhood of a focus
 with the second truncation where it is served.
 */
module GraphView {
  import opened TopologySearch

  datatype Node = Node(id: string, kind: string)

  datatype Graph = Graph(nodes: seq<Node>, edges: seq<Edge>, truncated: bool, omittedNodes: nat, omittedEdges: nat)

  function Ids(nodes: seq<Node>): set<string> {
    set i | 0 <= i < |nodes| :: nodes[i].id
  }

  /** The nodes, in order, with an id in the set. */
  function Among(nodes: seq<Node>, ids: set<string>): seq<Node> {
    if nodes == [] then []
    else
      var rest := Among(nodes[..|nodes| - 1], ids);
      if nodes[|nodes| - 1].id in ids then rest + [nodes[|nodes| - 1]] else rest
  }

  /** The edges, in order, with both ends in the set. */
  function Inside(edges: seq<Edge>, ids: set<string>): seq<Edge> {
    if edges == [] then []
    else
      var e, rest := edges[|edges| - 1], Inside(edges[..|edges| - 1], ids);
      if e.source in ids && e.target in ids then rest + [e] else rest
  }

  function Capped<T>(s: seq<T>, n: nat): seq<T> {
    if |s| <= n then s else s[..n]
  }

  /** What is kept and what is omitted add up to the original, and truncation is reported exactly. */
  ghost predicate Counted(g: Graph, nodes: nat, edges: nat) {
    && |g.nodes| + g.omittedNodes == nodes
    && |g.edges| + g.omittedEdges == edges
    && (g.truncated <==> g.omittedNodes > 0 || g.omittedEdges > 0)
  }

  ghost predicate NoDangling(g: Graph) {
    forall i | 0 <= i < |g.edges| :: g.edges[i].source in Ids(g.nodes) && g.edges[i].target in Ids(g.nodes)
  }

  lemma {:induction false} InsideFacts(edges: seq<Edge>, ids: set<string>)
    ensures |Inside(edges, ids)| <= |edges|
    ensures forall i | 0 <= i < |Inside(edges, ids)| :: Inside(edges, ids)[i].source in ids && Inside(edges, ids)[i].target in ids
  {
    if edges != [] { InsideFacts(edges[..|edges| - 1], ids); }
  }

  lemma {:induction false} AmongFacts(nodes: seq<Node>, ids: set<string>)
    ensures |Among(nodes, ids)| <= |nodes|
  {
    if nodes != [] { AmongFacts(nodes[..|nodes| - 1], ids); }
  }

  lemma InsideMore(edges: seq<Edge>, i: nat, ids: set<string>, limit: nat)
    requires i < |edges|
    ensures var kept, e := Capped(Inside(edges[..i], ids), limit), edges[i];
            Capped(Inside(edges[..i + 1], ids), limit) ==
            if e.source in ids && e.target in ids && |kept| < limit then kept + [e] else kept
  {
    assert edges[..i + 1][..i] == edges[..i];
  }

  lemma AmongMore(nodes: seq<Node>, i: nat, ids: set<string>, limit: nat)
    requires i < |nodes|
    ensures var kept, n := Capped(Among(nodes[..i], ids), limit), nodes[i];
            Capped(Among(nodes[..i + 1], ids), limit) == if n.id in ids && |kept| < limit then kept + [n] else kept
  {
    assert nodes[..i + 1][..i] == nodes[..i];
  }

  method KeepEdges(edges: seq<Edge>, ids: set<string>, limit: nat) returns (kept: seq<Edge>)
    ensures kept == Capped(Inside(edges, ids), limit)
  {
    hide Inside, Capped;
    kept := [];
    NothingInside(ids, limit);
    for i := 0 to |edges|
      invariant kept == Capped(Inside(edges[..i], ids), limit)
    {
      InsideMore(edges, i, ids, limit);
      if edges[i].source in ids && edges[i].target in ids && |kept| < limit {
        kept := kept + [edges[i]];
      }
    }
    assert edges[..|edges|] == edges;
  }

  lemma NothingInside(ids: set<string>, limit: nat)
    ensures Capped(Inside([], ids), limit) == [] && Capped(Among([], ids), limit) == []
  {
  }

  method KeepNodes(nodes: seq<Node>, visible: set<string>, limit: nat) returns (kept: seq<Node>)
    ensures kept == Capped(Among(nodes, visible), limit)
  {
    hide Among, Capped;
    kept := [];
    NothingInside(visible, limit);
    for i := 0 to |nodes|
      invariant kept == Capped(Among(nodes[..i], visible), limit)
    {
      AmongMore(nodes, i, visible, limit);
      if nodes[i].id in visible && |kept| < limit {
        kept := kept + [nodes[i]];
      }
    }
    assert nodes[..|nodes|] == nodes;
  }

  /** The first truncation: the leading nodes, and the leading edges between them. */
  method Bound(nodes: seq<Node>, edges: seq<Edge>, nodeLimit: int, edgeLimit: int) returns (g: Graph)
    ensures var n, m := (if nodeLimit < 1 then 60 else nodeLimit), (if edgeLimit < 1 then 120 else edgeLimit);
            g.nodes == Capped(nodes, n) && g.edges == Capped(Inside(edges, Ids(g.nodes)), m)
    ensures Counted(g, |nodes|, |edges|) && NoDangling(g)
    ensures var n, m := (if nodeLimit < 1 then 60 else nodeLimit), (if edgeLimit < 1 then 120 else edgeLimit);
            && g.nodes <= nodes && (|g.nodes| == n || g.nodes == nodes) && |g.nodes| <= n && |g.edges| <= m
            && (forall e | e in g.edges :: e in edges)
            && (|g.edges| < m ==> forall e | e in edges && e.source in Ids(g.nodes) && e.target in Ids(g.nodes) :: e in g.edges)
  {
    hide Inside, Ids;
    var n := if nodeLimit < 1 then 60 else nodeLimit;
    var m := if edgeLimit < 1 then 120 else edgeLimit;
    var kept := if |nodes| > n then nodes[..n] else nodes;
    var visible := Ids(kept);
    var filtered := KeepEdges(edges, visible, m);
    InsideFacts(edges, visible);
    InsideExact(edges, visible);
    g := Graph(kept, filtered, |nodes| > |kept| || |edges| > |filtered|, |nodes| - |kept|, |edges| - |filtered|);
  }

  // ---------------------------------------------------------------- neighbourhood

  /** A walk of at most `depth` edges from the starting set leads to x. */
  ghost predicate Near(edges: seq<Edge>, start: set<string>, depth: nat, x: string) {
    exists p :: Walk(edges, p) && |p| <= depth + 1 && p[0] in start && p[|p| - 1] == x
  }

  lemma NearZero(edges: seq<Edge>, start: set<string>, x: string)
    ensures Near(edges, start, 0, x) <==> x in start
  {
    if x in start {
      assert Walk(edges, [x]) && [x][0] in start && [x][|[x]| - 1] == x;
    }
  }

  lemma NearStep(edges: seq<Edge>, start: set<string>, d: nat, y: string, x: string)
    requires Near(edges, start, d, y) && Adjacent(edges, y, x)
    ensures Near(edges, start, d + 1, x)
  {
    hide Adjacent;
    var p :| Walk(edges, p) && |p| <= d + 1 && p[0] in start && p[|p| - 1] == y;
    var q := p + [x];
    assert Walk(edges, q) && q[0] == p[0] && q[|q| - 1] == x;
  }

  lemma NearBack(edges: seq<Edge>, start: set<string>, d: nat, x: string)
    requires Near(edges, start, d + 1, x)
    ensures Near(edges, start, d, x) || exists y :: Near(edges, start, d, y) && Adjacent(edges, y, x)
  {
    hide Adjacent;
    var p :| Walk(edges, p) && |p| <= d + 2 && p[0] in start && p[|p| - 1] == x;
    if |p| == d + 2 {
      var init, y := p[..|p| - 1], p[|p| - 2];
      assert Walk(edges, init) && init[|init| - 1] == y && init[0] == p[0];
      assert Near(edges, start, d, y) && Adjacent(edges, y, x);
    }
  }

  lemma NearMore(edges: seq<Edge>, start: set<string>, d: nat, x: string)
    ensures Near(edges, start, d + 1, x) <==>
            Near(edges, start, d, x) || exists y :: Near(edges, start, d, y) && Adjacent(edges, y, x)
  {
    if Near(edges, start, d + 1, x) {
      NearBack(edges, start, d, x);
    }
    if Near(edges, start, d, x) {
      var p :| Walk(edges, p) && |p| <= d + 1 && p[0] in start && p[|p| - 1] == x;
    }
    if exists y :: Near(edges, start, d, y) && Adjacent(edges, y, x) {
      var y :| Near(edges, start, d, y) && Adjacent(edges, y, x);
      NearStep(edges, start, d, y, x);
    }
  }

  /** The nodes one edge away from the visible ones. */
  method NextRing(edges: seq<Edge>, visible: set<string>) returns (next: set<string>)
    ensures forall x :: x in next <==> exists y :: y in visible && Adjacent(edges, y, x)
  {
    next := {};
    for i := 0 to |edges|
      invariant forall x :: x in next <==> Touches(edges, i, visible, x)
    {
      ghost var before := next;
      var e := edges[i];
      if e.source in visible {
        next := next + {e.target};
      }
      if e.target in visible {
        next := next + {e.source};
      }
      forall x ensures x in next <==> Touches(edges, i + 1, visible, x) {
        assert x in before <==> Touches(edges, i, visible, x);
        TouchesMore(edges, i, visible, x);
      }
    }
    forall x ensures x in next <==> exists y :: y in visible && Adjacent(edges, y, x) {
      TouchesIsAdjacent(edges, visible, x);
    }
  }

  ghost predicate Touches(edges: seq<Edge>, n: nat, visible: set<string>, x: string)
    requires n <= |edges|
  {
    exists i | 0 <= i < n :: (edges[i].source in visible && edges[i].target == x) || (edges[i].target in visible && edges[i].source == x)
  }

  lemma TouchesMore(edges: seq<Edge>, i: nat, visible: set<string>, x: string)
    requires i < |edges|
    ensures Touches(edges, i + 1, visible, x) <==>
            Touches(edges, i, visible, x) || (edges[i].source in visible && edges[i].target == x) || (edges[i].target in visible && edges[i].source == x)
  {
  }

  lemma TouchesIsAdjacent(edges: seq<Edge>, visible: set<string>, x: string)
    ensures Touches(edges, |edges|, visible, x) <==> exists y :: y in visible && Adjacent(edges, y, x)
  {
    if Touches(edges, |edges|, visible, x) {
      var i :| 0 <= i < |edges| && ((edges[i].source in visible && edges[i].target == x) || (edges[i].target in visible && edges[i].source == x));
      var y := if edges[i].source in visible && edges[i].target == x then edges[i].source else edges[i].target;
      assert y in visible && Adjacent(edges, y, x);
    }
  }

  /** The depth loop computes exactly the nodes within that undirected distance. */
  method Grow(edges: seq<Edge>, start: set<string>, depth: nat) returns (visible: set<string>)
    ensures forall x :: x in visible <==> Near(edges, start, depth, x)
  {
    hide Near, Adjacent;
    visible := start;
    forall x ensures x in visible <==> Near(edges, start, 0, x) { NearZero(edges, start, x); }
    for d := 0 to depth
      invariant forall x :: x in visible <==> Near(edges, start, d, x)
    {
      ghost var before := visible;
      var next := NextRing(edges, visible);
      visible := visible + next;
      forall x ensures x in visible <==> Near(edges, start, d + 1, x) {
        NearMore(edges, start, d, x);
        assert x in next <==> exists y :: y in before && Adjacent(edges, y, x);
      }
    }
  }

  datatype Reply = InvalidFocus | Served(graph: Graph)

  /**
   The neighbourhood of a focus, truncated again. Without an explicit focus or depth every node of the graph is
   visible. Counts stay relative to the graph before either truncation, and no kept edge dangles.
   */
  method Neighbourhood(g: Graph, incident: string, focus: string, explicitFocus: bool, explicitDepth: bool,
                       depth: nat, nodes: nat, edges: nat, ghost allNodes: nat, ghost allEdges: nat) returns (r: Reply)
    requires Counted(g, allNodes, allEdges)
    requires !explicitFocus ==> focus == incident
    ensures r.InvalidFocus? <==> focus !in Ids(g.nodes) && (g.nodes != [] || explicitFocus)
    ensures r.Served? ==> Counted(r.graph, allNodes, allEdges) && NoDangling(r.graph)
    ensures r.Served? ==> |r.graph.nodes| <= nodes && |r.graph.edges| <= edges
    ensures r.Served? ==>
              var start := if explicitFocus || explicitDepth then {focus} else Ids(g.nodes) + {focus};
              && (forall n | n in r.graph.nodes :: n in g.nodes && Near(g.edges, start, depth, n.id))
              && (|r.graph.nodes| < nodes ==> forall n | n in g.nodes && Near(g.edges, start, depth, n.id) :: n in r.graph.nodes)
              && r.graph.edges == Capped(Inside(g.edges, Ids(r.graph.nodes)), edges)
              && (forall e | e in r.graph.edges :: e in g.edges)
              && (|r.graph.edges| < edges ==>
                    forall e | e in g.edges && e.source in Ids(r.graph.nodes) && e.target in Ids(r.graph.nodes) :: e in r.graph.edges)
  {
    if focus !in Ids(g.nodes) && (g.nodes != [] || explicitFocus) {
      return InvalidFocus;
    }
    hide Near, Inside, Among, Adjacent;
    var start := if explicitFocus || explicitDepth then {focus} else Ids(g.nodes) + {focus};
    var visible := Grow(g.edges, start, depth);
    var keptNodes := KeepNodes(g.nodes, visible, nodes);
    var keptEdges := KeepEdges(g.edges, Ids(keptNodes), edges);
    AmongFacts(g.nodes, visible);
    InsideFacts(g.edges, Ids(keptNodes));
    InsideExact(g.edges, Ids(keptNodes));
    AmongExact(g.nodes, visible);
    var omittedNodes := g.omittedNodes + |g.nodes| - |keptNodes|;
    var omittedEdges := g.omittedEdges + |g.edges| - |keptEdges|;
    r := Served(Graph(keptNodes, keptEdges, g.truncated || omittedNodes > 0 || omittedEdges > 0, omittedNodes, omittedEdges));
  }

  lemma {:induction false} InsideExact(edges: seq<Edge>, ids: set<string>)
    ensures forall e :: e in Inside(edges, ids) <==> e in edges && e.source in ids && e.target in ids
  {
    if edges != [] {
      InsideExact(edges[..|edges| - 1], ids);
      assert edges == edges[..|edges| - 1] + [edges[|edges| - 1]];
    }
  }

  lemma {:induction false} AmongExact(nodes: seq<Node>, ids: set<string>)
    ensures forall n :: n in Among(nodes, ids) <==> n in nodes && n.id in ids
  {
    if nodes != [] {
      AmongExact(nodes[..|nodes| - 1], ids);
      assert nodes == nodes[..|nodes| - 1] + [nodes[|nodes| - 1]];
    }
  }
}
