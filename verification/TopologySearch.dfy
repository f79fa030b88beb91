/**
 The two breadth-first searches over the active edges of a topology, which may contain cycles.
 */
module TopologySearch {

  datatype Edge = Edge(id: string, source: string, target: string, kind: string, sourceRef: string)

  // ------------------------------------------------------- what is searched for

  predicate Adjacent(edges: seq<Edge>, a: string, b: string) {
    exists i | 0 <= i < |edges| ::
      (edges[i].source == a && edges[i].target == b) || (edges[i].source == b && edges[i].target == a)
  }

  /** A walk along edges in either direction. */
  ghost predicate Walk(edges: seq<Edge>, p: seq<string>) {
    |p| > 0 && forall i | 0 <= i < |p| - 1 :: Adjacent(edges, p[i], p[i + 1])
  }

  ghost predicate Connected(edges: seq<Edge>, a: string, b: string) {
    exists p :: Walk(edges, p) && p[0] == a && p[|p| - 1] == b
  }

  /** `path` lists edges from the one into `focus` outwards to the one out of `x`. */
  ghost predicate DependencyPath(edges: seq<Edge>, path: seq<Edge>, x: string, focus: string) {
    if path == [] then x == focus
    else
      var e := path[|path| - 1];
      e in edges && e.source == x && DependencyPath(edges, path[..|path| - 1], e.target, focus)
  }

  /** Some chain of dependencies leads from `x` to `focus`. */
  ghost predicate Depends(edges: seq<Edge>, x: string, focus: string) {
    exists p :: DependencyPath(edges, p, x, focus)
  }

  ghost predicate Shortest(edges: seq<Edge>, path: seq<Edge>, x: string, focus: string) {
    && DependencyPath(edges, path, x, focus)
    && forall p | DependencyPath(edges, p, x, focus) :: |path| <= |p|
  }

  ghost function Refs(path: seq<Edge>): seq<string> {
    seq(|path|, i requires 0 <= i < |path| => path[i].sourceRef)
  }

  ghost function Endpoints(edges: seq<Edge>): set<string> {
    (set i | 0 <= i < |edges| :: edges[i].source) + (set i | 0 <= i < |edges| :: edges[i].target)
  }

  // -------------------------------------------------- the undirected component

  ghost predicate Settled(edges: seq<Edge>, n: nat, id: string, visible: set<string>)
    requires n <= |edges|
  {
    forall i | 0 <= i < n ::
      (edges[i].source == id ==> edges[i].target in visible) && (edges[i].target == id ==> edges[i].source in visible)
  }

  lemma ExtendWalk(edges: seq<Edge>, focus: string, a: string, b: string)
    requires Connected(edges, focus, a) && Adjacent(edges, a, b)
    ensures Connected(edges, focus, b)
  {
    var p :| Walk(edges, p) && p[0] == focus && p[|p| - 1] == a;
    assert Walk(edges, p + [b]);
    assert (p + [b])[|p + [b]| - 1] == b && (p + [b])[0] == focus;
  }

  lemma {:induction false} ClosedHoldsWalk(edges: seq<Edge>, visible: set<string>, p: seq<string>)
    requires Walk(edges, p) && p[0] in visible
    requires forall x | x in visible :: Settled(edges, |edges|, x, visible)
    ensures p[|p| - 1] in visible
    decreases |p|
  {
    if |p| > 1 {
      var init := p[..|p| - 1];
      assert Walk(edges, init);
      ClosedHoldsWalk(edges, visible, init);
      assert Adjacent(edges, p[|p| - 2], p[|p| - 1]);
    }
  }

  /** What one pass may do: `added` joins the queue and becomes visible. */
  ghost predicate Grown(edges: seq<Edge>, id: string, seen: set<string>, visible: set<string>, added: seq<string>) {
    && (forall x :: x in visible <==> x in seen || x in added)
    && (forall x | x in added :: x !in seen && Adjacent(edges, id, x) && x in Endpoints(edges))
  }

  lemma GrowOne(edges: seq<Edge>, id: string, seen: set<string>, visible: set<string>, added: seq<string>, i: nat, x: string)
    requires Grown(edges, id, seen, visible, added) && i < |edges| && x !in visible
    requires (edges[i].source == id && edges[i].target == x) || (edges[i].target == id && edges[i].source == x)
    ensures Grown(edges, id, seen, visible + {x}, added + [x])
  {
    assert Adjacent(edges, id, x);
  }

  /** One pass over the edges for the node taken off the queue. */
  method VisitNeighbours(edges: seq<Edge>, id: string, seen: set<string>, waiting: seq<string>)
    returns (visible: set<string>, queue: seq<string>, ghost added: seq<string>)
    ensures queue == waiting + added
    ensures Grown(edges, id, seen, visible, added)
    ensures Settled(edges, |edges|, id, visible)
  {
    hide Grown, Adjacent, Endpoints;
    visible, queue, added := seen, waiting, [];
    GrownStart(edges, id, seen);
    for i := 0 to |edges|
      invariant queue == waiting + added
      invariant Grown(edges, id, seen, visible, added)
      invariant Settled(edges, i, id, visible)
    {
      var e := edges[i];
      if e.source == id && e.target !in visible {
        GrowOne(edges, id, seen, visible, added, i, e.target);
        visible, queue, added := visible + {e.target}, queue + [e.target], added + [e.target];
      }
      if e.target == id && e.source !in visible {
        GrowOne(edges, id, seen, visible, added, i, e.source);
        visible, queue, added := visible + {e.source}, queue + [e.source], added + [e.source];
      }
    }
  }

  lemma GrownStart(edges: seq<Edge>, id: string, seen: set<string>)
    ensures Grown(edges, id, seen, seen, [])
  {
  }

  /** The visible nodes are exactly the undirected component of the focus. */
  method Component(edges: seq<Edge>, focus: string) returns (visible: set<string>)
    ensures forall x :: x in visible <==> Connected(edges, focus, x)
  {
    visible := {focus};
    var queue := [focus];
    assert Walk(edges, [focus]) && [focus][0] == focus;
    ghost var finished: set<string> := {};
    ghost var universe := Endpoints(edges) + {focus};
    while queue != []
      invariant focus in visible && visible <= universe
      invariant visible == finished + set x | x in queue
      invariant forall x | x in visible :: Connected(edges, focus, x)
      invariant forall x | x in finished :: Settled(edges, |edges|, x, visible)
      decreases universe - visible, |queue|
    {
      var id, rest := queue[0], queue[1..];
      ghost var before := visible;
      ghost var added;
      visible, queue, added := VisitNeighbours(edges, id, visible, rest);
      finished := finished + {id};
      forall x | x in visible && x !in before ensures Connected(edges, focus, x) {
        ExtendWalk(edges, focus, id, x);
      }
      if added != [] {
        assert added[0] in (universe - before) && added[0] !in (universe - visible);
      }
    }
    forall x | Connected(edges, focus, x) ensures x in visible {
      var p :| Walk(edges, p) && p[0] == focus && p[|p| - 1] == x;
      ClosedHoldsWalk(edges, visible, p);
    }
  }

  // ------------------------------------------------------- potential impact

  /** Every visited node has a dependency path to the focus, and its references spell that path. */
  ghost predicate Traced(edges: seq<Edge>, focus: string, visited: set<string>, potential: map<string, seq<string>>,
                         paths: map<string, seq<Edge>>) {
    && paths.Keys == visited
    && focus in visited && paths[focus] == []
    && (forall x | x in visited :: DependencyPath(edges, paths[x], x, focus))
    && potential.Keys == visited - {focus}
    && (forall x | x in potential :: potential[x] == Refs(paths[x]))
  }

  /** The queue is ordered by distance, from d on, and nothing found so far is further than d + 1. */
  ghost predicate Layered(paths: map<string, seq<Edge>>, queue: seq<string>, d: nat) {
    && (forall x | x in paths :: |paths[x]| <= d + 1)
    && (forall i | 0 <= i < |queue| :: queue[i] in paths && d <= |paths[queue[i]]|)
    && (forall i, j | 0 <= i < j < |queue| :: |paths[queue[i]]| <= |paths[queue[j]]|)
  }

  /** The first n edges into `id` come from nodes at most one step further. */
  ghost predicate Relaxed(edges: seq<Edge>, n: nat, id: string, paths: map<string, seq<Edge>>)
    requires n <= |edges| && id in paths
  {
    forall i | 0 <= i < n && edges[i].target == id ::
      edges[i].source in paths && |paths[edges[i].source]| <= |paths[id]| + 1
  }

  lemma TraceOne(edges: seq<Edge>, focus: string, visited: set<string>, potential: map<string, seq<string>>,
                 paths: map<string, seq<Edge>>, id: string, e: Edge)
    requires Traced(edges, focus, visited, potential, paths) && id in visited
    requires e in edges && e.target == id && e.source !in visited
    ensures Traced(edges, focus, visited + {e.source},
                   potential[e.source := (if id in potential then potential[id] else []) + [e.sourceRef]],
                   paths[e.source := paths[id] + [e]])
  {
    var path := paths[id] + [e];
    assert path[..|path| - 1] == paths[id];
    assert Refs(path) == Refs(paths[id]) + [e.sourceRef];
    if id !in potential { assert id == focus && Refs(paths[id]) == []; }
  }

  lemma LayerOne(paths: map<string, seq<Edge>>, queue: seq<string>, d: nat, x: string, path: seq<Edge>)
    requires Layered(paths, queue, d) && x !in paths && |path| == d + 1
    ensures Layered(paths[x := path], queue + [x], d)
  {
  }

  lemma RelaxOne(edges: seq<Edge>, i: nat, id: string, paths: map<string, seq<Edge>>, x: string, path: seq<Edge>)
    requires i < |edges| && id in paths && x !in paths && |path| <= |paths[id]| + 1
    requires Relaxed(edges, i, id, paths) && edges[i].source == x
    ensures Relaxed(edges, i + 1, id, paths[x := path])
  {
  }

  method VisitDependents(edges: seq<Edge>, focus: string, id: string, seen: set<string>, known: map<string, seq<string>>,
                         waiting: seq<string>, ghost traced: map<string, seq<Edge>>)
    returns (visited: set<string>, potential: map<string, seq<string>>, queue: seq<string>,
             ghost paths: map<string, seq<Edge>>, ghost added: seq<string>)
    requires Traced(edges, focus, seen, known, traced) && id in seen && Layered(traced, waiting, |traced[id]|)
    ensures Traced(edges, focus, visited, potential, paths) && Layered(paths, queue, |traced[id]|)
    ensures queue == waiting + added
    ensures forall x :: x in visited <==> x in seen || x in added
    ensures forall x | x in added :: x !in seen && x in Endpoints(edges)
    ensures forall x | x in traced :: x in paths && paths[x] == traced[x]
    ensures id in paths && Relaxed(edges, |edges|, id, paths)
  {
    visited, potential, queue, paths, added := seen, known, waiting, traced, [];
    hide Traced, Layered, DependencyPath, Refs;
    TracedKeys(edges, focus, seen, known, traced);
    for i := 0 to |edges|
      invariant Traced(edges, focus, visited, potential, paths) && Layered(paths, queue, |traced[id]|)
      invariant paths.Keys == visited
      invariant queue == waiting + added
      invariant forall x :: x in visited <==> x in seen || x in added
      invariant forall x | x in added :: x !in seen && x in Endpoints(edges)
      invariant forall x | x in traced :: x in paths && paths[x] == traced[x]
      invariant id in paths && Relaxed(edges, i, id, paths)
    {
      var e := edges[i];
      if e.target == id && e.source !in visited {
        TraceOne(edges, focus, visited, potential, paths, id, e);
        LayerOne(paths, queue, |traced[id]|, e.source, paths[id] + [e]);
        RelaxOne(edges, i, id, paths, e.source, paths[id] + [e]);
        visited := visited + {e.source};
        potential := potential[e.source := (if id in potential then potential[id] else []) + [e.sourceRef]];
        queue, added := queue + [e.source], added + [e.source];
        paths := paths[e.source := paths[id] + [e]];
      } else {
        StillRelaxed(edges, i, id, paths, queue);
      }
    }
  }

  lemma TracedKeys(edges: seq<Edge>, focus: string, visited: set<string>, potential: map<string, seq<string>>,
                   paths: map<string, seq<Edge>>)
    requires Traced(edges, focus, visited, potential, paths)
    ensures paths.Keys == visited && focus in visited && potential.Keys == visited - {focus}
  {
  }

  lemma StillRelaxed(edges: seq<Edge>, i: nat, id: string, paths: map<string, seq<Edge>>, queue: seq<string>)
    requires i < |edges| && id in paths && Relaxed(edges, i, id, paths) && Layered(paths, queue, |paths[id]|)
    requires edges[i].target == id ==> edges[i].source in paths
    ensures Relaxed(edges, i + 1, id, paths)
  {
  }

  /** With every edge relaxed, no dependency path is shorter than the recorded one. */
  lemma {:induction false} NothingShorter(edges: seq<Edge>, focus: string, paths: map<string, seq<Edge>>, p: seq<Edge>, x: string)
    requires focus in paths && paths[focus] == []
    requires forall y | y in paths :: Relaxed(edges, |edges|, y, paths)
    requires DependencyPath(edges, p, x, focus)
    ensures x in paths && |paths[x]| <= |p|
    decreases |p|
  {
    if p != [] {
      var e := p[|p| - 1];
      NothingShorter(edges, focus, paths, p[..|p| - 1], e.target);
      assert Relaxed(edges, |edges|, e.target, paths);
      var i :| 0 <= i < |edges| && edges[i] == e;
    }
  }

  lemma KeepsAllRelaxed(edges: seq<Edge>, finished: set<string>, was: map<string, seq<Edge>>, paths: map<string, seq<Edge>>)
    requires finished <= was.Keys && forall x | x in finished :: Relaxed(edges, |edges|, x, was)
    requires was.Keys <= paths.Keys && forall x | x in was :: paths[x] == was[x]
    ensures forall x | x in finished :: Relaxed(edges, |edges|, x, paths)
  {
    hide Relaxed;
    forall x | x in finished ensures Relaxed(edges, |edges|, x, paths) { KeepsRelaxed(edges, x, was, paths); }
  }

  /**
   Potential impact is exactly the other nodes with a directed path to the focus, and the references
   of each spell a shortest such path.
   */
  method Dependents(edges: seq<Edge>, focus: string)
    returns (potential: map<string, seq<string>>, ghost paths: map<string, seq<Edge>>)
    ensures forall x :: x in potential <==> x != focus && Depends(edges, x, focus)
    ensures forall x | x in potential :: x in paths && Shortest(edges, paths[x], x, focus) && potential[x] == Refs(paths[x])
  {
    hide Traced, Layered, DependencyPath, Depends, Refs, Endpoints, Relaxed, Shortest;
    var visited, queue := {focus}, [focus];
    potential, paths := map[], map[focus := []];
    OnlyFocus(edges, focus);
    ghost var finished: set<string> := {};
    ghost var universe := Endpoints(edges) + {focus};
    while queue != []
      invariant Traced(edges, focus, visited, potential, paths) && visited <= universe && paths.Keys == visited
      invariant visited == finished + set x | x in queue
      invariant queue != [] ==> queue[0] in paths && Layered(paths, queue, |paths[queue[0]]|)
      invariant finished <= paths.Keys && forall x | x in finished :: Relaxed(edges, |edges|, x, paths)
      decreases universe - visited, |queue|
    {
      var id, rest := queue[0], queue[1..];
      ghost var before, was := visited, paths;
      TracedKeys(edges, focus, visited, potential, paths);
      LayeredRest(paths, queue);
      ghost var added;
      visited, potential, queue, paths, added := VisitDependents(edges, focus, id, visited, potential, rest, paths);
      TracedKeys(edges, focus, visited, potential, paths);
      KeepsAllRelaxed(edges, finished, was, paths);
      finished := finished + {id};
      NextLayer(paths, queue, |paths[id]|);
      if added != [] {
        assert added[0] in (universe - before) && added[0] !in (universe - visited);
      }
    }
    AllRelaxed(edges, focus, visited, potential, paths);
  }

  lemma OnlyFocus(edges: seq<Edge>, focus: string)
    ensures Traced(edges, focus, {focus}, map[], map[focus := []])
    ensures Layered(map[focus := []], [focus], 0)
  {
  }

  lemma AllRelaxed(edges: seq<Edge>, focus: string, visited: set<string>, potential: map<string, seq<string>>,
                   paths: map<string, seq<Edge>>)
    requires Traced(edges, focus, visited, potential, paths)
    requires forall x | x in paths :: Relaxed(edges, |edges|, x, paths)
    ensures forall x :: x in potential <==> x != focus && Depends(edges, x, focus)
    ensures forall x | x in potential :: x in paths && Shortest(edges, paths[x], x, focus) && potential[x] == Refs(paths[x])
  {
    hide Relaxed, Refs;
    forall x, p | DependencyPath(edges, p, x, focus) ensures x in paths && |paths[x]| <= |p| {
      NothingShorter(edges, focus, paths, p, x);
    }
    forall x | x in paths ensures Depends(edges, x, focus) {
      assert DependencyPath(edges, paths[x], x, focus);
    }
  }

  lemma LayeredRest(paths: map<string, seq<Edge>>, queue: seq<string>)
    requires queue != [] && queue[0] in paths && Layered(paths, queue, |paths[queue[0]]|)
    ensures Layered(paths, queue[1..], |paths[queue[0]]|)
  {
  }

  lemma NextLayer(paths: map<string, seq<Edge>>, queue: seq<string>, d: nat)
    requires Layered(paths, queue, d)
    ensures queue != [] ==> queue[0] in paths && Layered(paths, queue, |paths[queue[0]]|)
  {
  }

  lemma KeepsRelaxed(edges: seq<Edge>, x: string, was: map<string, seq<Edge>>, paths: map<string, seq<Edge>>)
    requires x in was && Relaxed(edges, |edges|, x, was)
    requires forall y | y in was :: y in paths && paths[y] == was[y]
    ensures x in paths && Relaxed(edges, |edges|, x, paths)
  {
  }

  // ----------------------------------------------------- the direction of dependency

  lemma OneFurther(edges: seq<Edge>, p: seq<Edge>, e: Edge, focus: string)
    requires DependencyPath(edges, p, e.target, focus) && e in edges
    ensures DependencyPath(edges, p + [e], e.source, focus)
  {
    var q := p + [e];
    assert q[|q| - 1] == e && q[..|q| - 1] == p;
  }

  /** A service depends on itself and on whatever the targets of its own edges depend on, and on nothing else. */
  lemma DependsIs(edges: seq<Edge>, x: string, focus: string)
    ensures Depends(edges, x, focus) <==>
            x == focus || exists e | e in edges :: e.source == x && Depends(edges, e.target, focus)
  {
    if Depends(edges, x, focus) && x != focus {
      var p: seq<Edge> :| DependencyPath(edges, p, x, focus);
      var e := p[|p| - 1];
      assert DependencyPath(edges, p[..|p| - 1], e.target, focus);
      assert e in edges && e.source == x && Depends(edges, e.target, focus);
    }
    if x == focus { assert DependencyPath(edges, [], x, focus); }
    if e :| e in edges && e.source == x && Depends(edges, e.target, focus) {
      var p :| DependencyPath(edges, p, e.target, focus);
      OneFurther(edges, p, e, focus);
    }
  }

  lemma {:induction false} OneEdgePath(e: Edge, p: seq<Edge>, x: string, focus: string)
    requires DependencyPath([e], p, x, focus)
    ensures x == focus || x == e.source
  {
  }

  /** Along one edge the source depends on the target, and the target does not depend on the source. */
  lemma OneWay(e: Edge)
    requires e.source != e.target
    ensures Depends([e], e.source, e.target) && !Depends([e], e.target, e.source)
  {
    DependsIs([e], e.target, e.target);
    DependsIs([e], e.source, e.target);
    assert e in [e];
    if Depends([e], e.target, e.source) {
      var p :| DependencyPath([e], p, e.target, e.source);
      OneEdgePath(e, p, e.target, e.source);
    }
  }
}
