/** Layered graph search with a result limit, against bounded reachability. The edge
    list is fixed during one search. */
module VaultGraph {
  import opened Basics

  datatype Node = Node(name: Id)

  datatype Edge = Edge(id: Id, source: Node, target: Node)

  datatype Graph = Graph(nodes: set<Node>, edges: seq<Edge>)

  datatype Answer = Found(graph: Graph) | Quota

  /** Nodes reachable from the start in at most `d` edges. */
  function Reach(edges: seq<Edge>, start: Node, d: nat): set<Node> {
    if d == 0 then {start} else Reach(edges, start, d - 1) + Targets(edges, Reach(edges, start, d - 1))
  }

  function Targets(edges: seq<Edge>, sources: set<Node>): set<Node> {
    set e | e in edges && e.source in sources :: e.target
  }

  /** The node is first reached with exactly `d` edges. */
  predicate AtLevel(edges: seq<Edge>, start: Node, node: Node, d: nat) {
    node in Reach(edges, start, d) && (d > 0 ==> node !in Reach(edges, start, d - 1))
  }

  function Level(edges: seq<Edge>, start: Node, d: nat): set<Node> {
    if d == 0 then {start} else Reach(edges, start, d) - Reach(edges, start, d - 1)
  }

  /** A walk along edges of the graph. */
  ghost predicate Path(edges: seq<Edge>, from: Node, path: seq<Edge>, to: Node) {
    if path == [] then from == to
    else
      var n := |path| - 1;
      path[n] in edges && path[n].target == to && Path(edges, from, path[..n], path[n].source)
  }

  /** Bounded reachability is what it says: a path of at most `d` edges exists. */
  lemma {:induction false} ReachHasPath(edges: seq<Edge>, start: Node, d: nat, node: Node)
    requires node in Reach(edges, start, d)
    ensures exists path :: |path| <= d && Path(edges, start, path, node)
  {
    if d == 0 {
      assert Path(edges, start, [], node);
    } else if node in Reach(edges, start, d - 1) {
      ReachHasPath(edges, start, d - 1, node);
    } else {
      var e :| e in edges && e.source in Reach(edges, start, d - 1) && e.target == node;
      ReachHasPath(edges, start, d - 1, e.source);
      var path :| |path| <= d - 1 && Path(edges, start, path, e.source);
      assert (path + [e])[..|path|] == path;
      assert Path(edges, start, path + [e], node);
    }
  }

  lemma {:induction false} PathIsReach(edges: seq<Edge>, start: Node, d: nat, path: seq<Edge>, node: Node)
    requires |path| <= d && Path(edges, start, path, node)
    ensures node in Reach(edges, start, d)
    decreases d, |path|
  {
    if path != [] {
      PathIsReach(edges, start, d - 1, path[..|path| - 1], path[|path| - 1].source);
    } else if d > 0 {
      PathIsReach(edges, start, d - 1, path, node);
    }
  }

  lemma {:induction false} ReachGrows(edges: seq<Edge>, start: Node, c: nat, d: nat)
    requires c <= d
    ensures Reach(edges, start, c) <= Reach(edges, start, d)
  {
    if c < d {
      ReachGrows(edges, start, c, d - 1);
    }
  }

  /** Layer by layer: only the frontier's own edges can reach a new node. */
  lemma OnlyTheFrontierMatters(edges: seq<Edge>, start: Node, d: nat)
    ensures Reach(edges, start, d + 1) == Reach(edges, start, d) + Targets(edges, Level(edges, start, d))
  {
    if d > 0 {
      ReachGrows(edges, start, d - 1, d);
      var r := Reach(edges, start, d);
      forall n | n in Targets(edges, r) ensures n in r + Targets(edges, Level(edges, start, d)) {
        var e :| e in edges && e.source in r && e.target == n;
        if e.source in Reach(edges, start, d - 1) {
          assert n in Targets(edges, Reach(edges, start, d - 1));
        }
      }
    }
  }

  /** Once a layer is empty nothing further is reachable. */
  lemma {:induction false} EmptyLevelStops(edges: seq<Edge>, start: Node, c: nat, d: nat)
    requires c <= d && Level(edges, start, c) == {}
    ensures Reach(edges, start, d) == Reach(edges, start, c)
  {
    if c < d {
      EmptyLevelStops(edges, start, c, d - 1);
      OnlyTheFrontierMatters(edges, start, c);
      NoTargets(edges);
      assert Reach(edges, start, d) == Reach(edges, start, c + 1);
    }
  }

  lemma NoTargets(edges: seq<Edge>)
    ensures Targets(edges, {}) == {}
  {
  }

  /** The edge enters a node from a node one layer nearer to the start. */
  ghost predicate Shortest(edges: seq<Edge>, start: Node, e: Edge, depth: nat) {
    && e in edges
    && exists d: nat :: d < depth && AtLevel(edges, start, e.source, d) && AtLevel(edges, start, e.target, d + 1)
  }

  ghost predicate Entered(out: seq<Edge>, node: Node) {
    exists i :: 0 <= i < |out| && out[i].target == node
  }

  /** The edges form a shortest-path tree on the nodes: each node but the start is
      entered by exactly one edge. */
  ghost predicate Tree(edges: seq<Edge>, start: Node, nodes: set<Node>, out: seq<Edge>, depth: nat) {
    && start in nodes && |nodes| == |out| + 1
    && (forall i :: 0 <= i < |out| ==> Shortest(edges, start, out[i], depth) && out[i].source in nodes && out[i].target in nodes)
    && (forall i, j :: 0 <= i < j < |out| ==> out[i].target != out[j].target)
    && (forall n :: n in nodes <==> n == start || Entered(out, n))
  }

  /** The search between layers: all nodes within `d`, the last ones in front. */
  ghost predicate Layered(edges: seq<Edge>, start: Node, seen: set<Node>, frontier: seq<Node>, out: seq<Edge>, d: nat) {
    && seen == Reach(edges, start, d)
    && (forall n :: n in frontier <==> n in Level(edges, start, d))
    && Tree(edges, start, seen, out, d)
  }

  /** The search within a layer after some edges: the nodes so far, the new ones. */
  ghost predicate Within(edges: seq<Edge>, start: Node, seen: set<Node>, next: seq<Node>, out: seq<Edge>, d: nat, i: nat)
    requires i <= |edges|
  {
    && seen == Reach(edges, start, d) + Targets(edges[..i], Level(edges, start, d))
    && (forall n :: n in next <==> n in seen && n !in Reach(edges, start, d))
    && Tree(edges, start, seen, out, d + 1)
  }

  lemma TreeDeepens(edges: seq<Edge>, start: Node, nodes: set<Node>, out: seq<Edge>, c: nat, d: nat)
    requires Tree(edges, start, nodes, out, c) && c <= d
    ensures Tree(edges, start, nodes, out, d)
  {
    forall i | 0 <= i < |out| ensures Shortest(edges, start, out[i], d) {
      assert Shortest(edges, start, out[i], c);
    }
  }

  lemma TreeGrows(edges: seq<Edge>, start: Node, nodes: set<Node>, out: seq<Edge>, e: Edge, d: nat)
    requires Tree(edges, start, nodes, out, d) && Shortest(edges, start, e, d) && e.source in nodes && e.target !in nodes
    ensures Tree(edges, start, nodes + {e.target}, out + [e], d)
  {
    var after := out + [e];
    assert after[|out|] == e;
    forall n ensures Entered(after, n) <==> Entered(out, n) || n == e.target {
      if Entered(out, n) {
        var i :| 0 <= i < |out| && out[i].target == n;
        assert after[i] == out[i];
      }
    }
    forall i | 0 <= i < |out| ensures out[i].target != e.target { }
  }

  lemma TargetsStep(edges: seq<Edge>, sources: set<Node>, i: nat)
    requires i < |edges|
    ensures Targets(edges[..i + 1], sources)
            == Targets(edges[..i], sources) + if edges[i].source in sources then {edges[i].target} else {}
  {
    assert edges[..i + 1] == edges[..i] + [edges[i]];
  }

  lemma EdgeTaken(edges: seq<Edge>, start: Node, seen: set<Node>, next: seq<Node>, out: seq<Edge>, d: nat, i: nat)
    requires i < |edges| && Within(edges, start, seen, next, out, d, i)
    requires edges[i].source in Level(edges, start, d) && edges[i].target !in seen
    ensures Within(edges, start, seen + {edges[i].target}, next + [edges[i].target], out + [edges[i]], d, i + 1)
  {
    var level := Level(edges, start, d);
    TargetsStep(edges, level, i);
    LayerEdge(edges, start, seen, d, i);
    TreeGrows(edges, start, seen, out, edges[i], d + 1);
  }

  lemma EdgePassed(edges: seq<Edge>, start: Node, seen: set<Node>, next: seq<Node>, out: seq<Edge>, d: nat, i: nat)
    requires i < |edges| && Within(edges, start, seen, next, out, d, i)
    requires edges[i].source !in Level(edges, start, d) || edges[i].target in seen
    ensures Within(edges, start, seen, next, out, d, i + 1)
  {
    TargetsStep(edges, Level(edges, start, d), i);
  }

  lemma LayerStarts(edges: seq<Edge>, start: Node, seen: set<Node>, frontier: seq<Node>, out: seq<Edge>, d: nat)
    requires Layered(edges, start, seen, frontier, out, d)
    ensures Within(edges, start, seen, [], out, d, 0)
    ensures (set n | n in frontier) == Level(edges, start, d)
  {
    TreeDeepens(edges, start, seen, out, d, d + 1);
    assert Targets(edges[..0], Level(edges, start, d)) == {};
  }

  lemma LayerEnds(edges: seq<Edge>, start: Node, seen: set<Node>, next: seq<Node>, out: seq<Edge>, d: nat)
    requires Within(edges, start, seen, next, out, d, |edges|)
    ensures Layered(edges, start, seen, next, out, d + 1)
  {
    assert edges[..|edges|] == edges;
    OnlyTheFrontierMatters(edges, start, d);
  }

  /** One layer's scan over the edges. */
  method Layer(edges: seq<Edge>, start: Node, seen0: set<Node>, frontier: seq<Node>, out0: seq<Edge>, limit: nat, ghost d: nat)
    returns (seen: set<Node>, next: seq<Node>, out: seq<Edge>)
    requires Layered(edges, start, seen0, frontier, out0, d) && |out0| < limit
    ensures Tree(edges, start, seen, out, d + 1) && seen <= Reach(edges, start, d + 1) && |out| <= limit
    ensures |out| < limit ==> Layered(edges, start, seen, next, out, d + 1)
  {
    seen, next, out := seen0, [], out0;
    var frontierSet := set n | n in frontier;
    LayerStarts(edges, start, seen, frontier, out, d);
    var i := 0;
    while i < |edges|
      invariant 0 <= i <= |edges| && |out| < limit
      invariant Within(edges, start, seen, next, out, d, i)
    {
      var e := edges[i];
      if e.source !in frontierSet || e.target in seen {
        EdgePassed(edges, start, seen, next, out, d, i);
      } else {
        EdgeTaken(edges, start, seen, next, out, d, i);
        seen := seen + {e.target};
        out := out + [e];
        next := next + [e.target];
        if |out| >= limit {
          PartIsReached(edges, start, seen, next, out, d, i + 1);
          return;
        }
      }
      i := i + 1;
    }
    LayerEnds(edges, start, seen, next, out, d);
  }

  lemma LayerEdge(edges: seq<Edge>, start: Node, seen: set<Node>, d: nat, i: nat)
    requires i < |edges| && Reach(edges, start, d) <= seen
    requires edges[i].source in Level(edges, start, d) && edges[i].target !in seen
    ensures Shortest(edges, start, edges[i], d + 1)
  {
    var e := edges[i];
    assert e.source in Reach(edges, start, d) && e.target in Targets(edges, Reach(edges, start, d));
    assert AtLevel(edges, start, e.source, d) && AtLevel(edges, start, e.target, d + 1);
  }

  lemma PartIsReached(edges: seq<Edge>, start: Node, seen: set<Node>, next: seq<Node>, out: seq<Edge>, d: nat, i: nat)
    requires i <= |edges| && Within(edges, start, seen, next, out, d, i)
    ensures Tree(edges, start, seen, out, d + 1) && seen <= Reach(edges, start, d + 1)
  {
    OnlyTheFrontierMatters(edges, start, d);
    assert Targets(edges[..i], Level(edges, start, d)) <= Targets(edges, Level(edges, start, d));
  }

  /** A result. Below the limit its nodes are exactly those within `depth` edges;
      truncated, they are still within depth; always its edges are a shortest-path
      tree on its nodes, so there is one node more than edges. */
  ghost predicate Searched(edges: seq<Edge>, start: Node, g: Graph, depth: nat, limit: nat) {
    && Tree(edges, start, g.nodes, g.edges, depth)
    && |g.edges| <= limit && |g.nodes| <= limit + 1
    && g.nodes <= Reach(edges, start, depth)
    && (|g.edges| < limit ==> g.nodes == Reach(edges, start, depth))
  }

  /** The search. */
  method GraphBfs(edges: seq<Edge>, start: Node, depth: int, maxDepth: nat, asked: int, maxResults: nat) returns (r: Answer)
    requires maxResults > 0
    ensures r.Quota? <==> depth < 0 || depth > maxDepth
    ensures r.Found? ==> Searched(edges, start, r.graph, depth, if asked <= 0 || asked > maxResults then maxResults else asked)
  {
    if depth < 0 || depth > maxDepth {
      return Quota;
    }
    var limit: nat := if asked <= 0 || asked > maxResults then maxResults else asked;
    var seen, frontier, out := {start}, [start], [];
    SearchStarts(edges, start);
    var d := 0;
    while d < depth && |frontier| > 0
      invariant 0 <= d <= depth && |out| < limit
      invariant Layered(edges, start, seen, frontier, out, d)
    {
      seen, frontier, out := Layer(edges, start, seen, frontier, out, limit, d);
      d := d + 1;
      if |out| >= limit {
        Truncated(edges, start, seen, out, d, depth, limit);
        return Found(Graph(seen, out));
      }
    }
    SettledEarly(edges, start, seen, frontier, out, d, depth, limit);
    r := Found(Graph(seen, out));
  }

  lemma Truncated(edges: seq<Edge>, start: Node, seen: set<Node>, out: seq<Edge>, d: nat, depth: nat, limit: nat)
    requires Tree(edges, start, seen, out, d) && seen <= Reach(edges, start, d) && |out| == limit && d <= depth
    ensures Searched(edges, start, Graph(seen, out), depth, limit)
  {
    ReachGrows(edges, start, d, depth);
    TreeDeepens(edges, start, seen, out, d, depth);
  }

  lemma SearchStarts(edges: seq<Edge>, start: Node)
    ensures Layered(edges, start, {start}, [start], [], 0)
  {
    assert forall n :: !Entered([], n);
  }

  lemma SettledEarly(edges: seq<Edge>, start: Node, seen: set<Node>, frontier: seq<Node>, out: seq<Edge>, d: nat, depth: nat, limit: nat)
    requires |out| <= limit && Layered(edges, start, seen, frontier, out, d) && d <= depth && (d < depth ==> frontier == [])
    ensures Searched(edges, start, Graph(seen, out), depth, limit)
  {
    TreeDeepens(edges, start, seen, out, d, depth);
    if d < depth {
      assert Level(edges, start, d) == {} by { assert forall n :: n in Level(edges, start, d) ==> n in frontier; }
      EmptyLevelStops(edges, start, d, depth);
    }
  }
}
