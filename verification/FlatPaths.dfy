/** Paths through flat graphs, and the pruning of what the start cannot reach. */
module FlatPaths {
  import opened FlatGraphs

  ghost predicate IsPath(edges: seq<FlatEdge>, a: nat, b: nat, path: seq<FlatEdge>)
    decreases |path|
  {
    if path == [] then a == b
    else path[0] in edges && path[0].from == a && IsPath(edges, path[0].to, b, path[1..])
  }

  ghost predicate Reaches(edges: seq<FlatEdge>, a: nat, b: nat) {
    exists path :: IsPath(edges, a, b, path)
  }

  ghost predicate DistinctNodes(nodes: seq<FlatNode>) {
    forall i, k :: 0 <= i < k < |nodes| ==> nodes[i].id != nodes[k].id
  }

  ghost predicate HasId(nodes: seq<FlatNode>, id: nat) {
    exists n :: n in nodes && n.id == id
  }

  /** The graphs a layout is asked for: distinct ids, no dangling edge, everything
      reachable from the start. */
  ghost predicate Layable(graph: FlatGraph, start: nat) {
    && DistinctNodes(graph.nodes) && HasId(graph.nodes, start)
    && (forall e :: e in graph.edges ==> HasId(graph.nodes, e.from) && HasId(graph.nodes, e.to))
    && (forall n :: n in graph.nodes ==> Reaches(graph.edges, start, n.id))
  }

  lemma {:induction false} PathJoin(edges: seq<FlatEdge>, a: nat, b: nat, c: nat, p: seq<FlatEdge>, q: seq<FlatEdge>)
    requires IsPath(edges, a, b, p) && IsPath(edges, b, c, q)
    ensures IsPath(edges, a, c, p + q)
    decreases |p|
  {
    if p == [] {
      assert p + q == q;
    } else {
      PathJoin(edges, p[0].to, b, c, p[1..], q);
      assert (p + q)[1..] == p[1..] + q;
    }
  }

  lemma ReachesStep(edges: seq<FlatEdge>, a: nat, e: FlatEdge)
    requires Reaches(edges, a, e.from) && e in edges
    ensures Reaches(edges, a, e.to)
  {
    var path :| IsPath(edges, a, e.from, path);
    assert IsPath(edges, e.to, e.to, []);
    assert IsPath(edges, e.from, e.to, [e]) by { assert [e][1..] == []; }
    PathJoin(edges, a, e.from, e.to, path, [e]);
  }

  /** Whatever a path visits lies in every edge-closed set that contains its start. */
  lemma {:induction false} PathStays(edges: seq<FlatEdge>, a: nat, b: nat, path: seq<FlatEdge>, s: set<nat>)
    requires IsPath(edges, a, b, path) && a in s
    requires forall e :: e in edges && e.from in s ==> e.to in s
    ensures b in s
    decreases |path|
  {
    if path != [] { PathStays(edges, path[0].to, b, path[1..], s); }
  }

  lemma ReachesSelf(edges: seq<FlatEdge>, a: nat)
    ensures Reaches(edges, a, a)
  {
    assert IsPath(edges, a, a, []);
  }

  lemma ReachesStays(edges: seq<FlatEdge>, a: nat, b: nat, s: set<nat>)
    requires Reaches(edges, a, b) && a in s
    requires forall e :: e in edges && e.from in s ==> e.to in s
    ensures b in s
  {
    var path :| IsPath(edges, a, b, path);
    PathStays(edges, a, b, path, s);
  }

  function KeepNodes(nodes: seq<FlatNode>, keep: set<nat>): seq<FlatNode> {
    if nodes == [] then []
    else
      var last := nodes[|nodes| - 1];
      KeepNodes(nodes[..|nodes| - 1], keep) + (if last.id in keep then [last] else [])
  }

  function KeepEdges(edges: seq<FlatEdge>, keep: set<nat>): seq<FlatEdge> {
    if edges == [] then []
    else
      var last := edges[|edges| - 1];
      KeepEdges(edges[..|edges| - 1], keep) + (if last.from in keep then [last] else [])
  }

  /** `g` without the nodes `start` cannot reach, and without the edges that leave them. */
  ghost predicate IsPruned(g: FlatGraph, start: nat, pruned: FlatGraph, keep: set<nat>) {
    && (forall id: nat :: id in keep <==> Reaches(g.edges, start, id))
    && pruned == FlatGraph(KeepNodes(g.nodes, keep), KeepEdges(g.edges, keep))
  }

  /** The worklist search of `flatten`, followed by its two `retain` calls. */
  method Prune(g: FlatGraph, start: nat) returns (pruned: FlatGraph, ghost keep: set<nat>)
    ensures IsPruned(g, start, pruned, keep)
  {
    hide Reaches, IsPath, KeepNodes, KeepEdges;
    ghost var all := {start} + set e | e in g.edges :: e.to;
    var reachable := {start};
    var pending := [start];
    ReachesSelf(g.edges, start);
    while pending != []
      invariant start in reachable && reachable <= all
      invariant forall id :: id in reachable ==> Reaches(g.edges, start, id)
      invariant forall e :: e in g.edges && e.from in reachable && e.from !in pending ==> e.to in reachable
      invariant forall id :: id in pending ==> id in reachable
      decreases all - reachable, |pending|
    {
      var id := pending[|pending| - 1];
      ghost var before := pending;
      pending := pending[..|pending| - 1];
      ghost var reached0 := reachable;
      assert forall x :: x in before ==> x in pending || x == id;
      var i := 0;
      while i < |g.edges|
        invariant 0 <= i <= |g.edges|
        invariant reached0 <= reachable <= all
        invariant reachable == reached0 ==> |pending| == |before| - 1
        invariant forall x :: x in reachable ==> Reaches(g.edges, start, x)
        invariant forall x :: x in pending ==> x in reachable
        invariant forall x :: x in before && x != id ==> x in pending
        invariant forall e :: e in g.edges && e.from in reachable && e.from !in pending && e.from != id ==> e.to in reachable
        invariant forall k :: 0 <= k < i && g.edges[k].from == id ==> g.edges[k].to in reachable
      {
        var e := g.edges[i];
        if e.from == id && e.to !in reachable {
          ReachesStep(g.edges, start, e);
          ghost var p0 := pending;
          reachable := reachable + {e.to};
          pending := pending + [e.to];
          assert pending[|pending| - 1] == e.to;
          assert forall x :: x in p0 ==> x in pending;
        }
        i := i + 1;
      }
    }
    forall id: nat | Reaches(g.edges, start, id) ensures id in reachable { ReachesStays(g.edges, start, id, reachable); }
    keep := reachable;
    pruned := FlatGraph(KeepNodes(g.nodes, reachable), KeepEdges(g.edges, reachable));
  }

  // ------------------------------------------------------ what pruning preserves

  lemma {:induction false} KeepEdgesIn(edges: seq<FlatEdge>, keep: set<nat>)
    ensures forall e :: e in KeepEdges(edges, keep) <==> e in edges && e.from in keep
    decreases |edges|
  {
    if edges != [] {
      KeepEdgesIn(edges[..|edges| - 1], keep);
      assert edges == edges[..|edges| - 1] + [edges[|edges| - 1]];
    }
  }

  lemma {:induction false} KeepNodesIn(nodes: seq<FlatNode>, keep: set<nat>)
    ensures forall n :: n in KeepNodes(nodes, keep) <==> n in nodes && n.id in keep
    decreases |nodes|
  {
    if nodes != [] {
      KeepNodesIn(nodes[..|nodes| - 1], keep);
      assert nodes == nodes[..|nodes| - 1] + [nodes[|nodes| - 1]];
    }
  }

  /** Ids grow along the node list. */
  ghost predicate Ascending(nodes: seq<FlatNode>) {
    forall i, k :: 0 <= i < k < |nodes| ==> nodes[i].id < nodes[k].id
  }

  lemma {:induction false} KeepNodesAscending(nodes: seq<FlatNode>, keep: set<nat>)
    requires Ascending(nodes)
    ensures Ascending(KeepNodes(nodes, keep))
    decreases |nodes|
  {
    if nodes != [] {
      var init := nodes[..|nodes| - 1];
      KeepNodesAscending(init, keep);
      KeepNodesIn(init, keep);
      var kept := KeepNodes(init, keep);
      forall i | 0 <= i < |kept| ensures kept[i].id < nodes[|nodes| - 1].id {
        assert kept[i] in kept;
        var m :| 0 <= m < |init| && init[m] == kept[i];
      }
    }
  }

  lemma {:induction false} KeepEdgesOut(edges: seq<FlatEdge>, keep: set<nat>, id: nat)
    requires id in keep
    ensures OutFlat(KeepEdges(edges, keep), id) == OutFlat(edges, id)
    decreases |edges|
  {
    if edges != [] {
      var last := edges[|edges| - 1];
      var init := edges[..|edges| - 1];
      KeepEdgesOut(init, keep, id);
      if last.from in keep {
        OutFlatPush(KeepEdges(init, keep), last, id);
      } else {
        assert KeepEdges(edges, keep) == KeepEdges(init, keep);
      }
    }
  }

  /** The same paths start at `start` before and after pruning. */
  lemma {:induction false} PrunedPaths(g: FlatGraph, start: nat, pruned: FlatGraph, keep: set<nat>,
                                       a: nat, b: nat, path: seq<FlatEdge>)
    requires IsPruned(g, start, pruned, keep) && a in keep
    ensures IsPath(pruned.edges, a, b, path) <==> IsPath(g.edges, a, b, path)
    decreases |path|
  {
    KeepEdgesIn(g.edges, keep);
    if path != [] && path[0] in g.edges && path[0].from == a {
      ReachesStep(g.edges, start, path[0]);
      PrunedPaths(g, start, pruned, keep, path[0].to, b, path[1..]);
    }
  }
}
