/** A program's diagram with positions (src/activity.rs): both passes and the layout. */
module ActivityLayout {
  import opened Syntax
  import opened FlatGraphs
  import opened FlatPaths
  import opened ActivityDiagram
  import opened LayoutColumns
  import opened LayoutReading

  const DEFAULT_WIDTH: real := 140.0

  /** The first initial node. */
  method FindInitial(graph: FlatGraph) returns (start: Option<nat>)
    ensures start == None <==> forall n :: n in graph.nodes ==> n.kind != FInitial
    ensures start.Some? ==> exists i ::
              && 0 <= i < |graph.nodes| && graph.nodes[i].kind == FInitial && graph.nodes[i].id == start.value
              && forall k :: 0 <= k < i ==> graph.nodes[k].kind != FInitial
  {
    var i := 0;
    while i < |graph.nodes|
      invariant 0 <= i <= |graph.nodes| && forall k :: 0 <= k < i ==> graph.nodes[k].kind != FInitial
    {
      if graph.nodes[i].kind == FInitial { return Some(graph.nodes[i].id); }
      i := i + 1;
    }
    start := None;
  }

  /** `flatten_and_layout` of any program: every node of its diagram gets a place of the
      layered layout, stray jumps or not. When all jumps are inside loops, the diagram is
      legal and has exactly the program's control flow. */
  method FlattenAndLayout(stmts: Block)
    returns (out: FlatGraph, positions: map<nat, (real, real)>,
             ghost forward: seq<FlatEdge>, ghost fin: map<nat, nat>, ghost row: map<nat, nat>, ghost x: map<nat, real>)
    ensures JumpsBound(stmts, false) ==> exists final :: Depicts(out, final, stmts)
    ensures out.nodes != [] && LaidOut(out, out.nodes[0].id, Widths(out.nodes), forward, fin, row, x)
    ensures forall n :: n in out.nodes ==> n.id in positions
    ensures forall id :: id in positions ==> id in row && id in x && positions[id] == (x[id], row[id] as real * 70.0)
    ensures forall e :: e in out.edges ==> Falls(positions, e, e in forward)
    ensures forall a, b :: a in positions && b in positions && a != b ==> Clear(positions[a], positions[b])
  {
    hide LaidOut, Depicts, Layable, Widths;
    out := Diagram(stmts);
    var start := FindInitial(out);
    assert start == Some(out.nodes[0].id);
    positions, forward, fin, row, x := Layout(out, start.value, Widths(out.nodes));
    EdgesFall(out, start.value, Widths(out.nodes), forward, fin, row, x, positions);
    BoxesClear(out, start.value, forward, fin, row, x, positions);
  }

  /** A kept edge goes at least one row of 70 down the page, a dropped one does not go down. */
  predicate Falls(positions: map<nat, (real, real)>, e: FlatEdge, kept: bool) {
    && e.from in positions && e.to in positions
    && (if kept then positions[e.from].1 + 70.0 <= positions[e.to].1 else positions[e.to].1 <= positions[e.from].1)
  }

  /** Two boxes 140 wide leave 40 between them, or are in different rows. */
  predicate Clear(p: (real, real), q: (real, real)) {
    p.0 + 180.0 <= q.0 || q.0 + 180.0 <= p.0 || p.1 + 70.0 <= q.1 || q.1 + 70.0 <= p.1
  }

  lemma EdgesFall(graph: FlatGraph, start: nat, widths: map<nat, real>, forward: seq<FlatEdge>, fin: map<nat, nat>,
                  row: map<nat, nat>, x: map<nat, real>, positions: map<nat, (real, real)>)
    requires Layable(graph, start) && LaidOut(graph, start, widths, forward, fin, row, x)
    requires forall n :: n in graph.nodes ==> n.id in positions
    requires forall id :: id in positions ==> id in row && id in x && positions[id] == (x[id], row[id] as real * 70.0)
    ensures forall e :: e in graph.edges ==> Falls(positions, e, e in forward)
  {
    hide LaidOut;
    forall e | e in graph.edges ensures Falls(positions, e, e in forward) {
      EdgeDirections(graph, start, widths, forward, fin, row, x, e);
      var a :| a in graph.nodes && a.id == e.from;
      var b :| b in graph.nodes && b.id == e.to;
      Lower(row[e.from], row[e.to]);
    }
  }

  lemma Lower(i: nat, k: nat)
    ensures i < k ==> i as real * 70.0 + 70.0 <= k as real * 70.0
    ensures k <= i ==> k as real * 70.0 <= i as real * 70.0
  {
  }

  lemma BoxesClear(graph: FlatGraph, start: nat, forward: seq<FlatEdge>, fin: map<nat, nat>,
                   row: map<nat, nat>, x: map<nat, real>, positions: map<nat, (real, real)>)
    requires Layable(graph, start) && LaidOut(graph, start, Widths(graph.nodes), forward, fin, row, x)
    requires forall id :: id in positions ==> id in row && id in x && positions[id] == (x[id], row[id] as real * 70.0)
    ensures forall a, b :: a in positions && b in positions && a != b ==> Clear(positions[a], positions[b])
  {
    hide LaidOut, Layable;
    forall a, b | a in positions && b in positions && a != b ensures Clear(positions[a], positions[b]) {
      var w := Widths(graph.nodes);
      NeverOverlap(graph, start, w, forward, fin, row, x, a, b);
      OnlyWidth(graph.nodes, a);
      OnlyWidth(graph.nodes, b);
      if row[a] != row[b] {
        Lower(row[a], row[b]);
        Lower(row[b], row[a]);
      }
    }
  }

  lemma {:induction false} OnlyWidth(nodes: seq<FlatNode>, id: nat)
    ensures id in Widths(nodes) ==> Widths(nodes)[id] == 140.0
    decreases |nodes|
  {
    if nodes != [] { OnlyWidth(nodes[..|nodes| - 1], id); }
  }

  function Widths(nodes: seq<FlatNode>): (w: map<nat, real>)
    ensures forall n :: n in nodes ==> n.id in w && w[n.id] == 140.0
  {
    if nodes == [] then map[]
    else
      var init, last := nodes[..|nodes| - 1], nodes[|nodes| - 1];
      assert nodes == init + [last];
      Widths(init)[last.id := DEFAULT_WIDTH]
  }
}
