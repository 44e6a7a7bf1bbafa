/** The whole layered layout (src/activity.rs): rows from longest paths, columns row by
    row after the parents, boxes of one row pushed apart.  Coordinates are reals. */
module LayoutColumns {
  import opened Syntax
  import opened FlatGraphs
  import opened FlatPaths
  import opened ForwardEdges
  import opened LayoutRows
  import opened StableSorts

  const ROW_H: real := 70.0
  const COL_W: real := 180.0
  const GAP: real := 40.0

  function BranchOffset(e: FlatEdge): real {
    match e.guard
    case Some(Cond(_)) => -COL_W / 2.0
    case Some(Otherwise) => COL_W / 2.0
    case None => 0.0
  }

  // ---------------------------------------------------------------- one row

  /** A box's wanted position and its node. */
  datatype Want = Want(at: real, id: nat)

  ghost predicate DistinctIds(ws: seq<Want>) {
    forall i, k :: 0 <= i < k < |ws| ==> ws[i].id != ws[k].id
  }

  /** `a` is listed before `b` among the nodes. */
  ghost predicate Earlier(nodes: seq<FlatNode>, a: nat, b: nat) {
    exists i, k :: 0 <= i < k < |nodes| && nodes[i].id == a && nodes[k].id == b
  }

  /** Who goes to the left: who wants to, and of those who want the same the earlier node. */
  ghost predicate LeftOf(nodes: seq<FlatNode>, u: Want, v: Want) {
    u.at < v.at || (u.at == v.at && Earlier(nodes, u.id, v.id))
  }

  ghost predicate SortedWants(nodes: seq<FlatNode>, ws: seq<Want>) {
    forall i, k :: 0 <= i < k < |ws| ==> LeftOf(nodes, ws[i], ws[k])
  }

  ghost predicate InNodeOrder(nodes: seq<FlatNode>, ws: seq<Want>) {
    forall i, k :: 0 <= i < k < |ws| ==> Earlier(nodes, ws[i].id, ws[k].id)
  }

  function Lefter(): (Want, Want) -> bool { (a: Want, b: Want) => a.at < b.at }

  /** The stable sort of a row by wanted position. */
  function SortWants(ws: seq<Want>): seq<Want> { Sort(ws, Lefter()) }

  lemma SortOk(nodes: seq<FlatNode>, ws: seq<Want>)
    requires DistinctIds(ws) && InNodeOrder(nodes, ws)
    ensures var r := SortWants(ws);
      DistinctIds(r) && SortedWants(nodes, r) && (forall v :: v in r <==> v in ws)
  {
    assert StrictWeak(Lefter());
    hide StrictWeak, Sort;
    SortIsStable(ws, Lefter());
    var p, r := Positions(ws, |ws|, Lefter()), SortWants(ws);
    PickedWants(nodes, ws, p);
  }

  lemma PickedWants(nodes: seq<FlatNode>, ws: seq<Want>, p: seq<nat>)
    requires DistinctIds(ws) && InNodeOrder(nodes, ws) && StableOrder(ws, Lefter(), p)
    ensures var r := Pick(ws, p);
      DistinctIds(r) && SortedWants(nodes, r) && (forall v :: v in r <==> v in ws)
  {
    assert Ordered(ws, Lefter(), p) && forall i :: i in p <==> 0 <= i < |ws|;
    hide StableOrder, Earlier;
    var r := Pick(ws, p);
    forall i, k | 0 <= i < k < |r| ensures r[i].id != r[k].id && LeftOf(nodes, r[i], r[k]) {
      assert Before(ws, Lefter(), p[i], p[k]);
    }
    forall v | v in r ensures v in ws { var k :| 0 <= k < |r| && r[k] == v; }
    forall i | 0 <= i < |ws| ensures ws[i] in r {
      assert i in p;
      var k :| 0 <= k < |p| && p[k] == i;
      assert r[k] == ws[i];
    }
  }

  function Half(widths: map<nat, real>, id: nat): real { if id in widths then widths[id] / 2.0 else 0.0 }

  function At(x: map<nat, real>, id: nat): real { if id in x then x[id] else 0.0 }

  /** Where the next box goes: as wanted, unless its left neighbour is in the way. */
  function Spot(x: map<nat, real>, widths: map<nat, real>, placed: seq<Want>, w: Want): real {
    if placed == [] then w.at
    else
      var left := placed[|placed| - 1].id;
      var least := At(x, left) + Half(widths, left) + 40.0 + Half(widths, w.id);
      if least > w.at then least else w.at
  }

  function Spread(ws: seq<Want>, widths: map<nat, real>, x0: map<nat, real>): map<nat, real> {
    if ws == [] then x0
    else
      var init, last := ws[..|ws| - 1], ws[|ws| - 1];
      var x := Spread(init, widths, x0);
      x[last.id := Spot(x, widths, init, last)]
  }

  lemma SpreadNext(ws: seq<Want>, i: nat, widths: map<nat, real>, x0: map<nat, real>)
    requires i < |ws|
    ensures var x := Spread(ws[..i], widths, x0);
      Spread(ws[..i + 1], widths, x0) == x[ws[i].id := Spot(x, widths, ws[..i], ws[i])]
  {
    assert ws[..i + 1][..i] == ws[..i];
  }

  /** The loop of `layout` that places one row from left to right. */
  method PlaceRow(ws: seq<Want>, widths: map<nat, real>, x0: map<nat, real>) returns (x: map<nat, real>)
    requires forall w :: w in ws ==> w.id in widths
    ensures x == Spread(ws, widths, x0)
  {
    assert Spread(ws[..0], widths, x0) == x0;
    hide Spread;
    x := x0;
    var rightEdge: Option<real> := None;
    var i := 0;
    while i < |ws|
      invariant 0 <= i <= |ws|
      invariant x == Spread(ws[..i], widths, x0)
      invariant i == 0 ==> rightEdge == None
      invariant i > 0 ==> rightEdge == Some(At(x, ws[i - 1].id) + Half(widths, ws[i - 1].id))
    {
      var w := ws[i];
      assert w in ws;
      var half := widths[w.id] / 2.0;
      var at := if rightEdge.Some? && rightEdge.value + GAP + half > w.at then rightEdge.value + GAP + half else w.at;
      SpreadNext(ws, i, widths, x0);
      x := x[w.id := at];
      rightEdge := Some(at + half);
      i := i + 1;
    }
    assert ws[..i] == ws;
  }

  /** No box sits left of where it wants to be, or further right than it is pushed, and
      neighbours are apart in their order. */
  ghost predicate RowOk(ws: seq<Want>, widths: map<nat, real>, x: map<nat, real>) {
    && (forall k :: 0 <= k < |ws| ==> ws[k].id in x && ws[k].id in widths && x[ws[k].id] >= ws[k].at)
    && (forall i, k :: 0 <= i < k < |ws| ==>
          At(x, ws[i].id) + Half(widths, ws[i].id) + 40.0 + Half(widths, ws[k].id) <= At(x, ws[k].id))
    && (forall k :: 0 <= k < |ws| ==> Pushed(ws, widths, x, k))
  }

  /** Box `k` of a row stands where it wants, or right next to its left neighbour. */
  ghost predicate Pushed(ws: seq<Want>, widths: map<nat, real>, x: map<nat, real>, k: nat)
    requires k < |ws|
  {
    || At(x, ws[k].id) == ws[k].at
    || (k > 0 && At(x, ws[k].id) == At(x, ws[k - 1].id) + Half(widths, ws[k - 1].id) + 40.0 + Half(widths, ws[k].id))
  }

  ghost predicate Placeable(ws: seq<Want>, widths: map<nat, real>, x0: map<nat, real>) {
    DistinctIds(ws) && (forall w :: w in ws ==> w.id in widths && widths[w.id] >= 0.0 && w.id !in x0)
  }

  lemma {:induction false} SpreadKeys(ws: seq<Want>, widths: map<nat, real>, x0: map<nat, real>, id: nat)
    ensures id in Spread(ws, widths, x0) <==> id in x0 || exists w :: w in ws && w.id == id
    ensures id in x0 && (forall w :: w in ws ==> w.id != id) ==> Spread(ws, widths, x0)[id] == x0[id]
    decreases |ws|
  {
    hide Spot;
    if ws != [] {
      var init, last := ws[..|ws| - 1], ws[|ws| - 1];
      assert ws == init + [last];
      SpreadKeys(init, widths, x0, id);
    }
  }

  lemma {:induction false} SpreadOk(ws: seq<Want>, widths: map<nat, real>, x0: map<nat, real>)
    requires Placeable(ws, widths, x0)
    ensures RowOk(ws, widths, Spread(ws, widths, x0))
    decreases |ws|
  {
    if ws != [] {
      hide Spot, RowOk;
      var init, last := ws[..|ws| - 1], ws[|ws| - 1];
      assert ws == init + [last];
      SpreadOk(init, widths, x0);
      PlacedLast(init, last, widths, Spread(init, widths, x0));
    }
  }

  lemma PlacedLast(init: seq<Want>, last: Want, widths: map<nat, real>, x: map<nat, real>)
    requires DistinctIds(init + [last]) && RowOk(init, widths, x)
    requires forall w :: w in init + [last] ==> w.id in widths && widths[w.id] >= 0.0
    ensures RowOk(init + [last], widths, x[last.id := Spot(x, widths, init, last)])
  {
    var ws, y := init + [last], x[last.id := Spot(x, widths, init, last)];
    assert ws[|init|] == last;
    forall i | 0 <= i < |init| ensures ws[i] == init[i] && ws[i].id != last.id && Half(widths, ws[i].id) >= 0.0 {
      assert init[i] in init;
    }
    forall i, k | 0 <= i < k < |ws|
      ensures At(y, ws[i].id) + Half(widths, ws[i].id) + 40.0 + Half(widths, ws[k].id) <= At(y, ws[k].id)
    {
      LeftEnough(init, last, widths, x, i, k);
    }
    assert last in ws;
    forall k | 0 <= k < |ws| ensures Pushed(ws, widths, y, k) {
      if k < |init| { assert Pushed(init, widths, x, k); }
    }
  }

  lemma LeftEnough(init: seq<Want>, last: Want, widths: map<nat, real>, x: map<nat, real>, i: nat, k: nat)
    requires RowOk(init, widths, x) && i < k <= |init|
    requires forall m :: 0 <= m < |init| ==> init[m].id != last.id && Half(widths, init[m].id) >= 0.0
    ensures var y := x[last.id := Spot(x, widths, init, last)];
      var w := if k < |init| then init[k] else last;
      At(y, init[i].id) + Half(widths, init[i].id) + 40.0 + Half(widths, w.id) <= At(y, w.id)
  {
    var m := |init| - 1;
    if k == |init| && i < m {
      assert At(x, init[i].id) + Half(widths, init[i].id) + 40.0 + Half(widths, init[m].id) <= At(x, init[m].id);
      assert Half(widths, init[m].id) >= 0.0;
    }
  }

  // ------------------------------------------------------------- row by row

  /** Where an edge from column `at` wants its target: 90 to the left for the branch under
      the condition, 90 to the right for the other. */
  function Asks(e: FlatEdge, at: real): real {
    match e.guard
    case None => at
    case Some(Cond(_)) => at - 90.0
    case Some(Otherwise) => at + 90.0
  }

  /** The sum of what the edges into a node ask for. */
  function ParentSum(forward: seq<FlatEdge>, x: map<nat, real>, id: nat): real {
    if forward == [] then 0.0
    else
      var e := forward[|forward| - 1];
      ParentSum(forward[..|forward| - 1], x, id)
      + (if e.to == id then Asks(e, if e.from in x then x[e.from] else 0.0) else 0.0)
  }

  function ParentCount(forward: seq<FlatEdge>, id: nat): nat {
    if forward == [] then 0
    else ParentCount(forward[..|forward| - 1], id) + (if forward[|forward| - 1].to == id then 1 else 0)
  }

  /** The average of what is asked for; the start is asked nothing and wants zero. */
  function Wanted(forward: seq<FlatEdge>, x: map<nat, real>, id: nat): real {
    var n := ParentCount(forward, id);
    ParentSum(forward, x, id) / (if n == 0 then 1.0 else n as real)
  }

  method WantOf(forward: seq<FlatEdge>, x: map<nat, real>, id: nat) returns (at: real)
    requires forall e :: e in forward && e.to == id ==> e.from in x
    ensures at == Wanted(forward, x, id)
  {
    var sum, n := 0.0, 0;
    var i := 0;
    while i < |forward|
      invariant 0 <= i <= |forward|
      invariant sum == ParentSum(forward[..i], x, id) && n == ParentCount(forward[..i], id)
    {
      assert forward[..i + 1][..i] == forward[..i];
      if forward[i].to == id {
        assert forward[i] in forward;
        sum := sum + (x[forward[i].from] + BranchOffset(forward[i]));
        n := n + 1;
      }
      i := i + 1;
    }
    assert forward[..i] == forward;
    at := sum / (if n == 0 then 1.0 else n as real);
  }

  lemma {:induction false} WantedSame(forward: seq<FlatEdge>, x: map<nat, real>, y: map<nat, real>, id: nat)
    requires forall e :: e in forward && e.to == id ==> e.from in x && e.from in y && x[e.from] == y[e.from]
    ensures ParentSum(forward, x, id) == ParentSum(forward, y, id)
    decreases |forward|
  {
    if forward != [] {
      assert forward[|forward| - 1] in forward;
      WantedSame(forward[..|forward| - 1], x, y, id);
    }
  }

  /** Whether `a` goes to the left of `b` when they share a row. */
  ghost predicate Goes(nodes: seq<FlatNode>, forward: seq<FlatEdge>, x: map<nat, real>, a: nat, b: nat) {
    LeftOf(nodes, Want(Wanted(forward, x, a), a), Want(Wanted(forward, x, b), b))
  }

  /** `a` is pushed to where it stands by `c`, which is 40 to its left. */
  ghost predicate Nudges(nodes: seq<FlatNode>, forward: seq<FlatEdge>, row: map<nat, nat>, widths: map<nat, real>,
                         x: map<nat, real>, c: nat, a: nat)
    requires a in x && a in row && a in widths
  {
    && c in x && c in row && c in widths && row[c] == row[a] && Goes(nodes, forward, x, c, a)
    && x[a] == x[c] + widths[c] / 2.0 + 40.0 + widths[a] / 2.0
  }

  /** A node stands where it wants to, or is pushed to the right by one to its left. */
  ghost predicate Snug(nodes: seq<FlatNode>, forward: seq<FlatEdge>, row: map<nat, nat>, widths: map<nat, real>,
                       x: map<nat, real>, a: nat)
    requires a in x && a in row && a in widths
  {
    x[a] == Wanted(forward, x, a) || exists c :: Nudges(nodes, forward, row, widths, x, c, a)
  }

  /** Nodes of one row stand in the order of where they want to be, 40 apart, none further
      left than it wants and none further right than it has to. */
  ghost predicate ColumnsOk(nodes: seq<FlatNode>, forward: seq<FlatEdge>, row: map<nat, nat>, widths: map<nat, real>,
                            x: map<nat, real>) {
    && (forall a :: a in x ==> a in row && a in widths && x[a] >= Wanted(forward, x, a) && Snug(nodes, forward, row, widths, x, a))
    && (forall a, b :: a in x && b in x && a != b && row[a] == row[b] && Goes(nodes, forward, x, a, b) ==>
          x[a] + widths[a] / 2.0 + 40.0 + widths[b] / 2.0 <= x[b])
  }

  /** Rows and columns of a finished layout. */
  ghost predicate LaidOut(graph: FlatGraph, start: nat, widths: map<nat, real>, forward: seq<FlatEdge>, fin: map<nat, nat>,
                          row: map<nat, nat>, x: map<nat, real>) {
    && IsForward(graph, start, forward, fin) && row.Keys == fin.Keys
    && (forall v :: v in row ==> Longest(forward, start, v, row[v]))
    && (forall id :: id in x <==> HasId(graph.nodes, id))
    && ColumnsOk(graph.nodes, forward, row, widths, x)
  }

  /** The rows before `r` are placed. */
  ghost predicate RowsPlaced(graph: FlatGraph, forward: seq<FlatEdge>, row: map<nat, nat>, widths: map<nat, real>,
                             x: map<nat, real>, r: nat) {
    && (forall id :: id in x <==> HasId(graph.nodes, id) && id in row && row[id] < r)
    && ColumnsOk(graph.nodes, forward, row, widths, x)
  }

  /** Edges lead down from nodes to nodes. */
  ghost predicate RunsDown(graph: FlatGraph, forward: seq<FlatEdge>, row: map<nat, nat>) {
    forall e :: e in forward ==> HasId(graph.nodes, e.from) && e.from in row && e.to in row && row[e.from] < row[e.to]
  }

  ghost predicate RowIds(graph: FlatGraph, row: map<nat, nat>, r: nat, ids: seq<nat>) {
    && (forall i, k :: 0 <= i < k < |ids| ==> ids[i] != ids[k] && Earlier(graph.nodes, ids[i], ids[k]))
    && (forall id :: id in ids <==> HasId(graph.nodes, id) && id in row && row[id] == r)
  }

  ghost predicate WantsOf(forward: seq<FlatEdge>, x: map<nat, real>, ids: seq<nat>, ws: seq<Want>) {
    |ws| == |ids| && forall k :: 0 <= k < |ids| ==> ws[k] == Want(Wanted(forward, x, ids[k]), ids[k])
  }

  /** The positions of row `r`, given those above it. */
  method PlaceNext(graph: FlatGraph, ids: seq<nat>, forward: seq<FlatEdge>, row: map<nat, nat>, widths: map<nat, real>,
                   x0: map<nat, real>, r: nat) returns (x: map<nat, real>)
    requires RowsPlaced(graph, forward, row, widths, x0, r)
    requires RowIds(graph, row, r, ids) && RunsDown(graph, forward, row) && DistinctNodes(graph.nodes)
    requires forall id :: id in ids ==> id in widths && widths[id] >= 0.0
    ensures RowsPlaced(graph, forward, row, widths, x, r + 1)
  {
    hide Wanted, ColumnsOk, HasId, DistinctNodes, Earlier;
    var wants: seq<Want> := [];
    var i := 0;
    while i < |ids|
      invariant 0 <= i <= |ids|
      invariant WantsOf(forward, x0, ids[..i], wants)
    {
      assert ids[i] in ids;
      var at := WantOf(forward, x0, ids[i]);
      wants := wants + [Want(at, ids[i])];
      i := i + 1;
    }
    assert ids[..i] == ids;
    var sorted := SortWants(wants);
    WantsSorted(graph.nodes, forward, x0, ids, wants);
    forall w | w in sorted ensures w.id in widths { assert w.id in ids; }
    x := PlaceRow(sorted, widths, x0);
    Placed(graph, ids, forward, row, widths, x0, r, wants);
  }

  /** The sorted wants still name exactly the row's nodes. */
  lemma WantsSorted(nodes: seq<FlatNode>, forward: seq<FlatEdge>, x0: map<nat, real>, ids: seq<nat>, wants: seq<Want>)
    requires WantsOf(forward, x0, ids, wants)
    requires forall i, k :: 0 <= i < k < |ids| ==> ids[i] != ids[k] && Earlier(nodes, ids[i], ids[k])
    ensures DistinctIds(SortWants(wants)) && SortedWants(nodes, SortWants(wants))
    ensures forall w :: w in SortWants(wants) ==> w.id in ids && w.at == Wanted(forward, x0, w.id)
    ensures forall id :: id in ids ==> exists k :: 0 <= k < |SortWants(wants)| && SortWants(wants)[k].id == id
  {
    hide Wanted, Earlier;
    var sorted := SortWants(wants);
    SortOk(nodes, wants);
    forall w | w in sorted ensures w.id in ids && w.at == Wanted(forward, x0, w.id) {
      var k :| 0 <= k < |wants| && wants[k] == w;
    }
    forall id | id in ids ensures exists k :: 0 <= k < |sorted| && sorted[k].id == id {
      var k :| 0 <= k < |ids| && ids[k] == id;
      assert wants[k] in sorted;
      var m :| 0 <= m < |sorted| && sorted[m] == wants[k];
    }
  }

  /** The state after a row: what one more row of placed boxes has to satisfy. */
  ghost predicate RowAdded(nodes: seq<FlatNode>, ids: seq<nat>, forward: seq<FlatEdge>, widths: map<nat, real>, x0: map<nat, real>,
                           sorted: seq<Want>, x: map<nat, real>) {
    && (forall w :: w in sorted ==>
          w.id in ids && w.id in widths && widths[w.id] >= 0.0 && w.at == Wanted(forward, x0, w.id))
    && (forall id :: id in ids ==> exists k :: 0 <= k < |sorted| && sorted[k].id == id)
    && RowOk(sorted, widths, x) && SortedWants(nodes, sorted)
    && (forall id :: id in x <==> id in x0 || id in ids)
    && (forall id :: id in x0 ==> x[id] == x0[id])
  }

  lemma AddedKeys(nodes: seq<FlatNode>, ids: seq<nat>, forward: seq<FlatEdge>, widths: map<nat, real>, x0: map<nat, real>,
                  sorted: seq<Want>, x: map<nat, real>)
    requires RowAdded(nodes, ids, forward, widths, x0, sorted, x)
    ensures forall id :: id in x <==> id in x0 || id in ids
  {
  }

  lemma Placed(graph: FlatGraph, ids: seq<nat>, forward: seq<FlatEdge>, row: map<nat, nat>, widths: map<nat, real>,
               x0: map<nat, real>, r: nat, wants: seq<Want>)
    requires RowsPlaced(graph, forward, row, widths, x0, r)
    requires RowIds(graph, row, r, ids) && RunsDown(graph, forward, row) && DistinctNodes(graph.nodes)
    requires forall id :: id in ids ==> id in widths && widths[id] >= 0.0
    requires WantsOf(forward, x0, ids, wants)
    ensures RowsPlaced(graph, forward, row, widths, Spread(SortWants(wants), widths, x0), r + 1)
  {
    hide Wanted, HasId, SortWants, Spread, RowAdded, ColumnsOk, Earlier, DistinctNodes;
    var x := Spread(SortWants(wants), widths, x0);
    RowIsAdded(graph.nodes, ids, forward, widths, x0, wants);
    AddedKeys(graph.nodes, ids, forward, widths, x0, SortWants(wants), x);
    ColumnsGrow(graph, ids, forward, row, widths, x0, r, SortWants(wants), x);
  }

  lemma RowIsAdded(nodes: seq<FlatNode>, ids: seq<nat>, forward: seq<FlatEdge>, widths: map<nat, real>, x0: map<nat, real>, wants: seq<Want>)
    requires WantsOf(forward, x0, ids, wants)
    requires forall i, k :: 0 <= i < k < |ids| ==> ids[i] != ids[k] && Earlier(nodes, ids[i], ids[k])
    requires forall id :: id in ids ==> id in widths && widths[id] >= 0.0 && id !in x0
    ensures RowAdded(nodes, ids, forward, widths, x0, SortWants(wants), Spread(SortWants(wants), widths, x0))
  {
    hide Wanted, SortWants, Spread, RowOk, WantsOf;
    var sorted := SortWants(wants);
    var x := Spread(sorted, widths, x0);
    WantsSorted(nodes, forward, x0, ids, wants);
    SpreadOk(sorted, widths, x0);
    forall id ensures id in x <==> id in x0 || id in ids {
      SpreadKeys(sorted, widths, x0, id);
      if id in ids {
        var k :| 0 <= k < |sorted| && sorted[k].id == id;
        assert sorted[k] in sorted;
      }
    }
    forall id | id in x0 ensures x[id] == x0[id] { SpreadKeys(sorted, widths, x0, id); }
  }

  lemma ColumnsGrow(graph: FlatGraph, ids: seq<nat>, forward: seq<FlatEdge>, row: map<nat, nat>, widths: map<nat, real>,
                    x0: map<nat, real>, r: nat, sorted: seq<Want>, x: map<nat, real>)
    requires RowsPlaced(graph, forward, row, widths, x0, r) && RowIds(graph, row, r, ids) && RunsDown(graph, forward, row)
    requires RowAdded(graph.nodes, ids, forward, widths, x0, sorted, x) && DistinctNodes(graph.nodes)
    ensures ColumnsOk(graph.nodes, forward, row, widths, x)
  {
    hide Wanted, HasId, LeftOf, RowAdded, RunsDown, RowsPlaced, RowIds, Snug, DistinctNodes;
    var nodes := graph.nodes;
    forall a | a in x ensures a in row && a in widths && x[a] >= Wanted(forward, x, a) && Snug(nodes, forward, row, widths, x, a) {
      ColumnKept(graph, ids, forward, row, widths, x0, r, sorted, x, a);
      if row[a] == r {
        SnugNew(graph, ids, forward, row, widths, x0, r, sorted, x, a);
      } else {
        SnugKept(graph, ids, forward, row, widths, x0, r, sorted, x, a);
      }
    }
    forall a, b | a in x && b in x && a != b && row[a] == row[b] && Goes(nodes, forward, x, a, b)
      ensures a in widths && b in widths && x[a] + widths[a] / 2.0 + 40.0 + widths[b] / 2.0 <= x[b]
    {
      ColumnKept(graph, ids, forward, row, widths, x0, r, sorted, x, a);
      ColumnKept(graph, ids, forward, row, widths, x0, r, sorted, x, b);
      if row[a] == r {
        RowApart(nodes, ids, forward, widths, x0, sorted, x, a, b);
      } else {
        PairKept(graph, ids, forward, row, widths, x0, r, sorted, x, a, b);
      }
    }
  }

  lemma PairKept(graph: FlatGraph, ids: seq<nat>, forward: seq<FlatEdge>, row: map<nat, nat>, widths: map<nat, real>,
                 x0: map<nat, real>, r: nat, sorted: seq<Want>, x: map<nat, real>, a: nat, b: nat)
    requires RowsPlaced(graph, forward, row, widths, x0, r) && RowAdded(graph.nodes, ids, forward, widths, x0, sorted, x)
    requires a in x0 && b in x0 && a != b && row[a] == row[b] && Goes(graph.nodes, forward, x0, a, b)
    ensures a in x && b in x && a in widths && b in widths && x[a] + widths[a] / 2.0 + 40.0 + widths[b] / 2.0 <= x[b]
  {
    hide Wanted, HasId, RowOk, LeftOf, Snug;
  }

  /** Everything placed, and where it wants to be, is as before the row was added. */
  lemma ColumnKept(graph: FlatGraph, ids: seq<nat>, forward: seq<FlatEdge>, row: map<nat, nat>, widths: map<nat, real>,
                   x0: map<nat, real>, r: nat, sorted: seq<Want>, x: map<nat, real>, a: nat)
    requires RowsPlaced(graph, forward, row, widths, x0, r) && RowIds(graph, row, r, ids) && RunsDown(graph, forward, row)
    requires RowAdded(graph.nodes, ids, forward, widths, x0, sorted, x) && a in x
    ensures a in row && a in widths && x[a] >= Wanted(forward, x, a)
    ensures Wanted(forward, x, a) == Wanted(forward, x0, a)
    ensures if row[a] == r then a in ids else a in x0 && x[a] == x0[a]
  {
    hide HasId, ParentSum, ParentCount, LeftOf, Snug;
    assert a in row && row[a] <= r;
    WantedSame(forward, x0, x, a);
    if a in ids {
      var k :| 0 <= k < |sorted| && sorted[k].id == a;
      assert sorted[k] in sorted;
    }
  }

  lemma SnugKept(graph: FlatGraph, ids: seq<nat>, forward: seq<FlatEdge>, row: map<nat, nat>, widths: map<nat, real>,
                 x0: map<nat, real>, r: nat, sorted: seq<Want>, x: map<nat, real>, a: nat)
    requires RowsPlaced(graph, forward, row, widths, x0, r) && RowIds(graph, row, r, ids) && RunsDown(graph, forward, row)
    requires RowAdded(graph.nodes, ids, forward, widths, x0, sorted, x) && a in x0 && a in x
    ensures a in row && a in widths && Snug(graph.nodes, forward, row, widths, x, a)
  {
    hide Wanted, HasId, LeftOf, RowAdded, RowIds, RunsDown, RowsPlaced;
    OldSnug(graph, forward, row, widths, x0, r, a);
    AddedKeys(graph.nodes, ids, forward, widths, x0, sorted, x);
    ColumnKept(graph, ids, forward, row, widths, x0, r, sorted, x, a);
    RowBefore(graph, forward, row, widths, x0, r, a);
    if x0[a] != Wanted(forward, x0, a) {
      var c :| Nudges(graph.nodes, forward, row, widths, x0, c, a);
      ColumnKept(graph, ids, forward, row, widths, x0, r, sorted, x, c);
      assert Nudges(graph.nodes, forward, row, widths, x, c, a);
    }
  }

  lemma RowBefore(graph: FlatGraph, forward: seq<FlatEdge>, row: map<nat, nat>, widths: map<nat, real>, x0: map<nat, real>, r: nat, a: nat)
    requires RowsPlaced(graph, forward, row, widths, x0, r) && a in x0
    ensures a in row && row[a] < r
  {
  }

  lemma OldSnug(graph: FlatGraph, forward: seq<FlatEdge>, row: map<nat, nat>, widths: map<nat, real>, x0: map<nat, real>, r: nat, a: nat)
    requires RowsPlaced(graph, forward, row, widths, x0, r) && a in x0
    ensures a in row && a in widths && Snug(graph.nodes, forward, row, widths, x0, a)
  {
    hide Snug, HasId;
  }

  lemma SnugNew(graph: FlatGraph, ids: seq<nat>, forward: seq<FlatEdge>, row: map<nat, nat>, widths: map<nat, real>,
                x0: map<nat, real>, r: nat, sorted: seq<Want>, x: map<nat, real>, a: nat)
    requires RowsPlaced(graph, forward, row, widths, x0, r) && RowIds(graph, row, r, ids) && RunsDown(graph, forward, row)
    requires RowAdded(graph.nodes, ids, forward, widths, x0, sorted, x) && a in x && a in ids
    ensures a in row && a in widths && Snug(graph.nodes, forward, row, widths, x, a)
  {
    hide Wanted, HasId, LeftOf, RowAdded, RowIds, RunsDown, RowsPlaced;
    ColumnKept(graph, ids, forward, row, widths, x0, r, sorted, x, a);
    RowOf(graph, row, r, ids, a);
    AddedKeys(graph.nodes, ids, forward, widths, x0, sorted, x);
    var k, c := PushedBy(graph.nodes, ids, forward, widths, x0, sorted, x, a);
    if x[a] != Wanted(forward, x0, a) {
      RowOf(graph, row, r, ids, c);
      ColumnKept(graph, ids, forward, row, widths, x0, r, sorted, x, c);
      assert Nudges(graph.nodes, forward, row, widths, x, c, a);
    }
  }

  lemma RowOf(graph: FlatGraph, row: map<nat, nat>, r: nat, ids: seq<nat>, a: nat)
    requires RowIds(graph, row, r, ids) && a in ids
    ensures a in row && row[a] == r
  {
  }

  /** What pushes a box of the new row to where it stands. */
  lemma PushedBy(nodes: seq<FlatNode>, ids: seq<nat>, forward: seq<FlatEdge>, widths: map<nat, real>, x0: map<nat, real>,
                 sorted: seq<Want>, x: map<nat, real>, a: nat) returns (k: nat, c: nat)
    requires RowAdded(nodes, ids, forward, widths, x0, sorted, x) && a in ids && a in x
    ensures a in widths
    ensures x[a] != Wanted(forward, x0, a) ==>
              && c in ids && c in x && c in widths && Goes(nodes, forward, x0, c, a)
              && x[a] == x[c] + widths[c] / 2.0 + 40.0 + widths[a] / 2.0
  {
    hide Wanted, Earlier;
    k :| 0 <= k < |sorted| && sorted[k].id == a;
    assert sorted[k] in sorted && Pushed(sorted, widths, x, k);
    c := 0;
    if x[a] != sorted[k].at {
      c := sorted[k - 1].id;
      assert sorted[k - 1] in sorted && LeftOf(nodes, sorted[k - 1], sorted[k]);
    }
  }

  lemma RowApart(nodes: seq<FlatNode>, ids: seq<nat>, forward: seq<FlatEdge>, widths: map<nat, real>, x0: map<nat, real>,
                 sorted: seq<Want>, x: map<nat, real>, a: nat, b: nat)
    requires RowAdded(nodes, ids, forward, widths, x0, sorted, x) && a in ids && b in ids && a != b
    requires Goes(nodes, forward, x0, a, b) && DistinctNodes(nodes)
    ensures a in x && b in x && a in widths && b in widths && x[a] + widths[a] / 2.0 + 40.0 + widths[b] / 2.0 <= x[b]
  {
    hide Wanted, Earlier, DistinctNodes;
    var i :| 0 <= i < |sorted| && sorted[i].id == a;
    var k :| 0 <= k < |sorted| && sorted[k].id == b;
    assert sorted[i] in sorted && sorted[k] in sorted;
    if k < i {
      assert LeftOf(nodes, sorted[k], sorted[i]);
      if Earlier(nodes, a, b) && Earlier(nodes, b, a) { EarlierOnce(nodes, a, b); }
    }
  }

  lemma EarlierOnce(nodes: seq<FlatNode>, a: nat, b: nat)
    requires DistinctNodes(nodes)
    ensures !(Earlier(nodes, a, b) && Earlier(nodes, b, a))
  {
  }

  /** The ids of row `r`, in node order. */
  method IdsOfRow(graph: FlatGraph, row: map<nat, nat>, r: nat) returns (ids: seq<nat>)
    requires DistinctNodes(graph.nodes) && (forall n :: n in graph.nodes ==> n.id in row)
    ensures RowIds(graph, row, r, ids)
  {
    hide Earlier;
    ids := [];
    var i := 0;
    while i < |graph.nodes|
      invariant 0 <= i <= |graph.nodes|
      invariant forall id :: id in ids <==> exists k :: 0 <= k < i && graph.nodes[k].id == id && row[id] == r
      invariant forall m, k :: 0 <= m < k < |ids| ==> ids[m] != ids[k] && Earlier(graph.nodes, ids[m], ids[k])
    {
      var n := graph.nodes[i];
      assert n in graph.nodes;
      if row[n.id] == r {
        NextId(graph.nodes, row, r, ids, i);
        ids := ids + [n.id];
      }
      i := i + 1;
    }
    forall id ensures id in ids <==> HasId(graph.nodes, id) && id in row && row[id] == r {
      if id in ids {
        var k :| 0 <= k < |graph.nodes| && graph.nodes[k].id == id && row[id] == r;
        assert graph.nodes[k] in graph.nodes;
      }
      if HasId(graph.nodes, id) && id in row && row[id] == r {
        var n :| n in graph.nodes && n.id == id;
        var k :| 0 <= k < |graph.nodes| && graph.nodes[k] == n;
      }
    }
  }

  lemma NextId(nodes: seq<FlatNode>, row: map<nat, nat>, r: nat, ids: seq<nat>, i: nat)
    requires DistinctNodes(nodes) && i < |nodes| && (forall n :: n in nodes ==> n.id in row)
    requires forall id :: id in ids ==> exists k :: 0 <= k < i && nodes[k].id == id
    ensures forall m :: 0 <= m < |ids| ==> ids[m] != nodes[i].id && Earlier(nodes, ids[m], nodes[i].id)
  {
    forall m | 0 <= m < |ids| ensures ids[m] != nodes[i].id && Earlier(nodes, ids[m], nodes[i].id) {
      assert ids[m] in ids;
    }
  }

  /** The number of rows: one more than the largest. */
  method RowCount(graph: FlatGraph, row: map<nat, nat>) returns (count: nat)
    requires forall n :: n in graph.nodes ==> n.id in row
    ensures forall n :: n in graph.nodes ==> row[n.id] < count
  {
    count := 0;
    var i := 0;
    while i < |graph.nodes|
      invariant 0 <= i <= |graph.nodes|
      invariant forall k :: 0 <= k < i ==> row[graph.nodes[k].id] < count
    {
      assert graph.nodes[i] in graph.nodes;
      if row[graph.nodes[i].id] >= count { count := row[graph.nodes[i].id] + 1; }
      i := i + 1;
    }
  }

  /** Positions of all nodes: row by longest path, column by parents. */
  method Layout(graph: FlatGraph, start: nat, widths: map<nat, real>)
    returns (positions: map<nat, (real, real)>, ghost forward: seq<FlatEdge>, ghost fin: map<nat, nat>,
             ghost row: map<nat, nat>, ghost x: map<nat, real>)
    requires Layable(graph, start)
    requires forall n :: n in graph.nodes ==> n.id in widths && widths[n.id] >= 0.0
    ensures LaidOut(graph, start, widths, forward, fin, row, x)
    ensures forall id :: id in positions <==> HasId(graph.nodes, id)
    ensures forall id :: id in positions ==> id in row && id in x && positions[id] == (x[id], row[id] as real * 70.0)
  {
    hide IsForward, Longest, Reaches, ColumnsOk, RunsDown, DistinctNodes, RowIds, HasId, LaidOut;
    var kept, rows;
    var at: map<nat, real> := map[];
    kept, fin := ForwardOf(graph, start);
    rows := Rows(kept, start, graph, fin);
    forward, row := kept, rows;
    AllRowed(graph, start, forward, fin, row);
    StartColumns(graph, forward, row, widths);
    var count := RowCount(graph, rows);
    var r := 0;
    while r < count
      invariant 0 <= r <= count
      invariant RowsPlaced(graph, forward, row, widths, at, r)
    {
      var ids := IdsOfRow(graph, rows, r);
      RowWidths(graph, row, widths, r, ids);
      at := PlaceNext(graph, ids, kept, rows, widths, at, r);
      r := r + 1;
    }
    x := at;
    LayoutDone(graph, start, widths, forward, fin, row, x, count);
    positions := PositionsOf(graph, at, rows);
  }

  lemma RowWidths(graph: FlatGraph, row: map<nat, nat>, widths: map<nat, real>, r: nat, ids: seq<nat>)
    requires RowIds(graph, row, r, ids) && (forall n :: n in graph.nodes ==> n.id in widths && widths[n.id] >= 0.0)
    ensures forall id :: id in ids ==> id in widths && widths[id] >= 0.0
  {
    forall id | id in ids ensures id in widths && widths[id] >= 0.0 {
      var n :| n in graph.nodes && n.id == id;
    }
  }

  lemma StartColumns(graph: FlatGraph, forward: seq<FlatEdge>, row: map<nat, nat>, widths: map<nat, real>)
    ensures RowsPlaced(graph, forward, row, widths, map[], 0)
  {
  }

  /** The final `map ... collect` over the nodes. */
  method PositionsOf(graph: FlatGraph, x: map<nat, real>, row: map<nat, nat>) returns (positions: map<nat, (real, real)>)
    requires forall n :: n in graph.nodes ==> n.id in x && n.id in row
    ensures forall id :: id in positions <==> HasId(graph.nodes, id)
    ensures forall id :: id in positions ==> id in row && id in x && positions[id] == (x[id], row[id] as real * 70.0)
  {
    positions := map[];
    var i := 0;
    while i < |graph.nodes|
      invariant 0 <= i <= |graph.nodes|
      invariant forall id :: id in positions <==> exists k :: 0 <= k < i && graph.nodes[k].id == id
      invariant forall id :: id in positions ==> id in row && id in x && positions[id] == (x[id], row[id] as real * 70.0)
    {
      var n := graph.nodes[i];
      assert n in graph.nodes;
      positions := positions[n.id := (x[n.id], row[n.id] as real * ROW_H)];
      i := i + 1;
    }
    forall id ensures id in positions <==> HasId(graph.nodes, id) {
      if id in positions {
        var k :| 0 <= k < |graph.nodes| && graph.nodes[k].id == id;
        assert graph.nodes[k] in graph.nodes;
      }
      if HasId(graph.nodes, id) {
        var n :| n in graph.nodes && n.id == id;
        var k :| 0 <= k < |graph.nodes| && graph.nodes[k] == n;
      }
    }
  }

  lemma LayoutDone(graph: FlatGraph, start: nat, widths: map<nat, real>, forward: seq<FlatEdge>, fin: map<nat, nat>,
                   row: map<nat, nat>, x: map<nat, real>, count: nat)
    requires IsForward(graph, start, forward, fin) && row.Keys == fin.Keys
    requires forall v :: v in row ==> Longest(forward, start, v, row[v])
    requires RowsPlaced(graph, forward, row, widths, x, count)
    requires forall n :: n in graph.nodes ==> n.id in row && row[n.id] < count
    ensures LaidOut(graph, start, widths, forward, fin, row, x)
    ensures forall n :: n in graph.nodes ==> n.id in x
  {
    hide Longest, IsForward, ColumnsOk;
    forall n | n in graph.nodes ensures n.id in x { assert HasId(graph.nodes, n.id); }
  }

  /** Every node has a row, and forward edges go strictly down. */
  lemma AllRowed(graph: FlatGraph, start: nat, forward: seq<FlatEdge>, fin: map<nat, nat>, row: map<nat, nat>)
    requires Layable(graph, start) && IsForward(graph, start, forward, fin) && row.Keys == fin.Keys
    requires forall v :: v in row ==> Longest(forward, start, v, row[v])
    ensures forall n :: n in graph.nodes ==> n.id in row
    ensures RunsDown(graph, forward, row)
  {
    forall n | n in graph.nodes ensures n.id in row { CoversReachable(graph, start, forward, fin, n.id); }
    forall e | e in forward ensures e.from in row && e.to in row && row[e.from] < row[e.to] {
      HasPathStep(forward, start, e, row[e.from]);
      assert Longest(forward, start, e.to, row[e.to]);
    }
  }

  /** The layering: kept edges go strictly down, dropped ones go up, or are level when
      they join a node to itself. */
  lemma EdgeDirections(graph: FlatGraph, start: nat, widths: map<nat, real>, forward: seq<FlatEdge>, fin: map<nat, nat>,
                       row: map<nat, nat>, x: map<nat, real>, e: FlatEdge)
    requires Layable(graph, start) && LaidOut(graph, start, widths, forward, fin, row, x) && e in graph.edges
    ensures e.from in row && e.to in row
    ensures e in forward <==> row[e.to] > row[e.from]
    ensures e !in forward && row[e.to] == row[e.from] ==> e.to == e.from
  {
    hide Longest, ColumnsOk;
    AllRowed(graph, start, forward, fin, row);
    var n :| n in graph.nodes && n.id == e.from;
    if e !in forward {
      assert e.from in fin;
      var path :| IsPath(forward, e.to, e.from, path);
      RowsRise(forward, row, e.to, e.from, path);
    }
  }
}
