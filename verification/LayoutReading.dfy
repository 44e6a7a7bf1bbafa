/** What a laid-out graph looks like, read off its edges and guards: which branch is on
    which side, how far apart boxes are, and that no other placement would do. */
module LayoutReading {
  import opened Syntax
  import opened ActivityBuild
  import opened FlatGraphs
  import opened FlatPaths
  import opened ForwardEdges
  import opened LayoutRows
  import opened LayoutColumns

  // ------------------------------------------------------------- averages

  function Times(n: nat, v: real): real { n as real * v }

  lemma OneMoreTimes(n: nat, v: real)
    ensures Times(n + 1, v) == Times(n, v) + v
  {
  }

  lemma NoTimes(v: real)
    ensures Times(0, v) == 0.0
  {
  }

  /** What all edges into a node ask for is between the same bounds as their average. */
  lemma {:induction false} SumBetween(forward: seq<FlatEdge>, x: map<nat, real>, id: nat, lo: real, hi: real)
    requires forall e :: e in forward && e.to == id ==> e.from in x && lo <= Asks(e, x[e.from]) <= hi
    ensures Times(ParentCount(forward, id), lo) <= ParentSum(forward, x, id) <= Times(ParentCount(forward, id), hi)
    decreases |forward|
  {
    hide Times, Asks;
    NoTimes(lo);
    NoTimes(hi);
    if forward != [] {
      var init, e := forward[..|forward| - 1], forward[|forward| - 1];
      assert e in forward;
      SumBetween(init, x, id, lo, hi);
      if e.to == id {
        OneMoreTimes(ParentCount(init, id), lo);
        OneMoreTimes(ParentCount(init, id), hi);
      }
    }
  }


  lemma {:induction false} SomeParent(forward: seq<FlatEdge>, e: FlatEdge)
    requires e in forward
    ensures ParentCount(forward, e.to) >= 1
    decreases |forward|
  {
    var init, last := forward[..|forward| - 1], forward[|forward| - 1];
    assert forward == init + [last];
    if e != last { SomeParent(init, e); }
  }

  lemma WantsBetween(forward: seq<FlatEdge>, x: map<nat, real>, e: FlatEdge, lo: real, hi: real)
    requires forall f :: f in forward && f.to == e.to ==> f.from in x && lo <= Asks(f, x[f.from]) <= hi
    requires e in forward
    ensures lo <= Wanted(forward, x, e.to) <= hi
  {
    SumBetween(forward, x, e.to, lo, hi);
    SomeParent(forward, e);
    Quotient(ParentSum(forward, x, e.to), ParentCount(forward, e.to) as real, lo, hi);
  }

  lemma Quotient(sum: real, n: real, lo: real, hi: real)
    requires n >= 1.0 && n * lo <= sum <= n * hi
    ensures lo <= sum / n <= hi
  {
    var q := sum / n;
    assert q * n == sum;
    if q < lo { Smaller(q, lo, n); }
    if q > hi { Smaller(hi, q, n); }
  }

  lemma Smaller(p: real, q: real, n: real)
    requires n >= 1.0 && p < q
    ensures n * p < n * q
  {
  }

  /** The sum when every edge into the node is one of two. */
  lemma {:induction false} SumOfTwo(forward: seq<FlatEdge>, x: map<nat, real>, e: FlatEdge, f: FlatEdge)
    requires e != f && e.to == f.to && e.from in x && f.from in x
    requires forall g :: g in forward && g.to == e.to ==> g == e || g == f
    ensures var n, m := multiset(forward)[e], multiset(forward)[f];
      && ParentCount(forward, e.to) == n + m
      && ParentSum(forward, x, e.to) == Times(n, Asks(e, x[e.from])) + Times(m, Asks(f, x[f.from]))
    decreases |forward|
  {
    hide Times, Asks;
    NoTimes(Asks(e, x[e.from]));
    NoTimes(Asks(f, x[f.from]));
    if forward != [] {
      var init, last := forward[..|forward| - 1], forward[|forward| - 1];
      assert forward == init + [last] && last in forward;
      SumOfTwo(init, x, e, f);
      OneMoreTimes(multiset(init)[e], Asks(e, x[e.from]));
      OneMoreTimes(multiset(init)[f], Asks(f, x[f.from]));
    }
  }

  // ------------------------------------------------------------ the picture

  /** `e` is the only edge that leads down to its target. */
  ghost predicate OnlyWayDown(graph: FlatGraph, row: map<nat, nat>, e: FlatEdge) {
    && e in graph.edges && LeadsDown(row, e)
    && forall f :: f in graph.edges && LeadsDown(row, f) && f.to == e.to ==> f == e
  }

  predicate LeadsDown(row: map<nat, nat>, e: FlatEdge) {
    e.from in row && e.to in row && row[e.from] < row[e.to]
  }

  /** `a` wants to stand at `at`: it does, or is kept from it by a box 40 to its left. */
  ghost predicate Stands(row: map<nat, nat>, widths: map<nat, real>, x: map<nat, real>, a: nat, at: real) {
    && a in x && x[a] >= at
    && (x[a] == at || exists c :: Touching(row, widths, x, c, a))
  }

  ghost predicate Touching(row: map<nat, nat>, widths: map<nat, real>, x: map<nat, real>, c: nat, a: nat) {
    && a in x && a in row && a in widths && c in x && c in row && c in widths && row[c] == row[a]
    && x[a] == x[c] + widths[c] / 2.0 + 40.0 + widths[a] / 2.0
  }

  lemma StandsWanted(graph: FlatGraph, start: nat, widths: map<nat, real>, forward: seq<FlatEdge>, fin: map<nat, nat>,
                     row: map<nat, nat>, x: map<nat, real>, a: nat)
    requires LaidOut(graph, start, widths, forward, fin, row, x) && a in x
    ensures Stands(row, widths, x, a, Wanted(forward, x, a))
  {
    hide Wanted, Goes, IsForward, Longest, HasId;
    assert a in row && a in widths && Snug(graph.nodes, forward, row, widths, x, a);
    if x[a] != Wanted(forward, x, a) {
      var c :| Nudges(graph.nodes, forward, row, widths, x, c, a);
      assert Touching(row, widths, x, c, a);
    }
  }

  lemma KeptIff(graph: FlatGraph, start: nat, widths: map<nat, real>, forward: seq<FlatEdge>, fin: map<nat, nat>,
                row: map<nat, nat>, x: map<nat, real>)
    requires Layable(graph, start) && LaidOut(graph, start, widths, forward, fin, row, x)
    ensures forall e :: e in forward <==> e in graph.edges && LeadsDown(row, e)
    ensures forall e :: e in graph.edges ==> e.from in x && e.to in x
  {
    hide Longest, ColumnsOk;
    forall e ensures e in forward <==> e in graph.edges && LeadsDown(row, e) {
      if e in graph.edges { EdgeDirections(graph, start, widths, forward, fin, row, x, e); }
    }
  }

  /** A node that one edge leads down to wants to stand below where the edge comes from:
      90 to the left under a condition, 90 to the right under [else], else straight below. */
  lemma BelowItsParent(graph: FlatGraph, start: nat, widths: map<nat, real>, forward: seq<FlatEdge>, fin: map<nat, nat>,
                       row: map<nat, nat>, x: map<nat, real>, e: FlatEdge)
    requires Layable(graph, start) && LaidOut(graph, start, widths, forward, fin, row, x) && OnlyWayDown(graph, row, e)
    ensures e.from in x
    ensures Stands(row, widths, x, e.to, x[e.from] + (match e.guard
                                                     case Some(Cond(_)) => -90.0
                                                     case Some(Otherwise) => 90.0
                                                     case None => 0.0))
  {
    hide LaidOut, Stands, Layable;
    KeptIff(graph, start, widths, forward, fin, row, x);
    var at := Asks(e, x[e.from]);
    WantsBetween(forward, x, e, at, at);
    StandsWanted(graph, start, widths, forward, fin, row, x, e.to);
  }

  /** The branch under the condition is drawn to the left of the [else] branch. */
  lemma BranchesSplit(graph: FlatGraph, start: nat, widths: map<nat, real>, forward: seq<FlatEdge>, fin: map<nat, nat>,
                      row: map<nat, nat>, x: map<nat, real>, e: FlatEdge, f: FlatEdge)
    requires Layable(graph, start) && LaidOut(graph, start, widths, forward, fin, row, x)
    requires OnlyWayDown(graph, row, e) && OnlyWayDown(graph, row, f) && e.from == f.from
    requires e.guard.Some? && e.guard.value.Cond? && f.guard == Some(Otherwise)
    ensures e.from in x && e.to in x && f.to in x && e.to in widths && f.to in widths
    ensures x[e.to] >= x[e.from] - 90.0 && x[f.to] >= x[e.from] + 90.0
    ensures row[e.to] == row[f.to] ==> x[e.to] + widths[e.to] / 2.0 + 40.0 + widths[f.to] / 2.0 <= x[f.to]
  {
    hide LaidOut, Layable;
    KeptIff(graph, start, widths, forward, fin, row, x);
    BelowItsParent(graph, start, widths, forward, fin, row, x, e);
    BelowItsParent(graph, start, widths, forward, fin, row, x, f);
    var p, q := Asks(e, x[e.from]), Asks(f, x[f.from]);
    WantsBetween(forward, x, e, p, p);
    WantsBetween(forward, x, f, q, q);
    assert Goes(graph.nodes, forward, x, e.to, f.to);
    InTheirOrder(graph, start, widths, forward, fin, row, x, e.to, f.to);
  }

  lemma InTheirOrder(graph: FlatGraph, start: nat, widths: map<nat, real>, forward: seq<FlatEdge>, fin: map<nat, nat>,
                     row: map<nat, nat>, x: map<nat, real>, a: nat, b: nat)
    requires LaidOut(graph, start, widths, forward, fin, row, x) && a in x && b in x && a != b
    requires Goes(graph.nodes, forward, x, a, b)
    ensures a in row && b in row && a in widths && b in widths
    ensures row[a] == row[b] ==> x[a] + widths[a] / 2.0 + 40.0 + widths[b] / 2.0 <= x[b]
  {
    hide IsForward, Longest, Goes, Snug, Wanted;
  }

  /** Where two ways meet, the node stands half way between them. */
  lemma MeetsHalfWay(graph: FlatGraph, start: nat, widths: map<nat, real>, forward: seq<FlatEdge>, fin: map<nat, nat>,
                     row: map<nat, nat>, x: map<nat, real>, e: FlatEdge, f: FlatEdge)
    requires Layable(graph, start) && LaidOut(graph, start, widths, forward, fin, row, x)
    requires e in graph.edges && f in graph.edges && e != f && e.to == f.to && e.guard == None == f.guard
    requires LeadsDown(row, e) && LeadsDown(row, f) && multiset(graph.edges)[e] == 1 == multiset(graph.edges)[f]
    requires forall g :: g in graph.edges && LeadsDown(row, g) && g.to == e.to ==> g == e || g == f
    ensures e.from in x && f.from in x && Stands(row, widths, x, e.to, (x[e.from] + x[f.from]) / 2.0)
  {
    hide LaidOut, Stands, Layable;
    KeptIff(graph, start, widths, forward, fin, row, x);
    OnceEach(graph, start, widths, forward, fin, row, x, e);
    OnceEach(graph, start, widths, forward, fin, row, x, f);
    SumOfTwo(forward, x, e, f);
    StandsWanted(graph, start, widths, forward, fin, row, x, e.to);
  }

  lemma OnceEach(graph: FlatGraph, start: nat, widths: map<nat, real>, forward: seq<FlatEdge>, fin: map<nat, nat>,
                 row: map<nat, nat>, x: map<nat, real>, e: FlatEdge)
    requires LaidOut(graph, start, widths, forward, fin, row, x) && e in forward
    ensures multiset(forward)[e] == multiset(graph.edges)[e]
  {
  }

  /** The start stands at column 0 of row 0. */
  lemma StartAtZero(graph: FlatGraph, start: nat, widths: map<nat, real>, forward: seq<FlatEdge>, fin: map<nat, nat>,
                    row: map<nat, nat>, x: map<nat, real>)
    requires Layable(graph, start) && LaidOut(graph, start, widths, forward, fin, row, x) && start in x && NoneNegative(widths)
    ensures start in row && row[start] == 0 && x[start] == 0.0
  {
    hide Longest, ColumnsOk, HasId, Wanted;
    ForwardDownhill(graph, start, forward, fin);
    NoParents(forward, x, start);
    RowZero(graph, start, widths, forward, fin, row, x, start);
    StandsWanted(graph, start, widths, forward, fin, row, x, start);
    if x[start] != 0.0 {
      var c :| Touching(row, widths, x, c, start);
      RowZero(graph, start, widths, forward, fin, row, x, c);
    }
  }

  ghost predicate NoneNegative(widths: map<nat, real>) { forall id :: id in widths ==> widths[id] >= 0.0 }

  lemma {:induction false} NoParents(forward: seq<FlatEdge>, x: map<nat, real>, id: nat)
    requires forall e :: e in forward ==> e.to != id
    ensures Wanted(forward, x, id) == 0.0
    decreases |forward|
  {
    if forward != [] {
      assert forward[|forward| - 1] in forward;
      NoParents(forward[..|forward| - 1], x, id);
    }
  }

  /** The start is alone in row 0. */
  lemma RowZero(graph: FlatGraph, start: nat, widths: map<nat, real>, forward: seq<FlatEdge>, fin: map<nat, nat>,
                row: map<nat, nat>, x: map<nat, real>, a: nat)
    requires LaidOut(graph, start, widths, forward, fin, row, x) && a in x
    ensures a in row && (row[a] == 0 <==> a == start)
  {
    hide ColumnsOk, HasId;
    assert a in row by { assert ColumnsOk(graph.nodes, forward, row, widths, x); InRows(graph, forward, row, widths, x, a); }
    assert Longest(forward, start, a, row[a]);
    var path :| IsPath(forward, start, a, path) && |path| == row[a];
    if a == start && path != [] { Acyclic(graph, start, forward, fin, start, path); }
  }

  lemma InRows(graph: FlatGraph, forward: seq<FlatEdge>, row: map<nat, nat>, widths: map<nat, real>, x: map<nat, real>, a: nat)
    requires ColumnsOk(graph.nodes, forward, row, widths, x) && a in x
    ensures a in row && a in widths
  {
  }

  /** Boxes of one row never overlap: there are 40 between any two. */
  lemma NeverOverlap(graph: FlatGraph, start: nat, widths: map<nat, real>, forward: seq<FlatEdge>, fin: map<nat, nat>,
                     row: map<nat, nat>, x: map<nat, real>, a: nat, b: nat)
    requires Layable(graph, start) && LaidOut(graph, start, widths, forward, fin, row, x)
    requires a in x && b in x && a != b
    ensures a in row && b in row && a in widths && b in widths
    ensures row[a] == row[b] ==>
              (x[a] + widths[a] / 2.0 + 40.0 <= x[b] - widths[b] / 2.0) || (x[b] + widths[b] / 2.0 + 40.0 <= x[a] - widths[a] / 2.0)
  {
    hide LaidOut, Wanted, IsForward, Longest, Reaches;
    Ordered(graph, start, widths, forward, fin, row, x, a, b);
    if Goes(graph.nodes, forward, x, a, b) {
      InTheirOrder(graph, start, widths, forward, fin, row, x, a, b);
    } else {
      InTheirOrder(graph, start, widths, forward, fin, row, x, b, a);
    }
  }

  /** Of two nodes one goes to the left of the other. */
  lemma Ordered(graph: FlatGraph, start: nat, widths: map<nat, real>, forward: seq<FlatEdge>, fin: map<nat, nat>,
                row: map<nat, nat>, x: map<nat, real>, a: nat, b: nat)
    requires LaidOut(graph, start, widths, forward, fin, row, x) && a in x && b in x && a != b
    ensures Goes(graph.nodes, forward, x, a, b) || Goes(graph.nodes, forward, x, b, a)
  {
    hide ColumnsOk, Wanted, IsForward, Longest;
    assert HasId(graph.nodes, a) && HasId(graph.nodes, b);
    var i :| 0 <= i < |graph.nodes| && graph.nodes[i].id == a;
    var k :| 0 <= k < |graph.nodes| && graph.nodes[k].id == b;
    if i < k {
      assert Earlier(graph.nodes, a, b);
    } else {
      assert Earlier(graph.nodes, b, a);
    }
  }

  // ----------------------------------------------------- the only placement

  /** Those of its row that stand to the left of `a`. */
  ghost function ToTheLeft(row: map<nat, nat>, x: map<nat, real>, a: nat): set<nat>
    requires a in x && a in row
  {
    set c | c in x && c in row && row[c] == row[a] && x[c] < x[a]
  }

  /** Two placements of the same rows that agree on the rows above `r`: no box of row `r`
      stands further left in the second. */
  lemma {:induction false} NotFurtherLeft(graph: FlatGraph, start: nat, widths: map<nat, real>, forward: seq<FlatEdge>,
                                          fin: map<nat, nat>, row: map<nat, nat>, x: map<nat, real>, y: map<nat, real>, a: nat)
    requires LaidOut(graph, start, widths, forward, fin, row, x) && LaidOut(graph, start, widths, forward, fin, row, y)
    requires NoneNegative(widths) && a in x && a in y && a in row
    requires forall c :: c in x && c in row && row[c] == row[a] ==> Wanted(forward, x, c) == Wanted(forward, y, c)
    ensures y[a] >= x[a]
    decreases ToTheLeft(row, x, a)
  {
    hide LaidOut, Wanted, IsForward, Longest, Goes;
    Placed(graph, start, widths, forward, fin, row, y, a);
    Placed(graph, start, widths, forward, fin, row, x, a);
    if x[a] != Wanted(forward, x, a) {
      var c :| Nudges(graph.nodes, forward, row, widths, x, c, a);
      assert c in ToTheLeft(row, x, a) && c !in ToTheLeft(row, x, c);
      SameNodes(graph, start, widths, forward, fin, row, x, y, c);
      NotFurtherLeft(graph, start, widths, forward, fin, row, x, y, c);
      SameOrder(graph.nodes, forward, x, y, c, a);
      InTheirOrder(graph, start, widths, forward, fin, row, y, c, a);
    }
  }

  lemma Placed(graph: FlatGraph, start: nat, widths: map<nat, real>, forward: seq<FlatEdge>, fin: map<nat, nat>,
               row: map<nat, nat>, x: map<nat, real>, a: nat)
    requires LaidOut(graph, start, widths, forward, fin, row, x) && a in x
    ensures a in row && a in widths && x[a] >= Wanted(forward, x, a) && Snug(graph.nodes, forward, row, widths, x, a)
  {
    hide Wanted, IsForward, Longest, Snug, Goes;
  }

  lemma SameNodes(graph: FlatGraph, start: nat, widths: map<nat, real>, forward: seq<FlatEdge>, fin: map<nat, nat>,
                  row: map<nat, nat>, x: map<nat, real>, y: map<nat, real>, a: nat)
    requires LaidOut(graph, start, widths, forward, fin, row, x) && LaidOut(graph, start, widths, forward, fin, row, y)
    ensures a in x <==> a in y
  {
    hide IsForward, Longest, ColumnsOk;
  }

  lemma SameOrder(nodes: seq<FlatNode>, forward: seq<FlatEdge>, x: map<nat, real>, y: map<nat, real>, a: nat, b: nat)
    requires Goes(nodes, forward, x, a, b)
    requires Wanted(forward, x, a) == Wanted(forward, y, a) && Wanted(forward, x, b) == Wanted(forward, y, b)
    ensures Goes(nodes, forward, y, a, b)
  {
  }

  lemma {:induction false} RowsAgree(graph: FlatGraph, start: nat, widths: map<nat, real>, forward: seq<FlatEdge>,
                                     fin: map<nat, nat>, row: map<nat, nat>, x: map<nat, real>, y: map<nat, real>, r: nat)
    requires Layable(graph, start) && NoneNegative(widths)
    requires LaidOut(graph, start, widths, forward, fin, row, x) && LaidOut(graph, start, widths, forward, fin, row, y)
    ensures forall a :: a in x && a in row && row[a] < r ==> a in y && x[a] == y[a]
    decreases r
  {
    if r > 0 {
      hide LaidOut, Layable, Wanted;
      RowsAgree(graph, start, widths, forward, fin, row, x, y, r - 1);
      forall a | a in x && a in row && row[a] == r - 1 ensures a in y && x[a] == y[a] {
        SameNodes(graph, start, widths, forward, fin, row, x, y, a);
        forall c | c in x && c in row && row[c] == row[a] ensures Wanted(forward, x, c) == Wanted(forward, y, c) {
          WantsAgree(graph, start, widths, forward, fin, row, x, y, r - 1, c);
        }
        SameKeys(graph, start, widths, forward, fin, row, x, y);
        NotFurtherLeft(graph, start, widths, forward, fin, row, x, y, a);
        NotFurtherLeft(graph, start, widths, forward, fin, row, y, x, a);
      }
    }
  }

  lemma SameKeys(graph: FlatGraph, start: nat, widths: map<nat, real>, forward: seq<FlatEdge>, fin: map<nat, nat>,
                 row: map<nat, nat>, x: map<nat, real>, y: map<nat, real>)
    requires LaidOut(graph, start, widths, forward, fin, row, x) && LaidOut(graph, start, widths, forward, fin, row, y)
    ensures forall a :: a in x <==> a in y
  {
    hide IsForward, Longest, ColumnsOk;
  }

  lemma WantsAgree(graph: FlatGraph, start: nat, widths: map<nat, real>, forward: seq<FlatEdge>, fin: map<nat, nat>,
                   row: map<nat, nat>, x: map<nat, real>, y: map<nat, real>, r: nat, c: nat)
    requires Layable(graph, start)
    requires LaidOut(graph, start, widths, forward, fin, row, x) && LaidOut(graph, start, widths, forward, fin, row, y)
    requires forall a :: a in x && a in row && row[a] < r ==> a in y && x[a] == y[a]
    requires c in x && c in row && row[c] == r
    ensures Wanted(forward, x, c) == Wanted(forward, y, c)
  {
    hide LaidOut, Layable;
    KeptIff(graph, start, widths, forward, fin, row, x);
    WantedSame(forward, x, y, c);
  }

  /** Given which edges are kept, there is only one layout. */
  lemma OnlyLayout(graph: FlatGraph, start: nat, widths: map<nat, real>, forward: seq<FlatEdge>, fin: map<nat, nat>,
                   row: map<nat, nat>, x: map<nat, real>, row2: map<nat, nat>, y: map<nat, real>)
    requires Layable(graph, start) && NoneNegative(widths)
    requires LaidOut(graph, start, widths, forward, fin, row, x) && LaidOut(graph, start, widths, forward, fin, row2, y)
    ensures row == row2 && x == y
  {
    hide ColumnsOk, IsForward, HasId;
    forall v | v in row ensures row[v] == row2[v] {
      assert Longest(forward, start, v, row[v]) && Longest(forward, start, v, row2[v]);
    }
    assert row.Keys == row2.Keys;
    assert row == row2;
    SameKeys(graph, start, widths, forward, fin, row, x, y);
    forall a | a in x ensures x[a] == y[a] {
      InRows(graph, forward, row, widths, x, a);
      RowsAgree(graph, start, widths, forward, fin, row, x, y, row[a] + 1);
    }
  }
}
