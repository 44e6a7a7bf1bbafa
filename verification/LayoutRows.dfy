/** Rows of the layered layout (src/activity.rs): a worklist over the forward edges that
    releases a node once all its incoming edges are counted off.  Proved: every node
    gets its longest distance from the start. */
module LayoutRows {
  import opened FlatGraphs
  import opened FlatPaths
  import opened ForwardEdges

  /** Some forward path from `start` to `v` has `n` edges. */
  ghost predicate HasPath(edges: seq<FlatEdge>, start: nat, v: nat, n: nat) {
    exists path :: IsPath(edges, start, v, path) && |path| == n
  }

  /** `n` is the length of a longest path from `start` to `v`. */
  ghost predicate Longest(edges: seq<FlatEdge>, start: nat, v: nat, n: nat) {
    HasPath(edges, start, v, n) && forall path :: IsPath(edges, start, v, path) ==> |path| <= n
  }

  lemma HasPathStep(edges: seq<FlatEdge>, start: nat, e: FlatEdge, n: nat)
    requires HasPath(edges, start, e.from, n) && e in edges
    ensures HasPath(edges, start, e.to, n + 1)
  {
    var path :| IsPath(edges, start, e.from, path) && |path| == n;
    assert IsPath(edges, e.to, e.to, []);
    assert IsPath(edges, e.from, e.to, [e]) by { assert [e][1..] == []; }
    PathJoin(edges, start, e.from, e.to, path, [e]);
  }

  // ------------------------------------------------------ counting off edges

  /** An edge is counted off once its source is, or when it is among the first `i`
      edges and leaves the node being processed. */
  predicate Counted(edges: seq<FlatEdge>, done: set<nat>, id: nat, i: nat, k: nat) requires k < |edges| {
    edges[k].from in done || (edges[k].from == id && k < i)
  }

  /** How many of the first `n` edges into `v` are still open. */
  function Open(edges: seq<FlatEdge>, v: nat, done: set<nat>, id: nat, i: nat, n: nat): nat
    requires n <= |edges|
  {
    if n == 0 then 0
    else Open(edges, v, done, id, i, n - 1)
         + (if edges[n - 1].to == v && !Counted(edges, done, id, i, n - 1) then 1 else 0)
  }

  lemma {:induction false} OpenZero(edges: seq<FlatEdge>, v: nat, done: set<nat>, id: nat, i: nat, n: nat)
    requires n <= |edges|
    ensures Open(edges, v, done, id, i, n) == 0 <==>
              forall k :: 0 <= k < n && edges[k].to == v ==> Counted(edges, done, id, i, k)
    decreases n
  {
    if n > 0 { OpenZero(edges, v, done, id, i, n - 1); }
  }

  /** Counting off edge `i` lowers the count of its target only. */
  lemma {:induction false} OpenStep(edges: seq<FlatEdge>, v: nat, done: set<nat>, id: nat, i: nat, n: nat)
    requires n <= |edges| && i < |edges|
    ensures Open(edges, v, done, id, i + 1, n) ==
      Open(edges, v, done, id, i, n)
        - (if i < n && edges[i].to == v && edges[i].from == id && id !in done then 1 else 0)
    decreases n
  {
    if n > 0 { OpenStep(edges, v, done, id, i, n - 1); }
  }

  /** With all its edges counted off, the node itself is. */
  lemma {:induction false} OpenDone(edges: seq<FlatEdge>, v: nat, done: set<nat>, id: nat, id2: nat, n: nat)
    requires n <= |edges|
    ensures Open(edges, v, done, id, |edges|, n) == Open(edges, v, done + {id}, id2, 0, n)
    decreases n
  {
    if n > 0 { OpenDone(edges, v, done, id, id2, n - 1); }
  }

  // -------------------------------------------------------------- the invariant

  ghost predicate Touched(edges: seq<FlatEdge>, done: set<nat>, id: nat, i: nat, v: nat) {
    exists k :: 0 <= k < |edges| && edges[k].to == v && Counted(edges, done, id, i, k)
  }

  ghost predicate IncomingOk(edges: seq<FlatEdge>, incoming: map<nat, nat>, done: set<nat>, id: nat, i: nat) {
    && (forall k :: 0 <= k < |edges| ==> edges[k].to in incoming)
    && (forall v :: v in incoming ==> incoming[v] == Open(edges, v, done, id, i, |edges|))
  }

  ghost predicate RowsOk(edges: seq<FlatEdge>, start: nat, fin: map<nat, nat>, row: map<nat, nat>,
                         done: set<nat>, id: nat, i: nat) {
    && (forall v :: v in row ==> v in fin && HasPath(edges, start, v, row[v]))
    && (forall k :: 0 <= k < |edges| && Counted(edges, done, id, i, k) ==>
          edges[k].from in row && edges[k].to in row && row[edges[k].to] > row[edges[k].from])
  }

  /** `settled`: the nodes processed, being processed, or ready. */
  ghost predicate SettledOk(edges: seq<FlatEdge>, start: nat, fin: map<nat, nat>, row: map<nat, nat>,
                            settled: set<nat>, done: set<nat>, id: nat, i: nat) {
    && start in settled && settled <= fin.Keys && settled <= row.Keys && done <= settled
    && (forall v :: v in settled && v != start ==> Open(edges, v, done, id, i, |edges|) == 0)
    && (forall v :: v != start && Touched(edges, done, id, i, v) && Open(edges, v, done, id, i, |edges|) == 0 ==> v in settled)
  }

  ghost predicate RowInv(edges: seq<FlatEdge>, start: nat, fin: map<nat, nat>, incoming: map<nat, nat>,
                         row: map<nat, nat>, settled: set<nat>, done: set<nat>, id: nat, i: nat) {
    && IncomingOk(edges, incoming, done, id, i) && RowsOk(edges, start, fin, row, done, id, i)
    && SettledOk(edges, start, fin, row, settled, done, id, i)
  }

  /** Edges that run down a numbering of the nodes and never enter the start. */
  ghost predicate Downhill(edges: seq<FlatEdge>, start: nat, fin: map<nat, nat>) {
    && start in fin
    && forall e :: e in edges ==> e.from in fin && e.to in fin && fin[e.to] < fin[e.from] && e.to != start
  }

  lemma ForwardDownhill(graph: FlatGraph, start: nat, forward: seq<FlatEdge>, fin: map<nat, nat>)
    requires IsForward(graph, start, forward, fin)
    ensures Downhill(forward, start, fin)
  {
    forall e | e in forward ensures e.to != start {
      var path :| IsPath(forward, start, e.from, path);
      PathFin(graph, start, forward, fin, start, e.from, path);
    }
  }

  lemma SkipEdge(edges: seq<FlatEdge>, start: nat, fin: map<nat, nat>, incoming: map<nat, nat>,
                 row: map<nat, nat>, settled: set<nat>, done: set<nat>, id: nat, i: nat)
    requires RowInv(edges, start, fin, incoming, row, settled, done, id, i)
    requires i < |edges| && edges[i].from != id
    ensures RowInv(edges, start, fin, incoming, row, settled, done, id, i + 1)
  {
    forall v ensures Open(edges, v, done, id, i + 1, |edges|) == Open(edges, v, done, id, i, |edges|) {
      OpenStep(edges, v, done, id, i, |edges|);
    }
    forall v | Touched(edges, done, id, i + 1, v) ensures Touched(edges, done, id, i, v) {
      var k :| 0 <= k < |edges| && edges[k].to == v && Counted(edges, done, id, i + 1, k);
      assert Counted(edges, done, id, i, k);
    }
    forall k | 0 <= k < |edges| && Counted(edges, done, id, i + 1, k) ensures Counted(edges, done, id, i, k) {}
  }

  /** The row of the target after looking at one more edge into it. */
  function Raised(row: map<nat, nat>, to: nat, next: nat): map<nat, nat> {
    row[to := if to in row && row[to] > next then row[to] else next]
  }

  lemma TakeEdge(edges: seq<FlatEdge>, start: nat, fin: map<nat, nat>, incoming: map<nat, nat>,
                 row: map<nat, nat>, settled: set<nat>, done: set<nat>, id: nat, i: nat)
    requires Downhill(edges, start, fin)
    requires RowInv(edges, start, fin, incoming, row, settled, done, id, i)
    requires i < |edges| && edges[i].from == id && id in settled && id !in done
    ensures var to := edges[i].to;
      && to in incoming && incoming[to] > 0 && to !in settled
      && RowInv(edges, start, fin, incoming[to := incoming[to] - 1], Raised(row, to, row[id] + 1),
                if incoming[to] == 1 then settled + {to} else settled, done, id, i + 1)
  {
    hide IncomingOk, RowsOk, SettledOk, Open;
    TakeOpen(edges, start, fin, incoming, row, settled, done, id, i);
    TakeIncoming(edges, incoming, done, id, i);
    TakeRows(edges, start, fin, row, settled, done, id, i);
    TakeSettled(edges, start, fin, incoming, row, settled, done, id, i);
  }

  lemma TakeOpen(edges: seq<FlatEdge>, start: nat, fin: map<nat, nat>, incoming: map<nat, nat>,
                 row: map<nat, nat>, settled: set<nat>, done: set<nat>, id: nat, i: nat)
    requires Downhill(edges, start, fin) && IncomingOk(edges, incoming, done, id, i)
    requires SettledOk(edges, start, fin, row, settled, done, id, i)
    requires i < |edges| && edges[i].from == id && id !in done
    ensures var to := edges[i].to;
      to in incoming && incoming[to] == Open(edges, to, done, id, i, |edges|) > 0 && to !in settled
      && to != start && to in fin && to != id && settled <= row.Keys && done <= settled
  {
    var to := edges[i].to;
    OpenZero(edges, to, done, id, i, |edges|);
    assert edges[i] in edges;
    assert !Counted(edges, done, id, i, i);
  }

  lemma TakeIncoming(edges: seq<FlatEdge>, incoming: map<nat, nat>, done: set<nat>, id: nat, i: nat)
    requires IncomingOk(edges, incoming, done, id, i)
    requires i < |edges| && edges[i].from == id && id !in done && edges[i].to in incoming && incoming[edges[i].to] > 0
    ensures IncomingOk(edges, incoming[edges[i].to := incoming[edges[i].to] - 1], done, id, i + 1)
  {
    hide Open;
    forall v ensures Open(edges, v, done, id, i + 1, |edges|) ==
        Open(edges, v, done, id, i, |edges|) - (if edges[i].to == v then 1 else 0)
    {
      OpenStep(edges, v, done, id, i, |edges|);
    }
  }

  lemma TakeRows(edges: seq<FlatEdge>, start: nat, fin: map<nat, nat>, row: map<nat, nat>,
                 settled: set<nat>, done: set<nat>, id: nat, i: nat)
    requires RowsOk(edges, start, fin, row, done, id, i) && settled <= row.Keys && done <= settled
    requires i < |edges| && edges[i].from == id && id in settled && edges[i].to !in settled && edges[i].to in fin
    ensures RowsOk(edges, start, fin, Raised(row, edges[i].to, row[id] + 1), done, id, i + 1)
  {
    hide HasPath;
    HasPathStep(edges, start, edges[i], row[id]);
    forall k | 0 <= k < |edges| && Counted(edges, done, id, i + 1, k) ensures k == i || Counted(edges, done, id, i, k) {}
  }

  lemma TakeSettled(edges: seq<FlatEdge>, start: nat, fin: map<nat, nat>, incoming: map<nat, nat>,
                    row: map<nat, nat>, settled: set<nat>, done: set<nat>, id: nat, i: nat)
    requires SettledOk(edges, start, fin, row, settled, done, id, i)
    requires i < |edges| && edges[i].from == id && id in settled && id !in done
    requires var to := edges[i].to;
      to in incoming && incoming[to] == Open(edges, to, done, id, i, |edges|) > 0 && to !in settled && to in fin
    ensures SettledOk(edges, start, fin, Raised(row, edges[i].to, row[id] + 1),
                      if incoming[edges[i].to] == 1 then settled + {edges[i].to} else settled, done, id, i + 1)
  {
    hide Open;
    var to := edges[i].to;
    forall v ensures Open(edges, v, done, id, i + 1, |edges|) ==
        Open(edges, v, done, id, i, |edges|) - (if edges[i].to == v then 1 else 0)
    {
      OpenStep(edges, v, done, id, i, |edges|);
    }
    forall v | v != to && Touched(edges, done, id, i + 1, v) ensures Touched(edges, done, id, i, v) {
      var k :| 0 <= k < |edges| && edges[k].to == v && Counted(edges, done, id, i + 1, k);
      assert Counted(edges, done, id, i, k);
    }
  }

  lemma FinishNode(edges: seq<FlatEdge>, start: nat, fin: map<nat, nat>, incoming: map<nat, nat>,
                   row: map<nat, nat>, settled: set<nat>, done: set<nat>, id: nat, id2: nat)
    requires RowInv(edges, start, fin, incoming, row, settled, done, id, |edges|) && id in settled
    ensures RowInv(edges, start, fin, incoming, row, settled, done + {id}, id2, 0)
  {
    forall v ensures Open(edges, v, done, id, |edges|, |edges|) == Open(edges, v, done + {id}, id2, 0, |edges|) {
      OpenDone(edges, v, done, id, id2, |edges|);
    }
    forall k | 0 <= k < |edges| && Counted(edges, done + {id}, id2, 0, k) ensures Counted(edges, done, id, |edges|, k) {}
    forall v | Touched(edges, done + {id}, id2, 0, v) ensures Touched(edges, done, id, |edges|, v) {
      var k :| 0 <= k < |edges| && edges[k].to == v && Counted(edges, done + {id}, id2, 0, k);
      assert Counted(edges, done, id, |edges|, k);
    }
  }

  /** With nothing processed, which node comes next makes no difference. */
  lemma {:induction false} OpenStart(edges: seq<FlatEdge>, v: nat, done: set<nat>, id: nat, id2: nat, n: nat)
    requires n <= |edges|
    ensures Open(edges, v, done, id, 0, n) == Open(edges, v, done, id2, 0, n)
    decreases n
  {
    if n > 0 { OpenStart(edges, v, done, id, id2, n - 1); }
  }

  lemma PickNode(edges: seq<FlatEdge>, start: nat, fin: map<nat, nat>, incoming: map<nat, nat>,
                 row: map<nat, nat>, settled: set<nat>, done: set<nat>, id: nat, id2: nat)
    requires RowInv(edges, start, fin, incoming, row, settled, done, id, 0)
    ensures RowInv(edges, start, fin, incoming, row, settled, done, id2, 0)
  {
    forall v ensures Open(edges, v, done, id, 0, |edges|) == Open(edges, v, done, id2, 0, |edges|) {
      OpenStart(edges, v, done, id, id2, |edges|);
    }
    forall v | Touched(edges, done, id2, 0, v) ensures Touched(edges, done, id, 0, v) {
      var k :| 0 <= k < |edges| && edges[k].to == v && Counted(edges, done, id2, 0, k);
      assert Counted(edges, done, id, 0, k);
    }
    forall k | 0 <= k < |edges| && Counted(edges, done, id2, 0, k) ensures Counted(edges, done, id, 0, k) {}
  }

  /** The in-degree of every target: the first loop of `layout`. */
  method CountIncoming(edges: seq<FlatEdge>) returns (incoming: map<nat, nat>)
    ensures IncomingOk(edges, incoming, {}, 0, 0)
  {
    incoming := map[];
    var i := 0;
    while i < |edges|
      invariant 0 <= i <= |edges|
      invariant forall k :: 0 <= k < i ==> edges[k].to in incoming
      invariant forall v :: v in incoming ==> incoming[v] == Open(edges, v, {}, 0, 0, i)
      invariant forall v :: v !in incoming ==> Open(edges, v, {}, 0, 0, i) == 0
    {
      var to := edges[i].to;
      incoming := incoming[to := (if to in incoming then incoming[to] else 0) + 1];
      i := i + 1;
    }
  }

  lemma StartInv(edges: seq<FlatEdge>, start: nat, fin: map<nat, nat>, incoming: map<nat, nat>)
    requires start in fin && IncomingOk(edges, incoming, {}, 0, 0)
    ensures RowInv(edges, start, fin, incoming, map[start := 0], {start}, {}, 0, 0)
  {
    assert IsPath(edges, start, start, []);
  }

  /** `ready` lists the settled nodes that wait their turn, once each; `busy` is the
      one being processed, if any. */
  ghost predicate ReadyOk(ready: seq<nat>, settled: set<nat>, done: set<nat>, busy: set<nat>) {
    && (forall x :: x in ready ==> x in settled && x !in done && x !in busy)
    && (forall x :: x in settled ==> x in ready || x in done || x in busy)
    && (forall i, k :: 0 <= i < k < |ready| ==> ready[i] != ready[k])
  }

  lemma PopReady(ready: seq<nat>, settled: set<nat>, done: set<nat>)
    requires ReadyOk(ready, settled, done, {}) && ready != []
    ensures var id := ready[|ready| - 1];
      ReadyOk(ready[..|ready| - 1], settled, done, {id}) && id in settled && id !in done
  {
    var id := ready[|ready| - 1];
    var rest := ready[..|ready| - 1];
    assert ready == rest + [id];
    forall x | x in settled && x !in done && x != id ensures x in rest { assert x in ready; }
  }

  lemma PushReady(ready: seq<nat>, settled: set<nat>, done: set<nat>, busy: set<nat>, to: nat)
    requires ReadyOk(ready, settled, done, busy) && to !in settled && to !in done && to !in busy
    ensures ReadyOk(ready + [to], settled + {to}, done, busy)
  {
    forall x | x in settled + {to} && x !in done && x !in busy ensures x in ready + [to] {
      assert x == to ==> (ready + [to])[|ready|] == x;
    }
  }

  /** Every node's row; `incoming` never lacks an entry and never goes below zero. */
  method Rows(forward: seq<FlatEdge>, start: nat, ghost graph: FlatGraph, ghost fin: map<nat, nat>)
    returns (row: map<nat, nat>)
    requires IsForward(graph, start, forward, fin)
    ensures row.Keys == fin.Keys
    ensures forall v :: v in row ==> Longest(forward, start, v, row[v])
  {
    hide RowInv, Downhill, Longest, IsForward, ReadyOk, Open;
    ForwardDownhill(graph, start, forward, fin);
    var incoming: map<nat, nat> := CountIncoming(forward);
    row := map[start := 0];
    var ready := [start];
    ghost var done, settled: set<nat> := {}, {start};
    StartRows(graph, forward, start, fin, incoming);
    while ready != []
      invariant RowInv(forward, start, fin, incoming, row, settled, done, 0, 0)
      invariant ReadyOk(ready, settled, done, {}) && settled <= fin.Keys
      decreases fin.Keys - done
    {
      var id := ready[|ready| - 1];
      PopReady(ready, settled, done);
      ready := ready[..|ready| - 1];
      Settled(forward, start, fin, incoming, row, settled, done, 0, 0);
      PickNode(forward, start, fin, incoming, row, settled, done, 0, id);
      var next := row[id] + 1;
      var i := 0;
      while i < |forward|
        invariant 0 <= i <= |forward|
        invariant RowInv(forward, start, fin, incoming, row, settled, done, id, i)
        invariant ReadyOk(ready, settled, done, {id})
        invariant id in settled && id !in done && id in row && row[id] + 1 == next
      {
        var e := forward[i];
        if e.from == id {
          TakeEdge(forward, start, fin, incoming, row, settled, done, id, i);
          Settled(forward, start, fin, incoming, row, settled, done, id, i);
          row := Raised(row, e.to, next);
          incoming := incoming[e.to := incoming[e.to] - 1];
          if incoming[e.to] == 0 {
            PushReady(ready, settled, done, {id}, e.to);
            ready := ready + [e.to];
            settled := settled + {e.to};
          }
        } else {
          SkipEdge(forward, start, fin, incoming, row, settled, done, id, i);
        }
        i := i + 1;
      }
      FinishNode(forward, start, fin, incoming, row, settled, done, id, 0);
      Settled(forward, start, fin, incoming, row, settled, done, id, |forward|);
      FinishReady(ready, settled, done, id);
      done := done + {id};
    }
    RowsDone(graph, forward, start, fin, incoming, row, settled, done, ready);
  }

  lemma StartRows(graph: FlatGraph, edges: seq<FlatEdge>, start: nat, fin: map<nat, nat>, incoming: map<nat, nat>)
    requires IsForward(graph, start, edges, fin) && IncomingOk(edges, incoming, {}, 0, 0)
    ensures RowInv(edges, start, fin, incoming, map[start := 0], {start}, {}, 0, 0)
    ensures ReadyOk([start], {start}, {}, {}) && {start} <= fin.Keys
  {
    StartInv(edges, start, fin, incoming);
    assert [start][0] == start;
  }

  lemma FinishReady(ready: seq<nat>, settled: set<nat>, done: set<nat>, id: nat)
    requires ReadyOk(ready, settled, done, {id})
    ensures ReadyOk(ready, settled, done + {id}, {})
  {
  }

  lemma RowsDone(graph: FlatGraph, edges: seq<FlatEdge>, start: nat, fin: map<nat, nat>, incoming: map<nat, nat>,
                 row: map<nat, nat>, settled: set<nat>, done: set<nat>, ready: seq<nat>)
    requires IsForward(graph, start, edges, fin) && RowInv(edges, start, fin, incoming, row, settled, done, 0, 0)
    requires ReadyOk(ready, settled, done, {}) && ready == []
    ensures row.Keys == fin.Keys
    ensures forall v :: v in row ==> Longest(edges, start, v, row[v])
  {
    hide RowInv, Longest, IsForward;
    assert settled <= done;
    AllSettled(graph, edges, start, fin, incoming, row, settled, done);
    forall v | v in row ensures Longest(edges, start, v, row[v]) {
      RowLongest(graph, edges, start, fin, incoming, row, settled, done, v);
    }
  }

  lemma Settled(edges: seq<FlatEdge>, start: nat, fin: map<nat, nat>, incoming: map<nat, nat>,
                row: map<nat, nat>, settled: set<nat>, done: set<nat>, id: nat, i: nat)
    requires RowInv(edges, start, fin, incoming, row, settled, done, id, i)
    ensures settled <= fin.Keys && settled <= row.Keys && done <= settled && row.Keys <= fin.Keys
    ensures forall v :: v in settled ==> v in row && v in fin
  {
  }

  /** The last edge of a path. */
  lemma {:induction false} PathLast(edges: seq<FlatEdge>, a: nat, b: nat, path: seq<FlatEdge>)
    requires IsPath(edges, a, b, path) && path != []
    ensures path[|path| - 1] in edges && path[|path| - 1].to == b
    decreases |path|
  {
    if |path| > 1 { PathLast(edges, path[0].to, b, path[1..]); }
  }

  /** When nothing is ready, everything was processed: the earliest node left over
      would have all its edges counted off. */
  lemma {:induction false} Processed(graph: FlatGraph, edges: seq<FlatEdge>, start: nat, fin: map<nat, nat>, incoming: map<nat, nat>,
                                     row: map<nat, nat>, settled: set<nat>, done: set<nat>, v: nat, bound: nat)
    requires IsForward(graph, start, edges, fin) && RowInv(edges, start, fin, incoming, row, settled, done, 0, 0)
    requires settled <= done && v in fin && (forall x :: x in fin ==> fin[x] <= bound)
    ensures v in done
    decreases bound - fin[v]
  {
    hide IsPath;
    if v != start {
      var path :| IsPath(edges, start, v, path);
      NonEmpty(edges, start, v, path);
      PathLast(edges, start, v, path);
      var last := path[|path| - 1];
      var k0 :| 0 <= k0 < |edges| && edges[k0] == last;
      forall k | 0 <= k < |edges| && edges[k].to == v ensures Counted(edges, done, 0, 0, k) {
        assert edges[k] in edges;
        Processed(graph, edges, start, fin, incoming, row, settled, done, edges[k].from, bound);
      }
      OpenZero(edges, v, done, 0, 0, |edges|);
      assert Counted(edges, done, 0, 0, k0);
      assert Touched(edges, done, 0, 0, v);
    }
  }

  lemma NonEmpty(edges: seq<FlatEdge>, a: nat, b: nat, path: seq<FlatEdge>)
    requires IsPath(edges, a, b, path) && a != b
    ensures path != []
  {
  }

  lemma {:induction false} Bounded(fin: map<nat, nat>) returns (bound: nat)
    ensures forall x :: x in fin ==> fin[x] <= bound
    decreases |fin|
  {
    if fin.Keys == {} { return 0; }
    var x :| x in fin;
    var rest := fin - {x};
    bound := Bounded(rest);
    bound := if fin[x] > bound then fin[x] else bound;
    forall y | y in fin ensures fin[y] <= bound { assert y == x || y in rest; }
  }

  lemma AllSettled(graph: FlatGraph, edges: seq<FlatEdge>, start: nat, fin: map<nat, nat>, incoming: map<nat, nat>,
                   row: map<nat, nat>, settled: set<nat>, done: set<nat>)
    requires IsForward(graph, start, edges, fin) && RowInv(edges, start, fin, incoming, row, settled, done, 0, 0)
    requires settled <= done
    ensures done == fin.Keys && row.Keys == fin.Keys
  {
    var bound := Bounded(fin);
    forall v | v in fin ensures v in done {
      Processed(graph, edges, start, fin, incoming, row, settled, done, v, bound);
    }
  }

  /** Rows rise along every path. */
  lemma {:induction false} RowsRise(edges: seq<FlatEdge>, row: map<nat, nat>, a: nat, b: nat, path: seq<FlatEdge>)
    requires forall e :: e in edges ==> e.from in row && e.to in row && row[e.to] > row[e.from]
    requires IsPath(edges, a, b, path) && a in row
    ensures b in row && row[b] >= row[a] + |path|
    decreases |path|
  {
    if path != [] { RowsRise(edges, row, path[0].to, b, path[1..]); }
  }

  lemma RowLongest(graph: FlatGraph, edges: seq<FlatEdge>, start: nat, fin: map<nat, nat>, incoming: map<nat, nat>,
                   row: map<nat, nat>, settled: set<nat>, done: set<nat>, v: nat)
    requires IsForward(graph, start, edges, fin) && RowInv(edges, start, fin, incoming, row, settled, done, 0, 0)
    requires done == fin.Keys && v in row
    ensures Longest(edges, start, v, row[v])
  {
    forall e | e in edges ensures e.from in row && e.to in row && row[e.to] > row[e.from] {
      var k :| 0 <= k < |edges| && edges[k] == e;
      assert Counted(edges, done, 0, 0, k);
    }
    forall path | IsPath(edges, start, v, path) ensures |path| <= row[v] {
      RowsRise(edges, row, start, v, path);
    }
  }
}
