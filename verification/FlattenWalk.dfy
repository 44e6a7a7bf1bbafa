/** The invariant of the depth-first walk that flattens one activity, and what each of
    its steps keeps: allocating an id, emitting an edge, entering and leaving a node. */
module FlattenWalk {
  import opened Syntax
  import opened ActivityBuild
  import opened ActivityWiring
  import opened ActivityTidy
  import opened FlatGraphs

  /** The local state of a walk: ids handed out, nodes visited, bodies placed. */
  datatype WalkState = WalkState(ids: map<NodeId, nat>, visited: set<NodeId>, subs: map<NodeId, Placement>)

  /** Nodes on the walk's stack, each with the number of its edges already emitted. */
  type Busy = map<NodeId, nat>

  function Progress(a: Activity, busy: Busy, n: NodeId): nat {
    if n in busy then busy[n] else |OutEdges(a.edges, n)|
  }

  predicate IsStructured(a: Activity, n: NodeId) { n < |a.nodes| && a.nodes[n].kind.Structured? }

  ghost predicate IdsOk(a: Activity, w: WalkState, lo: nat, next: nat) {
    && a.initial in w.ids && a.exit in w.ids
    && (forall n :: n in w.ids ==> n < |a.nodes| && lo <= w.ids[n] < next)
    && (forall n, m :: n in w.ids && m in w.ids && n != m ==> w.ids[n] != w.ids[m])
    && (forall n :: n in w.visited ==> n in w.ids)
  }

  ghost predicate SubsOk(a: Activity, w: WalkState, lo: nat, next: nat) {
    && (forall m :: m in w.subs ==> m in w.visited && IsStructured(a, m))
    && (forall m :: m in w.visited && IsStructured(a, m) ==> m in w.subs)
    && (forall m :: m in w.subs ==> InRangeSub(w.subs[m], lo, next))
    && (forall m, n :: m in w.subs && n in w.ids ==> !Within(w.subs[m], w.ids[n]))
    && (forall m, k :: m in w.subs && k in w.subs && m != k ==> Disjoint(w.subs[m], w.subs[k]))
  }

  predicate InRangeSub(p: Placement, lo: nat, next: nat) {
    lo <= p.lo && p.hi <= next && Within(p, p.entry) && Within(p, p.exit)
  }

  predicate Disjoint(p: Placement, q: Placement) { p.hi <= q.lo || q.hi <= p.lo }

  ghost predicate NodesOk(a: Activity, w: WalkState, nodes: seq<FlatNode>) {
    forall n :: n in w.ids && n < |a.nodes| && !a.nodes[n].kind.Structured? ==> HasNode(nodes, w.ids[n], a.nodes[n])
  }

  ghost predicate InnerOk(a: Activity, w: WalkState, j: Jumps, out: FlatGraph) {
    forall m :: m in w.subs && IsStructured(a, m) ==>
      Flat(a.nodes[m].kind.body, w.subs[m], BodyJumps(a, m, w.subs[m], j), out)
  }

  ghost predicate FlowOk(a: Activity, w: WalkState, j: Jumps, edges: seq<FlatEdge>, busy: Busy) {
    && (forall n :: n in busy ==> n in w.visited && n != a.exit && busy[n] <= |OutEdges(a.edges, n)|)
    && (forall n :: n in w.visited && n != a.exit ==> FlowSoFar(a, w, j, edges, busy, n))
  }

  ghost predicate FlowSoFar(a: Activity, w: WalkState, j: Jumps, edges: seq<FlatEdge>, busy: Busy, n: NodeId) {
    var out := OutEdges(a.edges, n);
    var k := Progress(a, busy, n);
    && k <= |out|
    && OutFlat(edges, From(w.ids, w.subs, n)) == Image(w.ids, w.subs, j, From(w.ids, w.subs, n), out[..k])
    && forall i :: 0 <= i < k && out[i].to.Local? ==>
         out[i].to.id in w.ids && (n !in busy ==> out[i].to.id in w.visited)
  }

  /** Nodes not walked yet, and the exit, have no edges of their own. */
  ghost predicate QuietOk(a: Activity, w: WalkState, edges: seq<FlatEdge>) {
    forall n :: n in w.ids && (n == a.exit || (n !in w.visited && !IsStructured(a, n))) ==> OutFlat(edges, w.ids[n]) == []
  }

  ghost predicate JumpsOk(a: Activity, w: WalkState, j: Jumps, lo: nat)
    requires a.initial in w.ids && a.exit in w.ids
  {
    forall id: nat :: IsJump(j, id) ==> id < lo || id == w.ids[a.initial] || id == w.ids[a.exit]
  }

  predicate IsJump(j: Jumps, id: nat) {
    j.fnFinal == Some(id) || (j.loopIds.Some? && (j.loopIds.value.0 == id || j.loopIds.value.1 == id))
  }

  ghost predicate BoundsOk(out: FlatGraph, next: nat) {
    && (forall i :: 0 <= i < |out.nodes| ==> out.nodes[i].id < next)
    && (forall i, k :: 0 <= i < k < |out.nodes| ==> out.nodes[i].id < out.nodes[k].id)
    && (forall e :: e in out.edges ==> e.from < next && e.to < next)
  }

  /** Every edge into `n` was emitted before now. */
  ghost predicate InEdgesDone(a: Activity, w: WalkState, busy: Busy, n: NodeId) {
    forall p: nat, k: nat :: k < |OutEdges(a.edges, p)| && OutEdges(a.edges, p)[k].to == Local(n)
      ==> p in w.visited && k < Progress(a, busy, p)
  }

  ghost predicate EnteredOk(a: Activity, w: WalkState, busy: Busy) {
    forall n :: n in w.ids && IsStructured(a, n) ==> InEdgesDone(a, w, busy, n)
  }

  ghost predicate Core(a: Activity, w: WalkState, j: Jumps, out: FlatGraph, lo: nat, next: nat, busy: Busy) {
    && IdsOk(a, w, lo, next) && SubsOk(a, w, lo, next) && NodesOk(a, w, out.nodes)
    && InnerOk(a, w, j, out) && FlowOk(a, w, j, out.edges, busy) && QuietOk(a, w, out.edges)
    && JumpsOk(a, w, j, lo) && BoundsOk(out, next)
  }

  ghost predicate Inv(a: Activity, w: WalkState, j: Jumps, out: FlatGraph, lo: nat, next: nat, busy: Busy) {
    Core(a, w, j, out, lo, next, busy) && EnteredOk(a, w, busy)
  }

  // ---------------------------------------------------------- local out-edges

  lemma {:induction false} OutEdgesSnoc(edges: seq<ControlFlow>, i: nat, n: NodeId)
    requires i < |edges|
    ensures OutEdges(edges[..i + 1], n) == OutEdges(edges[..i], n) + (if edges[i].from == n then [edges[i]] else [])
  {
    assert edges[..i + 1][..i] == edges[..i];
  }

  lemma {:induction false} OutEdgesPrefix(edges: seq<ControlFlow>, i: nat, n: NodeId)
    requires i <= |edges|
    ensures OutEdges(edges[..i], n) <= OutEdges(edges, n)
    decreases |edges| - i
  {
    if i < |edges| {
      OutEdgesPrefix(edges, i + 1, n);
      OutEdgesSnoc(edges, i, n);
    } else {
      assert edges[..i] == edges;
    }
  }

  /** The position in the edge list of the `k`-th edge out of `n`. */
  lemma {:induction false} OutEdgesIndex(edges: seq<ControlFlow>, n: NodeId, k: nat) returns (i: nat)
    requires k < |OutEdges(edges, n)|
    ensures i < |edges| && edges[i] == OutEdges(edges, n)[k] && edges[i].from == n
    ensures |OutEdges(edges[..i], n)| == k
    decreases |edges|
  {
    var init := edges[..|edges| - 1];
    if k < |OutEdges(init, n)| {
      i := OutEdgesIndex(init, n, k);
      assert edges[..i] == init[..i];
    } else {
      i := |edges| - 1;
    }
  }

  /** Two different edges into a structured node cannot exist. */
  lemma OneEntry(a: Activity, n: NodeId, p: NodeId, k: nat, q: NodeId, m: nat)
    requires WellFormed(a) && IsStructured(a, n)
    requires k < |OutEdges(a.edges, p)| && OutEdges(a.edges, p)[k].to == Local(n)
    requires m < |OutEdges(a.edges, q)| && OutEdges(a.edges, q)[m].to == Local(n)
    ensures p == q && k == m
  {
    var i := OutEdgesIndex(a.edges, p, k);
    var i2 := OutEdgesIndex(a.edges, q, m);
    var g := GraphOf(a);
    if i < i2 {
      assert IntoStructured(g, i);
    } else if i2 < i {
      assert IntoStructured(g, i2);
    }
  }

  // ------------------------------------------------------------ flat out-edges

  lemma {:induction false} ImageSame(ids: map<NodeId, nat>, subs: map<NodeId, Placement>,
                                     ids2: map<NodeId, nat>, subs2: map<NodeId, Placement>,
                                     j: Jumps, from: nat, out: seq<ControlFlow>)
    requires forall k :: 0 <= k < |out| && out[k].to.Local? ==> To(ids, subs, out[k].to.id) == To(ids2, subs2, out[k].to.id)
    ensures Image(ids, subs, j, from, out) == Image(ids2, subs2, j, from, out)
    decreases |out|
  {
    if out != [] {
      ImageSame(ids, subs, ids2, subs2, j, from, out[..|out| - 1]);
      assert out[|out| - 1].to.Local? ==> To(ids, subs, out[|out| - 1].to.id) == To(ids2, subs2, out[|out| - 1].to.id);
    }
  }

  /** Placing the body of `local` redirects exactly the edges that led to its stand-in id. */
  lemma {:induction false} ImageRedirect(ids: map<NodeId, nat>, subs: map<NodeId, Placement>, local: NodeId, q: Placement,
                                         j: Jumps, from: nat, out: seq<ControlFlow>)
    requires local in ids && local !in subs && !IsJump(j, ids[local])
    requires forall k :: 0 <= k < |out| && out[k].to.Local? && out[k].to.id != local ==>
               To(ids, subs, out[k].to.id) != ids[local]
    ensures Image(ids, subs[local := q], j, from, out) == Redirect(Image(ids, subs, j, from, out), ids[local], q.entry)
    decreases |out|
  {
    if out != [] {
      var last := out[|out| - 1];
      ImageRedirect(ids, subs, local, q, j, from, out[..|out| - 1]);
      var had := Land(ids, subs, j, last.to);
      var has := Land(ids, subs[local := q], j, last.to);
      if last.to.Local? && last.to.id != local {
        assert To(ids, subs, last.to.id) != ids[local];
      }
      assert had.Some? && had.value == ids[local] ==> last.to == Local(local);
      assert Image(ids, subs, j, from, out) == Image(ids, subs, j, from, out[..|out| - 1])
          + (if had.Some? then [FlatEdge(from, had.value, last.guard)] else []);
    }
  }

  lemma ImageSnoc(ids: map<NodeId, nat>, subs: map<NodeId, Placement>, j: Jumps, from: nat, out: seq<ControlFlow>, k: nat)
    requires k < |out|
    ensures Image(ids, subs, j, from, out[..k + 1]) == Image(ids, subs, j, from, out[..k]) +
      (match Land(ids, subs, j, out[k].to) case None => [] case Some(to) => [FlatEdge(from, to, out[k].guard)])
  {
    assert out[..k + 1][..k] == out[..k];
  }

  lemma FromApart(a: Activity, w: WalkState, lo: nat, next: nat, n: NodeId, m: NodeId)
    requires IdsOk(a, w, lo, next) && SubsOk(a, w, lo, next)
    requires n in w.ids && m in w.ids && n != m
    ensures From(w.ids, w.subs, n) != From(w.ids, w.subs, m)
    ensures To(w.ids, w.subs, n) != w.ids[m] && From(w.ids, w.subs, n) != w.ids[m]
  {
    if n in w.subs { assert !Within(w.subs[n], w.ids[m]) && InRangeSub(w.subs[n], lo, next); }
    if m in w.subs { assert !Within(w.subs[m], w.ids[n]) && InRangeSub(w.subs[m], lo, next); }
    if n in w.subs && m in w.subs { assert Disjoint(w.subs[n], w.subs[m]); }
  }

  /** An id may be the exit of a placed body, but is never deeper inside one. */
  ghost predicate Outside(w: WalkState, f: nat) {
    forall m :: m in w.subs && Within(w.subs[m], f) ==> f == w.subs[m].exit
  }

  lemma FromOutside(a: Activity, w: WalkState, lo: nat, next: nat, n: NodeId)
    requires IdsOk(a, w, lo, next) && SubsOk(a, w, lo, next) && n in w.ids
    ensures Outside(w, From(w.ids, w.subs, n))
  {
    forall m | m in w.subs && Within(w.subs[m], From(w.ids, w.subs, n))
      ensures From(w.ids, w.subs, n) == w.subs[m].exit
    {
      if n in w.subs {
        assert InRangeSub(w.subs[n], lo, next);
        assert m != n ==> Disjoint(w.subs[m], w.subs[n]);
      }
    }
  }

  // -------------------------------------------------------- allocating an id

  function AddNode(nodes: seq<FlatNode>, id: nat, n: Node): seq<FlatNode> {
    match Flattened(n.kind)
    case None => nodes
    case Some(kind) => nodes + [FlatNode(id, kind, n.line)]
  }

  lemma Alloc(a: Activity, w: WalkState, j: Jumps, out: FlatGraph, lo: nat, next: nat, busy: Busy, t: NodeId)
    requires Core(a, w, j, out, lo, next, busy) && t < |a.nodes| && t !in w.ids && lo <= next
    ensures Core(a, w.(ids := w.ids[t := next]), j, out.(nodes := AddNode(out.nodes, next, a.nodes[t])), lo, next + 1, busy)
  {
    AllocIds(a, w, lo, next, t);
    NodesAlloc(a, w, out.nodes, t, next);
    InnerFrame(a, w, w.(ids := w.ids[t := next]), j, out, out.(nodes := AddNode(out.nodes, next, a.nodes[t])));
    AllocFlow(a, w, j, out.edges, busy, t, next);
    AllocQuiet(a, w, out, next, t);
  }

  lemma AllocIds(a: Activity, w: WalkState, lo: nat, next: nat, t: NodeId)
    requires IdsOk(a, w, lo, next) && SubsOk(a, w, lo, next) && t < |a.nodes| && t !in w.ids && lo <= next
    ensures var w2 := w.(ids := w.ids[t := next]);
      IdsOk(a, w2, lo, next + 1) && SubsOk(a, w2, lo, next + 1)
  {
    var w2 := w.(ids := w.ids[t := next]);
    forall m | m in w2.subs ensures InRangeSub(w2.subs[m], lo, next + 1) {
      assert InRangeSub(w.subs[m], lo, next);
    }
    forall m, n | m in w2.subs && n in w2.ids ensures !Within(w2.subs[m], w2.ids[n]) {
      assert InRangeSub(w.subs[m], lo, next);
    }
  }

  lemma AllocFlow(a: Activity, w: WalkState, j: Jumps, edges: seq<FlatEdge>, busy: Busy, t: NodeId, next: nat)
    requires FlowOk(a, w, j, edges, busy) && t !in w.ids
    requires forall n :: n in w.visited ==> n in w.ids
    ensures FlowOk(a, w.(ids := w.ids[t := next]), j, edges, busy)
  {
    var w2 := w.(ids := w.ids[t := next]);
    forall n | n in w2.visited && n != a.exit ensures FlowSoFar(a, w2, j, edges, busy, n) {
      assert FlowSoFar(a, w, j, edges, busy, n);
      ImageSame(w.ids, w.subs, w2.ids, w2.subs, j, From(w.ids, w.subs, n), OutEdges(a.edges, n)[..Progress(a, busy, n)]);
    }
  }

  lemma AllocQuiet(a: Activity, w: WalkState, out: FlatGraph, next: nat, t: NodeId)
    requires QuietOk(a, w, out.edges) && BoundsOk(out, next) && t < |a.nodes| && t !in w.ids
    ensures QuietOk(a, w.(ids := w.ids[t := next]), out.edges)
    ensures BoundsOk(out.(nodes := AddNode(out.nodes, next, a.nodes[t])), next + 1)
  {
    OutFlatNone(out.edges, next);
  }

  lemma {:induction false} OutFlatNone(edges: seq<FlatEdge>, id: nat)
    requires forall e :: e in edges ==> e.from != id
    ensures OutFlat(edges, id) == []
    decreases |edges|
  {
    if edges != [] { OutFlatNone(edges[..|edges| - 1], id); }
  }

  lemma NodesAlloc(a: Activity, w: WalkState, nodes: seq<FlatNode>, t: NodeId, next: nat)
    requires NodesOk(a, w, nodes) && t < |a.nodes| && t !in w.ids
    ensures NodesOk(a, w.(ids := w.ids[t := next]), AddNode(nodes, next, a.nodes[t]))
  {
    var nodes2 := AddNode(nodes, next, a.nodes[t]);
    forall n | n in w.ids && n < |a.nodes| && !a.nodes[n].kind.Structured? ensures HasNode(nodes2, w.ids[n], a.nodes[n]) {
      assert HasNode(nodes, w.ids[n], a.nodes[n]);
    }
    if Flattened(a.nodes[t].kind).Some? {
      assert nodes2[|nodes|] == FlatNode(next, Flattened(a.nodes[t].kind).value, a.nodes[t].line);
    }
  }

  lemma InnerFrame(a: Activity, w: WalkState, w2: WalkState, j: Jumps, out: FlatGraph, out2: FlatGraph)
    requires InnerOk(a, w, j, out) && w2.subs == w.subs && out.nodes <= out2.nodes
    requires forall m :: m in w.subs ==> Spares(w.subs[m], out.edges, out2.edges)
    ensures InnerOk(a, w2, j, out2)
  {
    forall m | m in w.subs && IsStructured(a, m)
      ensures Flat(a.nodes[m].kind.body, w.subs[m], BodyJumps(a, m, w.subs[m], j), out2)
    {
      FlatFrame(a.nodes[m].kind.body, w.subs[m], BodyJumps(a, m, w.subs[m], j), out, out2);
    }
  }

  // --------------------------------------------------------- emitting an edge

  /** The next edge of `local`, the `k`-th, goes out; `None` when its jump has no target. */
  lemma Emit(a: Activity, w: WalkState, j: Jumps, out: FlatGraph, lo: nat, next: nat, busy: Busy, local: NodeId, k: nat,
             edges2: seq<FlatEdge>)
    requires Core(a, w, j, out, lo, next, busy) && lo <= next
    requires Emits(a, w, j, out.edges, busy, local, k, edges2)
    ensures Core(a, w, j, out.(edges := edges2), lo, next, busy[local := k + 1])
  {
    var f := From(w.ids, w.subs, local);
    EmitOut(a, w, j, out.edges, busy, local, k, edges2);
    FromOutside(a, w, lo, next, local);
    forall m | m in w.subs ensures Spares(w.subs[m], out.edges, edges2) {}
    InnerFrame(a, w, w, j, out, out.(edges := edges2));
    EmitFlow(a, w, j, out.edges, lo, next, busy, local, k, edges2);
    EmitQuiet(a, w, j, out.edges, lo, next, busy, local, k, edges2);
    EmitBounds(a, w, j, out, lo, next, busy, local, k, edges2);
  }

  ghost predicate Emits(a: Activity, w: WalkState, j: Jumps, edges: seq<FlatEdge>, busy: Busy, local: NodeId, k: nat,
                        edges2: seq<FlatEdge>) {
    && local in busy && local in w.visited && local in w.ids && local != a.exit
    && busy[local] == k < |OutEdges(a.edges, local)|
    && var e := OutEdges(a.edges, local)[k];
       && (e.to.Local? ==> e.to.id in w.ids)
       && edges2 == match Land(w.ids, w.subs, j, e.to)
                    case None => edges
                    case Some(to) => edges + [FlatEdge(From(w.ids, w.subs, local), to, e.guard)]
  }

  lemma EmitOut(a: Activity, w: WalkState, j: Jumps, edges: seq<FlatEdge>, busy: Busy, local: NodeId, k: nat,
                edges2: seq<FlatEdge>)
    requires Emits(a, w, j, edges, busy, local, k, edges2)
    ensures forall id: nat :: id != From(w.ids, w.subs, local) ==> OutFlat(edges2, id) == OutFlat(edges, id)
  {
    forall id: nat | id != From(w.ids, w.subs, local) ensures OutFlat(edges2, id) == OutFlat(edges, id) {
      if edges2 != edges { OutFlatPush(edges, edges2[|edges|], id); }
    }
  }

  lemma EmitFlow(a: Activity, w: WalkState, j: Jumps, edges: seq<FlatEdge>, lo: nat, next: nat, busy: Busy,
                 local: NodeId, k: nat, edges2: seq<FlatEdge>)
    requires FlowOk(a, w, j, edges, busy) && IdsOk(a, w, lo, next) && SubsOk(a, w, lo, next)
    requires Emits(a, w, j, edges, busy, local, k, edges2)
    ensures FlowOk(a, w, j, edges2, busy[local := k + 1])
  {
    hide OutEdges, Image, OutFlat;
    forall n | n in w.visited && n != a.exit ensures FlowSoFar(a, w, j, edges2, busy[local := k + 1], n) {
      assert FlowSoFar(a, w, j, edges, busy, n);
      if n == local {
        EmitHere(a, w, j, edges, busy, local, k, edges2);
      } else {
        FromApart(a, w, lo, next, n, local);
        EmitOut(a, w, j, edges, busy, local, k, edges2);
      }
    }
  }

  lemma EmitHere(a: Activity, w: WalkState, j: Jumps, edges: seq<FlatEdge>, busy: Busy, local: NodeId, k: nat,
                 edges2: seq<FlatEdge>)
    requires Emits(a, w, j, edges, busy, local, k, edges2) && FlowSoFar(a, w, j, edges, busy, local)
    ensures FlowSoFar(a, w, j, edges2, busy[local := k + 1], local)
  {
    var f := From(w.ids, w.subs, local);
    ImageSnoc(w.ids, w.subs, j, f, OutEdges(a.edges, local), k);
    if edges2 != edges { OutFlatPush(edges, edges2[|edges|], f); }
  }

  lemma EmitQuiet(a: Activity, w: WalkState, j: Jumps, edges: seq<FlatEdge>, lo: nat, next: nat, busy: Busy,
                  local: NodeId, k: nat, edges2: seq<FlatEdge>)
    requires QuietOk(a, w, edges) && IdsOk(a, w, lo, next) && SubsOk(a, w, lo, next)
    requires Emits(a, w, j, edges, busy, local, k, edges2)
    ensures QuietOk(a, w, edges2)
  {
    EmitOut(a, w, j, edges, busy, local, k, edges2);
    forall n | n in w.ids && (n == a.exit || (n !in w.visited && !IsStructured(a, n))) ensures OutFlat(edges2, w.ids[n]) == [] {
      FromApart(a, w, lo, next, local, n);
    }
  }

  lemma EmitBounds(a: Activity, w: WalkState, j: Jumps, out: FlatGraph, lo: nat, next: nat, busy: Busy,
                   local: NodeId, k: nat, edges2: seq<FlatEdge>)
    requires BoundsOk(out, next) && IdsOk(a, w, lo, next) && SubsOk(a, w, lo, next) && JumpsOk(a, w, j, lo) && lo <= next
    requires Emits(a, w, j, out.edges, busy, local, k, edges2)
    ensures BoundsOk(out.(edges := edges2), next)
    ensures forall i :: |out.edges| <= i < |edges2| ==>
              edges2[i].from >= lo && (edges2[i].to >= lo || IsJump(j, edges2[i].to))
  {
    LandBounds(a, w, j, lo, next, OutEdges(a.edges, local)[k].to);
    if local in w.subs { assert InRangeSub(w.subs[local], lo, next); }
  }

  lemma LandBounds(a: Activity, w: WalkState, j: Jumps, lo: nat, next: nat, t: Target)
    requires IdsOk(a, w, lo, next) && SubsOk(a, w, lo, next) && JumpsOk(a, w, j, lo) && lo <= next
    requires t.Local? ==> t.id in w.ids
    ensures var to := Land(w.ids, w.subs, j, t);
      to.Some? ==> to.value < next && (to.value >= lo || IsJump(j, to.value))
  {
    match t {
      case Local(n) => if n in w.subs { assert InRangeSub(w.subs[n], lo, next); }
      case _ =>
        var to := j.Resolve(t);
        if to.Some? { assert IsJump(j, to.value); }
    }
  }

  // ---------------------------------------------------------- entering a node

  lemma EnterPlain(a: Activity, w: WalkState, j: Jumps, out: FlatGraph, lo: nat, next: nat, busy: Busy, local: NodeId)
    requires Inv(a, w, j, out, lo, next, busy)
    requires local in w.ids && local !in w.visited && !IsStructured(a, local) && local != a.exit
    ensures Inv(a, w.(visited := w.visited + {local}), j, out, lo, next, busy[local := 0])
  {
    hide IdsOk, SubsOk, NodesOk, InnerOk, FlowOk, QuietOk, JumpsOk, BoundsOk, EnteredOk;
    var w2 := w.(visited := w.visited + {local});
    EnterSame(a, w, j, out, lo, next, local);
    EnterFlow(a, w, j, out.edges, busy, local);
    EnteredMore(a, w, w2, busy, busy[local := 0], local);
    InnerFrame(a, w, w2, j, out, out);
  }

  /** What visiting a plain node leaves as it was. */
  lemma EnterSame(a: Activity, w: WalkState, j: Jumps, out: FlatGraph, lo: nat, next: nat, local: NodeId)
    requires IdsOk(a, w, lo, next) && SubsOk(a, w, lo, next) && NodesOk(a, w, out.nodes) && QuietOk(a, w, out.edges)
    requires JumpsOk(a, w, j, lo) && local in w.ids && local !in w.visited && !IsStructured(a, local)
    ensures var w2 := w.(visited := w.visited + {local});
      && IdsOk(a, w2, lo, next) && SubsOk(a, w2, lo, next) && NodesOk(a, w2, out.nodes) && QuietOk(a, w2, out.edges)
      && JumpsOk(a, w2, j, lo)
    ensures local !in w.subs
  {
    hide OutFlat, HasNode;
  }

  lemma EnterFlow(a: Activity, w: WalkState, j: Jumps, edges: seq<FlatEdge>, busy: Busy, local: NodeId)
    requires FlowOk(a, w, j, edges, busy) && QuietOk(a, w, edges)
    requires local in w.ids && local !in w.visited && local !in w.subs && !IsStructured(a, local) && local != a.exit
    ensures FlowOk(a, w.(visited := w.visited + {local}), j, edges, busy[local := 0])
  {
    var w2 := w.(visited := w.visited + {local});
    forall n | n in w2.visited && n != a.exit ensures FlowSoFar(a, w2, j, edges, busy[local := 0], n) {
      if n != local { assert FlowSoFar(a, w, j, edges, busy, n); }
    }
  }

  /** Visiting a new node keeps "every edge in was emitted". */
  lemma EnteredMore(a: Activity, w: WalkState, w2: WalkState, busy: Busy, busy2: Busy, local: NodeId)
    requires EnteredOk(a, w, busy) && w2.ids == w.ids && w2.visited == w.visited + {local} && local !in w.visited
    requires busy2 == busy[local := 0]
    ensures EnteredOk(a, w2, busy2)
  {
    forall n | n in w2.ids && IsStructured(a, n) ensures InEdgesDone(a, w2, busy2, n) {
      assert InEdgesDone(a, w, busy, n);
    }
  }

  /** What walking a nested body hands back: `out1` is `out` with the body placed at `q`. */
  ghost predicate BodyPlaced(body: Activity, q: Placement, j: Jumps, inner: Jumps, out: FlatGraph, next: nat,
                             out1: FlatGraph, next1: nat) {
    && q.lo == next && q.hi == next1 && next <= next1
    && Within(q, q.entry) && Within(q, q.exit)
    && out.nodes <= out1.nodes && out.edges <= out1.edges
    && (forall i :: |out.edges| <= i < |out1.edges| ==>
          && Within(q, out1.edges[i].from) && out1.edges[i].from != q.exit
          && (out1.edges[i].to >= next || IsJump(j, out1.edges[i].to)))
    && BoundsOk(out1, next1)
    && Flat(body, q, inner, out1)
  }

  /** Nothing placed so far points at the stand-in id of a structured node from deep
      inside another body. */
  ghost predicate Reachable(w: WalkState, edges: seq<FlatEdge>, id: nat) {
    forall e :: e in edges && e.to == id ==> Outside(w, e.from)
  }

  lemma EnterBody(a: Activity, w: WalkState, j: Jumps, out: FlatGraph, lo: nat, next: nat, busy: Busy, local: NodeId,
                  q: Placement, out1: FlatGraph, next1: nat)
    requires WellFormed(a) && Inv(a, w, j, out, lo, next, busy) && lo <= next
    requires local in w.ids && local !in w.visited && IsStructured(a, local)
    requires Reachable(w, out.edges, w.ids[local])
    requires BodyPlaced(a.nodes[local].kind.body, q, j, BodyJumps(a, local, q, j), out, next, out1, next1)
    ensures var w2 := WalkState(w.ids, w.visited + {local}, w.subs[local := q]);
      var out2 := out1.(edges := Redirect(out1.edges, w.ids[local], q.entry));
      Inv(a, w2, j, out2, lo, next1, busy[local := 0])
  {
    var id := w.ids[local];
    var w2 := WalkState(w.ids, w.visited + {local}, w.subs[local := q]);
    var out2 := out1.(edges := Redirect(out1.edges, id, q.entry));
    var busy2 := busy[local := 0];
    assert local !in w.subs;
    assert !IsJump(j, id);
    BodySubs(a, w, lo, next, local, q, next1);
    NodesMore(a, w, w2, out.nodes, out1.nodes);
    BodyFlow(a, w, j, out, lo, next, busy, local, q, out1, next1);
    BodyInner(a, w, j, out, lo, next, local, q, out1, next1);
    BodyQuiet(a, w, j, out, lo, next, busy, local, q, out1, next1);
    EnteredMore(a, w, w2, busy, busy2, local);
    BoundsRedirect(out1, next1, id, q.entry);
  }

  lemma BoundsRedirect(out: FlatGraph, next: nat, id: nat, to: nat)
    requires BoundsOk(out, next) && to < next
    ensures BoundsOk(out.(edges := Redirect(out.edges, id, to)), next)
  {
    var r := Redirect(out.edges, id, to);
    forall e | e in r ensures e.from < next && e.to < next {
      var i :| 0 <= i < |r| && r[i] == e;
      assert out.edges[i] in out.edges;
    }
  }

  lemma NodesMore(a: Activity, w: WalkState, w2: WalkState, nodes: seq<FlatNode>, nodes2: seq<FlatNode>)
    requires NodesOk(a, w, nodes) && w2.ids == w.ids && nodes <= nodes2
    ensures NodesOk(a, w2, nodes2)
  {
    forall n | n in w.ids && n < |a.nodes| && !a.nodes[n].kind.Structured? ensures HasNode(nodes2, w.ids[n], a.nodes[n]) {
      assert HasNode(nodes, w.ids[n], a.nodes[n]);
    }
  }

  lemma BodySubs(a: Activity, w: WalkState, lo: nat, next: nat, local: NodeId, q: Placement, next1: nat)
    requires IdsOk(a, w, lo, next) && SubsOk(a, w, lo, next) && lo <= next
    requires local in w.ids && local !in w.visited && IsStructured(a, local)
    requires q.lo == next && q.hi == next1 && Within(q, q.entry) && Within(q, q.exit) && next <= next1
    ensures var w2 := WalkState(w.ids, w.visited + {local}, w.subs[local := q]);
      IdsOk(a, w2, lo, next1) && SubsOk(a, w2, lo, next1)
  {
    var w2 := WalkState(w.ids, w.visited + {local}, w.subs[local := q]);
    forall m | m in w2.subs ensures InRangeSub(w2.subs[m], lo, next1) {
      if m != local { assert InRangeSub(w.subs[m], lo, next); }
    }
    forall m, k | m in w2.subs && k in w2.subs && m != k ensures Disjoint(w2.subs[m], w2.subs[k]) {
      if m != local { assert InRangeSub(w.subs[m], lo, next); }
      if k != local { assert InRangeSub(w.subs[k], lo, next); }
    }
  }

  /** The edges out of an older id after the body is placed: only redirected. */
  lemma OldOut(out: FlatGraph, out1: FlatGraph, next: nat, id: nat, entry: nat, f: nat)
    requires out.edges <= out1.edges && f < next
    requires forall i :: |out.edges| <= i < |out1.edges| ==> out1.edges[i].from >= next
    ensures OutFlat(Redirect(out1.edges, id, entry), f) == Redirect(OutFlat(out.edges, f), id, entry)
  {
    OutFlatRedirect(out1.edges, id, entry, f);
    var more := out1.edges[|out.edges|..];
    assert out1.edges == out.edges + more;
    OutFlatAppend(out.edges, more, f);
  }

  lemma BodyFlow(a: Activity, w: WalkState, j: Jumps, out: FlatGraph, lo: nat, next: nat, busy: Busy, local: NodeId,
                 q: Placement, out1: FlatGraph, next1: nat)
    requires FlowOk(a, w, j, out.edges, busy) && IdsOk(a, w, lo, next) && SubsOk(a, w, lo, next) && BoundsOk(out, next)
    requires local in w.ids && local !in w.visited && IsStructured(a, local) && local !in w.subs && local != a.exit
    requires !IsJump(j, w.ids[local])
    requires BodyPlaced(a.nodes[local].kind.body, q, j, BodyJumps(a, local, q, j), out, next, out1, next1)
    ensures var w2 := WalkState(w.ids, w.visited + {local}, w.subs[local := q]);
      FlowOk(a, w2, j, Redirect(out1.edges, w.ids[local], q.entry), busy[local := 0])
  {
    hide OutEdges, Flat;
    var id := w.ids[local];
    var w2 := WalkState(w.ids, w.visited + {local}, w.subs[local := q]);
    var edges2 := Redirect(out1.edges, id, q.entry);
    forall n | n in w2.visited && n != a.exit ensures FlowSoFar(a, w2, j, edges2, busy[local := 0], n) {
      if n == local {
        OutFlatRedirect(out1.edges, id, q.entry, q.exit);
        NoEdgesFromExit(out, next, out1, q);
      } else {
        assert FlowSoFar(a, w, j, out.edges, busy, n);
        BodyFlowAt(a, w, j, out, lo, next, busy, local, q, out1, next1, n);
      }
    }
  }

  lemma BodyFlowAt(a: Activity, w: WalkState, j: Jumps, out: FlatGraph, lo: nat, next: nat, busy: Busy, local: NodeId,
                   q: Placement, out1: FlatGraph, next1: nat, n: NodeId)
    requires FlowSoFar(a, w, j, out.edges, busy, n) && IdsOk(a, w, lo, next) && SubsOk(a, w, lo, next)
    requires local in w.ids && local !in w.visited && local !in w.subs && !IsJump(j, w.ids[local])
    requires n in w.visited && n != local && out.edges <= out1.edges
    requires forall i :: |out.edges| <= i < |out1.edges| ==> out1.edges[i].from >= next
    ensures var w2 := WalkState(w.ids, w.visited + {local}, w.subs[local := q]);
      FlowSoFar(a, w2, j, Redirect(out1.edges, w.ids[local], q.entry), busy[local := 0], n)
  {
    var id := w.ids[local];
    var f := From(w.ids, w.subs, n);
    var es := OutEdges(a.edges, n)[..Progress(a, busy, n)];
    assert f < next by { if n in w.subs { assert InRangeSub(w.subs[n], lo, next); } }
    OldOut(out, out1, next, id, q.entry, f);
    forall k | 0 <= k < |es| && es[k].to.Local? && es[k].to.id != local ensures To(w.ids, w.subs, es[k].to.id) != id {
      FromApart(a, w, lo, next, es[k].to.id, local);
    }
    ImageRedirect(w.ids, w.subs, local, q, j, f, es);
  }

  lemma NoEdgesFromExit(out: FlatGraph, next: nat, out1: FlatGraph, q: Placement)
    requires BoundsOk(out, next) && q.lo == next && Within(q, q.exit)
    requires out.edges <= out1.edges
    requires forall i :: |out.edges| <= i < |out1.edges| ==> out1.edges[i].from != q.exit
    ensures OutFlat(out1.edges, q.exit) == []
  {
    forall i | 0 <= i < |out1.edges| ensures out1.edges[i].from != q.exit {
      assert i < |out.edges| ==> out1.edges[i] == out.edges[i] && out.edges[i] in out.edges;
    }
    OutFlatNone(out1.edges, q.exit);
  }

  lemma BodyInner(a: Activity, w: WalkState, j: Jumps, out: FlatGraph, lo: nat, next: nat, local: NodeId,
                  q: Placement, out1: FlatGraph, next1: nat)
    requires InnerOk(a, w, j, out) && IdsOk(a, w, lo, next) && SubsOk(a, w, lo, next) && BoundsOk(out, next)
    requires local in w.ids && local !in w.visited && IsStructured(a, local) && !IsJump(j, w.ids[local])
    requires Reachable(w, out.edges, w.ids[local])
    requires BodyPlaced(a.nodes[local].kind.body, q, j, BodyJumps(a, local, q, j), out, next, out1, next1)
    ensures var w2 := WalkState(w.ids, w.visited + {local}, w.subs[local := q]);
      InnerOk(a, w2, j, out1.(edges := Redirect(out1.edges, w.ids[local], q.entry)))
  {
    hide Flat;
    var out2 := out1.(edges := Redirect(out1.edges, w.ids[local], q.entry));
    NewSpared(w, j, out, lo, next, w.ids[local], q, out1);
    SparedStays(a, local, q, j, out1, out2);
    forall m | m in w.subs && m != local && IsStructured(a, m) {
      OldStays(a, w, j, out, lo, next, w.ids[local], q.entry, out1, m);
    }
  }

  lemma OldStays(a: Activity, w: WalkState, j: Jumps, out: FlatGraph, lo: nat, next: nat, id: nat, entry: nat,
                 out1: FlatGraph, m: NodeId)
    requires m in w.subs && IsStructured(a, m) && InRangeSub(w.subs[m], lo, next)
    requires Flat(a.nodes[m].kind.body, w.subs[m], BodyJumps(a, m, w.subs[m], j), out)
    requires Reachable(w, out.edges, id) && out.nodes <= out1.nodes && out.edges <= out1.edges
    requires forall i :: |out.edges| <= i < |out1.edges| ==> out1.edges[i].from >= next
    ensures Flat(a.nodes[m].kind.body, w.subs[m], BodyJumps(a, m, w.subs[m], j),
                 out1.(edges := Redirect(out1.edges, id, entry)))
  {
    OldSpared(w, out, next, id, entry, out1, m);
    SparedStays(a, m, w.subs[m], j, out, out1.(edges := Redirect(out1.edges, id, entry)));
  }

  lemma SparedStays(a: Activity, m: NodeId, p: Placement, j: Jumps, out: FlatGraph, out2: FlatGraph)
    requires IsStructured(a, m) && Flat(a.nodes[m].kind.body, p, BodyJumps(a, m, p, j), out)
    requires out.nodes <= out2.nodes && Spares(p, out.edges, out2.edges)
    ensures Flat(a.nodes[m].kind.body, p, BodyJumps(a, m, p, j), out2)
  {
    FlatFrame(a.nodes[m].kind.body, p, BodyJumps(a, m, p, j), out, out2);
  }

  /** The redirection misses every edge inside the bodies placed before. */
  lemma OldSpared(w: WalkState, out: FlatGraph, next: nat, id: nat, entry: nat, out1: FlatGraph, m: NodeId)
    requires m in w.subs && w.subs[m].hi <= next && Reachable(w, out.edges, id) && out.edges <= out1.edges
    requires forall i :: |out.edges| <= i < |out1.edges| ==> out1.edges[i].from >= next
    ensures Spares(w.subs[m], out.edges, Redirect(out1.edges, id, entry))
  {
    forall f | Within(w.subs[m], f) && f != w.subs[m].exit
      ensures OutFlat(Redirect(out1.edges, id, entry), f) == OutFlat(out.edges, f)
    {
      OutFlatIn(out.edges, f);
      OldOut(out, out1, next, id, entry, f);
      RedirectNone(OutFlat(out.edges, f), id, entry);
    }
  }

  /** The redirection misses every edge inside the body just placed. */
  lemma NewSpared(w: WalkState, j: Jumps, out: FlatGraph, lo: nat, next: nat, id: nat, q: Placement, out1: FlatGraph)
    requires BoundsOk(out, next) && id < next && !IsJump(j, id)
    requires q.lo == next && out.edges <= out1.edges
    requires forall i :: |out.edges| <= i < |out1.edges| ==> out1.edges[i].to >= next || IsJump(j, out1.edges[i].to)
    ensures Spares(q, out1.edges, Redirect(out1.edges, id, q.entry))
  {
    forall i | 0 <= i < |out.edges| ensures out1.edges[i].from < next { assert out.edges[i] in out.edges; }
    forall f | Within(q, f) && f != q.exit
      ensures OutFlat(Redirect(out1.edges, id, q.entry), f) == OutFlat(out1.edges, f)
    {
      OutFlatIn(out1.edges, f);
      forall e | e in OutFlat(out1.edges, f) ensures e.to != id {
        var i :| 0 <= i < |out1.edges| && out1.edges[i] == e;
      }
      OutFlatRedirect(out1.edges, id, q.entry, f);
      RedirectNone(OutFlat(out1.edges, f), id, q.entry);
    }
  }

  lemma BodyQuiet(a: Activity, w: WalkState, j: Jumps, out: FlatGraph, lo: nat, next: nat, busy: Busy, local: NodeId,
                  q: Placement, out1: FlatGraph, next1: nat)
    requires QuietOk(a, w, out.edges) && IdsOk(a, w, lo, next) && local in w.ids && IsStructured(a, local)
    requires BodyPlaced(a.nodes[local].kind.body, q, j, BodyJumps(a, local, q, j), out, next, out1, next1)
    ensures var w2 := WalkState(w.ids, w.visited + {local}, w.subs[local := q]);
      QuietOk(a, w2, Redirect(out1.edges, w.ids[local], q.entry))
  {
    var w2 := WalkState(w.ids, w.visited + {local}, w.subs[local := q]);
    forall n | n in w2.ids && (n == a.exit || (n !in w2.visited && !IsStructured(a, n)))
      ensures OutFlat(Redirect(out1.edges, w.ids[local], q.entry), w2.ids[n]) == []
    {
      OldOut(out, out1, next, w.ids[local], q.entry, w.ids[n]);
    }
  }

  // ------------------------------------------------------ progress of the walk

  /** Walking only ever adds. */
  ghost predicate Advanced(w0: WalkState, w: WalkState, local: NodeId) {
    && (forall n :: n in w0.ids ==> n in w.ids && w.ids[n] == w0.ids[n])
    && w0.visited <= w.visited && local in w.visited
    && (forall m :: m in w0.subs ==> m in w.subs && w.subs[m] == w0.subs[m])
    && (forall m :: m in w0.visited && m in w.subs ==> m in w0.subs)
  }

  lemma AdvancedTrans(w0: WalkState, w1: WalkState, w2: WalkState, local: NodeId, t: NodeId)
    requires Advanced(w0, w1, local) && Advanced(w1, w2, t)
    ensures Advanced(w0, w2, local) && Advanced(w0, w2, t)
  {
  }

  /** Old edges only ever have their stand-in targets replaced; new ones leave nodes of
      this activity for nodes of this activity or for jump targets. */
  ghost predicate Emitted(out0: FlatGraph, out: FlatGraph, j: Jumps, lo: nat) {
    && out0.nodes <= out.nodes && |out0.edges| <= |out.edges|
    && (forall i :: 0 <= i < |out0.edges| ==> Kept(out0.edges[i], out.edges[i], lo))
    && (forall i :: |out0.edges| <= i < |out.edges| ==> NewEdge(out.edges[i], j, lo))
  }

  predicate Kept(e: FlatEdge, f: FlatEdge, lo: nat) {
    && f.from == e.from && f.guard == e.guard
    && (if e.to < lo then f.to == e.to else f.to >= lo)
  }

  predicate NewEdge(e: FlatEdge, j: Jumps, lo: nat) {
    e.from >= lo && (e.to >= lo || IsJump(j, e.to))
  }

  lemma EmittedTrans(out0: FlatGraph, out1: FlatGraph, out2: FlatGraph, j: Jumps, lo: nat)
    requires Emitted(out0, out1, j, lo) && Emitted(out1, out2, j, lo)
    ensures Emitted(out0, out2, j, lo)
  {
    forall i | 0 <= i < |out0.edges| ensures Kept(out0.edges[i], out2.edges[i], lo) {
      assert Kept(out0.edges[i], out1.edges[i], lo) && Kept(out1.edges[i], out2.edges[i], lo);
    }
    forall i | |out0.edges| <= i < |out2.edges| ensures NewEdge(out2.edges[i], j, lo) {
      if i < |out1.edges| {
        assert NewEdge(out1.edges[i], j, lo) && Kept(out1.edges[i], out2.edges[i], lo);
      }
    }
  }

  /** One turn of the loop over `local`'s edges: number the target if it is new, draw
      the edge.  The target may then be walked. */
  lemma EmitStep(a: Activity, w: WalkState, j: Jumps, out: FlatGraph, lo: nat, next: nat, busy: Busy, local: NodeId, k: nat,
                 w2: WalkState, out2: FlatGraph, next2: nat)
    requires WellFormed(a) && Inv(a, w, j, out, lo, next, busy[local := k]) && lo <= next
    requires local in w.visited && local in w.ids && local != a.exit && k < |OutEdges(a.edges, local)|
    requires Stepped(a, w, j, out, next, local, OutEdges(a.edges, local)[k], w2, out2, next2)
    ensures Inv(a, w2, j, out2, lo, next2, busy[local := k + 1]) && next <= next2
    ensures Advanced(w, w2, local) && Emitted(out, out2, j, lo)
    ensures var e := OutEdges(a.edges, local)[k];
      e.to.Local? ==> e.to.id in w2.ids && Walkable(a, w2, out2.edges, busy[local := k + 1], e.to.id)
  {
    hide IdsOk, SubsOk, NodesOk, InnerOk, FlowOk, QuietOk, JumpsOk, BoundsOk, EnteredOk, InEdgesDone, Reachable,
      Emitted, Emits, WellFormed, Stepped, Advanced;
    var e := OutEdges(a.edges, local)[k];
    var busy1 := busy[local := k];
    StepNodes(a, w, j, out, next, local, e, w2, out2, next2);
    if e.to.Local? {
      Fresh(a, w, busy1, local, k, e.to.id);
      if e.to.id !in w.ids { Alloc(a, w, j, out, lo, next, busy1, e.to.id); }
    }
    StepEmits(a, w, j, out, lo, next, busy1, local, k, w2, out2, next2);
    Emit(a, w2, j, out.(nodes := out2.nodes), lo, next2, busy1, local, k, out2.edges);
    assert busy1[local := k + 1] == busy[local := k + 1];
    assert out.(nodes := out2.nodes).(edges := out2.edges) == out2;
    StepEntered(a, w, w2, busy, local, k);
    StepEmitted(a, w, j, out, lo, next, busy1, local, k, w2, out2, next2);
    if e.to.Local? { StepWalkable(a, w, j, out, lo, next, busy, local, k, w2, out2, next2); }
  }

  lemma StepWalkable(a: Activity, w: WalkState, j: Jumps, out: FlatGraph, lo: nat, next: nat, busy: Busy, local: NodeId,
                     k: nat, w2: WalkState, out2: FlatGraph, next2: nat)
    requires Core(a, w, j, out, lo, next, busy[local := k]) && local in w.ids && k < |OutEdges(a.edges, local)|
    requires Stepped(a, w, j, out, next, local, OutEdges(a.edges, local)[k], w2, out2, next2)
    requires EnteredOk(a, w, busy[local := k]) && EnteredOk(a, w2, busy[local := k + 1])
    requires OutEdges(a.edges, local)[k].to.Local?
    ensures Walkable(a, w2, out2.edges, busy[local := k + 1], OutEdges(a.edges, local)[k].to.id)
  {
    var e := OutEdges(a.edges, local)[k];
    Fresh(a, w, busy[local := k], local, k, e.to.id);
    if e.to.id !in w.ids {
      StepReachable(a, w, j, out, lo, next, busy[local := k], local, e, w2, out2, next2);
    }
  }

  ghost predicate Stepped(a: Activity, w: WalkState, j: Jumps, out: FlatGraph, next: nat, local: NodeId, e: ControlFlow,
                          w2: WalkState, out2: FlatGraph, next2: nat) {
    var from := From(w.ids, w.subs, local);
    match e.to
    case Local(t) =>
      && t < |a.nodes|
      && (if t in w.ids then
           && w2 == w && next2 == next
           && out2 == out.(edges := out.edges + [FlatEdge(from, w.ids[t], e.guard)])
         else
           && w2 == w.(ids := w.ids[t := next]) && next2 == next + 1
           && out2 == FlatGraph(AddNode(out.nodes, next, a.nodes[t]), out.edges + [FlatEdge(from, next, e.guard)]))
    case _ =>
      && w2 == w && next2 == next
      && out2 == (match j.Resolve(e.to)
                  case None => out
                  case Some(to) => out.(edges := out.edges + [FlatEdge(from, to, e.guard)]))
  }

  /** `n` may be walked: if it is a structured node met for the first time, all edges
      into it exist and can be redirected. */
  ghost predicate Walkable(a: Activity, w: WalkState, edges: seq<FlatEdge>, busy: Busy, n: NodeId) {
    n !in w.visited && IsStructured(a, n) ==>
      n in w.ids && InEdgesDone(a, w, busy, n) && Reachable(w, edges, w.ids[n])
  }

  /** A structured node is met only through its one edge, so it has no id before. */
  lemma Fresh(a: Activity, w: WalkState, busy: Busy, local: NodeId, k: nat, t: NodeId)
    requires EnteredOk(a, w, busy) && local in busy && busy[local] == k < |OutEdges(a.edges, local)|
    requires OutEdges(a.edges, local)[k].to == Local(t)
    ensures t in w.ids ==> !IsStructured(a, t)
  {
    if t in w.ids { assert IsStructured(a, t) ==> InEdgesDone(a, w, busy, t); }
  }

  lemma StepEmits(a: Activity, w: WalkState, j: Jumps, out: FlatGraph, lo: nat, next: nat, busy: Busy, local: NodeId, k: nat,
                  w2: WalkState, out2: FlatGraph, next2: nat)
    requires IdsOk(a, w, lo, next) && SubsOk(a, w, lo, next)
    requires local in busy && local in w.visited && local in w.ids && local != a.exit
    requires busy[local] == k < |OutEdges(a.edges, local)|
    requires Stepped(a, w, j, out, next, local, OutEdges(a.edges, local)[k], w2, out2, next2)
    requires OutEdges(a.edges, local)[k].to.Local? && OutEdges(a.edges, local)[k].to.id in w.ids ==>
               !IsStructured(a, OutEdges(a.edges, local)[k].to.id)
    ensures Emits(a, w2, j, out.edges, busy, local, k, out2.edges)
  {
  }

  lemma StepEntered(a: Activity, w: WalkState, w2: WalkState, busy: Busy, local: NodeId, k: nat)
    requires WellFormed(a) && EnteredOk(a, w, busy[local := k])
    requires local in w.visited && k < |OutEdges(a.edges, local)| && w2.visited == w.visited
    requires var e := OutEdges(a.edges, local)[k];
      forall n :: n in w2.ids && n !in w.ids ==> e.to == Local(n)
    ensures EnteredOk(a, w2, busy[local := k + 1])
  {
    var e := OutEdges(a.edges, local)[k];
    forall n | n in w2.ids && IsStructured(a, n) ensures InEdgesDone(a, w2, busy[local := k + 1], n) {
      if n in w.ids {
        assert InEdgesDone(a, w, busy[local := k], n);
      } else {
        forall p: nat, m: nat | m < |OutEdges(a.edges, p)| && OutEdges(a.edges, p)[m].to == Local(n)
          ensures p == local && m == k
        {
          OneEntry(a, n, p, m, local, k);
        }
      }
    }
  }

  lemma StepEmitted(a: Activity, w: WalkState, j: Jumps, out: FlatGraph, lo: nat, next: nat, busy: Busy, local: NodeId, k: nat,
                    w2: WalkState, out2: FlatGraph, next2: nat)
    requires BoundsOk(out, next) && IdsOk(a, w2, lo, next2) && SubsOk(a, w2, lo, next2) && JumpsOk(a, w2, j, lo) && lo <= next2
    requires Emits(a, w2, j, out.edges, busy, local, k, out2.edges) && out.nodes <= out2.nodes
    ensures Emitted(out, out2, j, lo)
  {
    LandBounds(a, w2, j, lo, next2, OutEdges(a.edges, local)[k].to);
    if local in w2.subs { assert InRangeSub(w2.subs[local], lo, next2); }
  }

  lemma StepNodes(a: Activity, w: WalkState, j: Jumps, out: FlatGraph, next: nat, local: NodeId, e: ControlFlow,
                  w2: WalkState, out2: FlatGraph, next2: nat)
    requires Stepped(a, w, j, out, next, local, e, w2, out2, next2)
    ensures out.nodes <= out2.nodes && next <= next2
    ensures local in w.visited ==> Advanced(w, w2, local)
    ensures w2.visited == w.visited && w2.subs == w.subs
    ensures e.to.Local? ==> e.to.id in w2.ids && e.to.id < |a.nodes|
    ensures forall n :: n in w2.ids && n !in w.ids ==> e.to == Local(n)
    ensures e.to.Local? && e.to.id in w.ids ==> w2 == w && out2.nodes == out.nodes && next2 == next
    ensures e.to.Local? && e.to.id !in w.ids ==>
              w2 == w.(ids := w.ids[e.to.id := next]) && out2.nodes == AddNode(out.nodes, next, a.nodes[e.to.id]) && next2 == next + 1
    ensures !e.to.Local? ==> w2 == w && out2.nodes == out.nodes && next2 == next
  {
  }

  lemma StepReachable(a: Activity, w: WalkState, j: Jumps, out: FlatGraph, lo: nat, next: nat, busy: Busy, local: NodeId,
                      e: ControlFlow, w2: WalkState, out2: FlatGraph, next2: nat)
    requires Core(a, w, j, out, lo, next, busy) && local in w.ids
    requires Stepped(a, w, j, out, next, local, e, w2, out2, next2) && e.to.Local? && e.to.id !in w.ids
    ensures Reachable(w2, out2.edges, w2.ids[e.to.id])
  {
    FromOutside(a, w, lo, next, local);
    forall f | f in out2.edges && f.to == next ensures Outside(w2, f.from) {
      assert f in out.edges || f == out2.edges[|out.edges|];
    }
  }

  // ----------------------------------------------------------- leaving a node

  lemma Leave(a: Activity, w: WalkState, j: Jumps, out: FlatGraph, lo: nat, next: nat, busy: Busy, local: NodeId)
    requires Inv(a, w, j, out, lo, next, busy) && local in busy && busy[local] == |OutEdges(a.edges, local)|
    requires forall k :: 0 <= k < |OutEdges(a.edges, local)| && OutEdges(a.edges, local)[k].to.Local? ==>
               OutEdges(a.edges, local)[k].to.id in w.visited
    ensures Inv(a, w, j, out, lo, next, busy - {local})
  {
    hide OutEdges, Image, OutFlat, Flat, IdsOk, SubsOk, NodesOk, QuietOk, JumpsOk, BoundsOk;
    var busy2 := busy - {local};
    forall n ensures Progress(a, busy2, n) == Progress(a, busy, n) {}
    forall n | n in w.visited && n != a.exit ensures FlowSoFar(a, w, j, out.edges, busy2, n) {
      assert FlowSoFar(a, w, j, out.edges, busy, n);
    }
    forall n | n in w.ids && IsStructured(a, n) ensures InEdgesDone(a, w, busy2, n) {
      assert InEdgesDone(a, w, busy, n);
    }
  }

  /** When the walk's stack is empty the activity is placed. */
  lemma Finish(a: Activity, w: WalkState, j: Jumps, out: FlatGraph, lo: nat, next: nat)
    requires Inv(a, w, j, out, lo, next, map[]) && a.initial in w.visited
    ensures Flat(a, Placement(w.ids, w.visited, w.subs, w.ids[a.initial], w.ids[a.exit], lo, next), j, out)
  {
    var p := Placement(w.ids, w.visited, w.subs, w.ids[a.initial], w.ids[a.exit], lo, next);
    FinishPlaced(a, w, lo, next);
    FinishDrawn(a, w, j, out, p);
  }

  lemma FinishPlaced(a: Activity, w: WalkState, lo: nat, next: nat)
    requires IdsOk(a, w, lo, next) && SubsOk(a, w, lo, next) && a.initial in w.visited
    ensures PlacedHere(a, Placement(w.ids, w.visited, w.subs, w.ids[a.initial], w.ids[a.exit], lo, next))
  {
    var p := Placement(w.ids, w.visited, w.subs, w.ids[a.initial], w.ids[a.exit], lo, next);
    forall m | m in p.subs ensures SubWithin(p, p.subs[m]) {
      assert InRangeSub(w.subs[m], lo, next);
    }
  }

  lemma FinishDrawn(a: Activity, w: WalkState, j: Jumps, out: FlatGraph, p: Placement)
    requires PlacedHere(a, p) && (p.ids, p.visited, p.subs) == (w.ids, w.visited, w.subs)
    requires NodesOk(a, w, out.nodes) && FlowOk(a, w, j, out.edges, map[])
    ensures DrawnHere(a, p, j, out)
  {
    forall n | n in p.visited && n != a.exit ensures FlowsAsDrawn(a, p.ids, p.subs, p.visited, j, out.edges, n) {
      assert FlowSoFar(a, w, j, out.edges, map[], n);
      assert OutEdges(a.edges, n)[..|OutEdges(a.edges, n)|] == OutEdges(a.edges, n);
    }
  }

  // ------------------------------------------------------ whole-activity steps

  /** The walk of an activity starts with its initial and exit ids. */
  lemma StartInv(a: Activity, j: Jumps, out: FlatGraph, lo: nat, jumps: Jumps, role: Role)
    requires WellFormed(a) && BoundsOk(out, lo)
    requires forall id: nat :: IsJump(jumps, id) ==> id < lo
    requires j == Inside(jumps, role, lo, lo + 1)
    ensures var ids := map[a.initial := lo, a.exit := lo + 1];
      var out2 := out.(nodes := AddNode(AddNode(out.nodes, lo, a.nodes[a.initial]), lo + 1, a.nodes[a.exit]));
      Inv(a, WalkState(ids, {}, map[]), j, out2, lo, lo + 2, map[])
  {
    hide OutEdges, Image, OutFlat, Flat;
    OutFlatNone(out.edges, lo);
    OutFlatNone(out.edges, lo + 1);
    forall id: nat | IsJump(j, id) ensures id < lo || id == lo || id == lo + 1 {
      assert IsJump(jumps, id) || id == lo || id == lo + 1;
    }
    StartNodes(a, out, lo);
  }

  lemma StartNodes(a: Activity, out: FlatGraph, lo: nat)
    requires WellFormed(a) && BoundsOk(out, lo)
    ensures var ids := map[a.initial := lo, a.exit := lo + 1];
      var out2 := out.(nodes := AddNode(AddNode(out.nodes, lo, a.nodes[a.initial]), lo + 1, a.nodes[a.exit]));
      NodesOk(a, WalkState(ids, {}, map[]), out2.nodes) && BoundsOk(out2, lo + 2)
  {
    var nodes1 := AddNode(out.nodes, lo, a.nodes[a.initial]);
    var nodes2 := AddNode(nodes1, lo + 1, a.nodes[a.exit]);
    assert nodes2[|out.nodes|] == FlatNode(lo, Flattened(a.nodes[a.initial].kind).value, a.nodes[a.initial].line);
    assert nodes2[|out.nodes| + 1] == FlatNode(lo + 1, Flattened(a.nodes[a.exit].kind).value, a.nodes[a.exit].line);
  }

  lemma {:induction false} OutEdgesIn(edges: seq<ControlFlow>, n: NodeId)
    requires OutEdges(edges, n) == []
    ensures forall e :: e in edges ==> e.from != n
    decreases |edges|
  {
    if edges != [] {
      OutEdgesIn(edges[..|edges| - 1], n);
      assert edges == edges[..|edges| - 1] + [edges[|edges| - 1]];
    }
  }

  lemma EnterExit(a: Activity, w: WalkState, j: Jumps, out: FlatGraph, lo: nat, next: nat, busy: Busy)
    requires WellFormed(a) && Inv(a, w, j, out, lo, next, busy) && a.exit !in w.visited
    ensures Inv(a, w.(visited := w.visited + {a.exit}), j, out, lo, next, busy)
  {
    hide IdsOk, SubsOk, NodesOk, InnerOk, FlowOk, QuietOk, JumpsOk, BoundsOk, EnteredOk;
    var w2 := w.(visited := w.visited + {a.exit});
    ExitKnown(a, w, lo, next);
    EnterSame(a, w, j, out, lo, next, a.exit);
    InnerFrame(a, w, w2, j, out, out);
    ExitFlow(a, w, j, out.edges, busy);
    ExitEntered(a, w, busy);
  }

  lemma ExitKnown(a: Activity, w: WalkState, lo: nat, next: nat)
    requires WellFormed(a) && IdsOk(a, w, lo, next)
    ensures a.exit in w.ids && !IsStructured(a, a.exit)
  {
  }

  lemma ExitEntered(a: Activity, w: WalkState, busy: Busy)
    requires EnteredOk(a, w, busy)
    ensures EnteredOk(a, w.(visited := w.visited + {a.exit}), busy)
  {
    forall n | n in w.ids && IsStructured(a, n) ensures InEdgesDone(a, w.(visited := w.visited + {a.exit}), busy, n) {
      assert InEdgesDone(a, w, busy, n);
    }
  }

  lemma ExitFlow(a: Activity, w: WalkState, j: Jumps, edges: seq<FlatEdge>, busy: Busy)
    requires FlowOk(a, w, j, edges, busy) && a.exit !in w.visited
    ensures FlowOk(a, w.(visited := w.visited + {a.exit}), j, edges, busy)
  {
    var w2 := w.(visited := w.visited + {a.exit});
    forall n | n in w2.visited && n != a.exit ensures FlowSoFar(a, w2, j, edges, busy, n) {
      assert FlowSoFar(a, w, j, edges, busy, n);
    }
  }

  /** What splicing in a body did to the edges. */
  lemma EmittedBody(a: Activity, w: WalkState, j: Jumps, out: FlatGraph, lo: nat, next: nat, local: NodeId,
                    q: Placement, out1: FlatGraph, next1: nat)
    requires IdsOk(a, w, lo, next) && local in w.ids && IsStructured(a, local) && lo <= next
    requires BodyPlaced(a.nodes[local].kind.body, q, j, BodyJumps(a, local, q, j), out, next, out1, next1)
    ensures Emitted(out, out1.(edges := Redirect(out1.edges, w.ids[local], q.entry)), j, lo)
  {
    hide Flat, BoundsOk, WellFormed, Redirect;
    RedirectEmits(out, out1, w.ids[local], q.entry, j, lo);
  }

  /** Moving edges from one new id to another keeps old edges old and new ones new. */
  lemma RedirectEmits(out: FlatGraph, out1: FlatGraph, id: nat, to: nat, j: Jumps, lo: nat)
    requires id >= lo && to >= lo && out.nodes <= out1.nodes && out.edges <= out1.edges
    requires forall i :: |out.edges| <= i < |out1.edges| ==> NewEdge(out1.edges[i], j, lo)
    ensures Emitted(out, out1.(edges := Redirect(out1.edges, id, to)), j, lo)
  {
    hide Redirect;
    var r := Redirect(out1.edges, id, to);
    forall i | 0 <= i < |out.edges| ensures Kept(out.edges[i], r[i], lo) {
      assert out1.edges[i] == out.edges[i];
    }
  }

  /** The finished walk, seen from outside. */
  lemma Closed(a: Activity, w: WalkState, j: Jumps, jumps: Jumps, role: Role, out: FlatGraph, out1: FlatGraph, lo: nat, next: nat)
    requires WellFormed(a) && Inv(a, w, j, out1, lo, next, map[]) && a.initial in w.visited
    requires BoundsOk(out, lo) && Emitted(out, out1, j, lo) && lo <= next
    requires j == Inside(jumps, role, w.ids[a.initial], w.ids[a.exit])
    ensures var p := Placement(w.ids, w.visited, w.subs, w.ids[a.initial], w.ids[a.exit], lo, next);
      BodyPlaced(a, p, jumps, j, out, lo, out1, next) && OutFlat(out1.edges, p.exit) == []
  {
    hide Flat, SubsOk, NodesOk, InnerOk, FlowOk, JumpsOk, EnteredOk, WellFormed;
    var p := Placement(w.ids, w.visited, w.subs, w.ids[a.initial], w.ids[a.exit], lo, next);
    Finish(a, w, j, out1, lo, next);
    ClosedEdges(out, out1, j, jumps, role, w.ids[a.initial], w.ids[a.exit], lo, next);
  }

  lemma ClosedEdges(out: FlatGraph, out1: FlatGraph, j: Jumps, jumps: Jumps, role: Role, entry: nat, exit: nat, lo: nat, next: nat)
    requires BoundsOk(out, lo) && BoundsOk(out1, next) && Emitted(out, out1, j, lo)
    requires j == Inside(jumps, role, entry, exit) && entry >= lo && exit >= lo
    requires OutFlat(out1.edges, exit) == []
    ensures out.edges <= out1.edges
    ensures forall i :: |out.edges| <= i < |out1.edges| ==>
              && lo <= out1.edges[i].from < next && out1.edges[i].from != exit
              && (out1.edges[i].to >= lo || IsJump(jumps, out1.edges[i].to))
  {
    forall i | 0 <= i < |out.edges| ensures out1.edges[i] == out.edges[i] {
      assert Kept(out.edges[i], out1.edges[i], lo) && out.edges[i] in out.edges;
    }
    OutFlatIn(out1.edges, exit);
    forall i | |out.edges| <= i < |out1.edges|
      ensures lo <= out1.edges[i].from < next && out1.edges[i].from != exit
      ensures out1.edges[i].to >= lo || IsJump(jumps, out1.edges[i].to)
    {
      assert NewEdge(out1.edges[i], j, lo) && out1.edges[i] in out1.edges;
      assert out1.edges[i] !in OutFlat(out1.edges, exit);
    }
  }
}
