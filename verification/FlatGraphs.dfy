/** Flat graphs: the output of pass 2 of src/activity.rs, with ids unique across the
    whole graph, and the bookkeeping flattening is specified with. */
module FlatGraphs {
  import opened Syntax
  import opened ActivityBuild
  import opened ActivityWiring

  datatype FlatKind = FInitial | FFinal | FAction(text: Span) | FDecision(text: Span) | FMerge

  datatype FlatNode = FlatNode(id: nat, kind: FlatKind, line: nat)

  datatype FlatEdge = FlatEdge(from: nat, to: nat, guard: Option<Guard>)

  datatype FlatGraph = FlatGraph(nodes: seq<FlatNode>, edges: seq<FlatEdge>)

  function Flattened(kind: ActivityNode): Option<FlatKind> {
    match kind
    case Initial => Some(FInitial)
    case ActivityFinal => Some(FFinal)
    case Action(text) => Some(FAction(text))
    case Decision(text) => Some(FDecision(text))
    case Merge => Some(FMerge)
    case Structured(_, _, _) => None
  }

  /** The edges that leave node `id`, in order. */
  function OutFlat(edges: seq<FlatEdge>, id: nat): seq<FlatEdge> {
    if edges == [] then []
    else
      var last := edges[|edges| - 1];
      OutFlat(edges[..|edges| - 1], id) + (if last.from == id then [last] else [])
  }

  lemma OutFlatPush(edges: seq<FlatEdge>, e: FlatEdge, id: nat)
    ensures OutFlat(edges + [e], id) == OutFlat(edges, id) + (if e.from == id then [e] else [])
  {
    assert (edges + [e])[..|edges|] == edges;
  }

  lemma {:induction false} OutFlatIn(edges: seq<FlatEdge>, id: nat)
    ensures forall e :: e in OutFlat(edges, id) <==> e in edges && e.from == id
    decreases |edges|
  {
    if edges != [] {
      var init := edges[..|edges| - 1];
      OutFlatIn(init, id);
      assert edges == init + [edges[|edges| - 1]];
    }
  }

  /** Edges from elsewhere do not matter. */
  lemma {:induction false} OutFlatAppend(edges: seq<FlatEdge>, more: seq<FlatEdge>, id: nat)
    requires forall i :: 0 <= i < |more| ==> more[i].from != id
    ensures OutFlat(edges + more, id) == OutFlat(edges, id)
    decreases |more|
  {
    if more == [] {
      assert edges + more == edges;
    } else {
      var init := more[..|more| - 1];
      OutFlatAppend(edges, init, id);
      OutFlatPush(edges + init, more[|more| - 1], id);
      assert edges + more == (edges + init) + [more[|more| - 1]];
    }
  }

  /** Redirecting every edge into `id`. */
  function Redirect(edges: seq<FlatEdge>, id: nat, to: nat): (r: seq<FlatEdge>)
    ensures |r| == |edges|
    ensures forall i :: 0 <= i < |edges| ==> r[i] == (if edges[i].to == id then edges[i].(to := to) else edges[i])
  {
    seq(|edges|, i requires 0 <= i < |edges| => if edges[i].to == id then edges[i].(to := to) else edges[i])
  }

  lemma {:induction false} OutFlatRedirect(edges: seq<FlatEdge>, id: nat, to: nat, n: nat)
    ensures OutFlat(Redirect(edges, id, to), n) == Redirect(OutFlat(edges, n), id, to)
    decreases |edges|
  {
    if edges != [] {
      var init := edges[..|edges| - 1];
      OutFlatRedirect(init, id, to, n);
      assert Redirect(edges, id, to)[..|edges| - 1] == Redirect(init, id, to);
    }
  }

  lemma RedirectNone(edges: seq<FlatEdge>, id: nat, to: nat)
    requires forall e :: e in edges ==> e.to != id
    ensures Redirect(edges, id, to) == edges
  {
  }

  // --------------------------------------------------------- placed activities

  /** Global ids that jumps resolve to: the nearest loop's `(decision, exit)` and the
      function's final node. */
  datatype Jumps = Jumps(loopIds: Option<(nat, nat)>, fnFinal: Option<nat>) {
    function Resolve(t: Target): Option<nat> {
      match t
      case Local(_) => None
      case LoopExit => if loopIds.Some? then Some(loopIds.value.1) else None
      case LoopBack => if loopIds.Some? then Some(loopIds.value.0) else None
      case Return => fnFinal
    }
  }

  datatype Role = InFunction | InLoop | InConditional

  function RoleOf(s: Stereotype): Role {
    match s case Loop => InLoop case Conditional => InConditional
  }

  /** What a body's jumps mean once it has its entry and exit ids. */
  function Inside(j: Jumps, role: Role, entry: nat, exit: nat): Jumps {
    match role
    case InFunction => j.(fnFinal := Some(exit))
    case InLoop => j.(loopIds := Some((entry, exit)))
    case InConditional => j
  }

  /** Where an activity ended up: the id of each local node met, the nodes whose edges
      were emitted, the placements of nested bodies, and the range of ids used. */
  datatype Placement = Placement(ids: map<NodeId, nat>, visited: set<NodeId>, subs: map<NodeId, Placement>,
                                 entry: nat, exit: nat, lo: nat, hi: nat)

  /** The flat node an edge into local node `n` lands on. */
  function To(ids: map<NodeId, nat>, subs: map<NodeId, Placement>, n: NodeId): nat {
    if n in subs then subs[n].entry else if n in ids then ids[n] else 0
  }

  /** The flat node an edge out of local node `n` leaves from. */
  function From(ids: map<NodeId, nat>, subs: map<NodeId, Placement>, n: NodeId): nat {
    if n in subs then subs[n].exit else if n in ids then ids[n] else 0
  }

  function Land(ids: map<NodeId, nat>, subs: map<NodeId, Placement>, j: Jumps, t: Target): Option<nat> {
    match t
    case Local(n) => Some(To(ids, subs, n))
    case _ => j.Resolve(t)
  }

  /** The flat edges a run of local edges stands for. */
  function Image(ids: map<NodeId, nat>, subs: map<NodeId, Placement>, j: Jumps, from: nat,
                 out: seq<ControlFlow>): seq<FlatEdge> {
    if out == [] then []
    else
      var last := out[|out| - 1];
      Image(ids, subs, j, from, out[..|out| - 1]) +
      match Land(ids, subs, j, last.to)
      case None => []
      case Some(to) => [FlatEdge(from, to, last.guard)]
  }

  predicate Within(p: Placement, id: nat) { p.lo <= id < p.hi }

  /** `out` contains the whole of `a`, placed as `p` says. */
  ghost predicate Flat(a: Activity, p: Placement, j: Jumps, out: FlatGraph)
    decreases a
  {
    && PlacedHere(a, p) && DrawnHere(a, p, j, out)
    && forall n :: n in p.subs ==> Flat(a.nodes[n].kind.body, p.subs[n], BodyJumps(a, n, p.subs[n], j), out)
  }

  /** One level of a placement: which ids stand for what. */
  ghost predicate PlacedHere(a: Activity, p: Placement) {
    && a.initial in p.visited && a.initial in p.ids && a.exit in p.ids
    && p.entry == p.ids[a.initial] && p.exit == p.ids[a.exit]
    && (forall n :: n in p.ids ==> n < |a.nodes| && Within(p, p.ids[n]) && (p.ids[n] == p.exit ==> n == a.exit))
    && (forall n :: n in p.visited ==> n in p.ids)
    && (forall n :: n in p.subs ==> n in p.visited && a.nodes[n].kind.Structured? && SubWithin(p, p.subs[n]))
    && (forall n :: n in p.visited && a.nodes[n].kind.Structured? ==> n in p.subs)
  }

  /** One level of a placement: its nodes and edges are in `out`. */
  ghost predicate DrawnHere(a: Activity, p: Placement, j: Jumps, out: FlatGraph)
    requires PlacedHere(a, p)
  {
    && (forall n :: n in p.ids && !a.nodes[n].kind.Structured? ==> HasNode(out.nodes, p.ids[n], a.nodes[n]))
    && (forall n :: n in p.visited && n != a.exit ==> FlowsAsDrawn(a, p.ids, p.subs, p.visited, j, out.edges, n))
  }

  ghost predicate SubWithin(p: Placement, q: Placement) {
    && p.lo <= q.lo && q.hi <= p.hi && !Within(q, p.exit) && Within(q, q.entry) && Within(q, q.exit)
  }

  /** The jumps inside the structured node `n` of `a`. */
  function BodyJumps(a: Activity, n: NodeId, q: Placement, j: Jumps): Jumps {
    if n < |a.nodes| && a.nodes[n].kind.Structured?
    then Inside(j, RoleOf(a.nodes[n].kind.stereotype), q.entry, q.exit) else j
  }

  ghost predicate HasNode(nodes: seq<FlatNode>, id: nat, n: Node)
  {
    Flattened(n.kind).Some? && FlatNode(id, Flattened(n.kind).value, n.line) in nodes
  }

  /** `n`'s flat out-edges are exactly its local ones, and lead to placed nodes. */
  ghost predicate FlowsAsDrawn(a: Activity, ids: map<NodeId, nat>, subs: map<NodeId, Placement>, visited: set<NodeId>,
                               j: Jumps, edges: seq<FlatEdge>, n: NodeId) {
    var out := OutEdges(a.edges, n);
    && OutFlat(edges, From(ids, subs, n)) == Image(ids, subs, j, From(ids, subs, n), out)
    && forall k :: 0 <= k < |out| && out[k].to.Local? ==> out[k].to.id in visited
  }

  /** Going from `edges` to `edges2` touches nothing placed by `p` except its exit. */
  ghost predicate Spares(p: Placement, edges: seq<FlatEdge>, edges2: seq<FlatEdge>) {
    forall f :: Within(p, f) && f != p.exit ==> OutFlat(edges2, f) == OutFlat(edges, f)
  }

  lemma SparesSub(p: Placement, q: Placement, edges: seq<FlatEdge>, edges2: seq<FlatEdge>)
    requires SubWithin(p, q) && Spares(p, edges, edges2)
    ensures Spares(q, edges, edges2)
  {
    forall f | Within(q, f) && f != q.exit ensures OutFlat(edges2, f) == OutFlat(edges, f) {
      assert Within(p, f) && f != p.exit;
    }
  }

  /** Later edges and nodes leave a finished placement alone, as long as they only
      touch its exit. */
  lemma {:induction false} FlatFrame(a: Activity, p: Placement, j: Jumps, out: FlatGraph, out2: FlatGraph)
    requires Flat(a, p, j, out)
    requires forall n :: n in out.nodes ==> n in out2.nodes
    requires Spares(p, out.edges, out2.edges)
    ensures Flat(a, p, j, out2)
    decreases a
  {
    DrawnFrame(a, p, j, out, out2);
    forall n | n in p.subs
      ensures Flat(a.nodes[n].kind.body, p.subs[n], BodyJumps(a, n, p.subs[n], j), out2)
    {
      var q := p.subs[n];
      SparesSub(p, q, out.edges, out2.edges);
      FlatFrame(a.nodes[n].kind.body, q, BodyJumps(a, n, q, j), out, out2);
    }
  }

  lemma DrawnFrame(a: Activity, p: Placement, j: Jumps, out: FlatGraph, out2: FlatGraph)
    requires PlacedHere(a, p) && DrawnHere(a, p, j, out)
    requires forall n :: n in out.nodes ==> n in out2.nodes
    requires Spares(p, out.edges, out2.edges)
    ensures DrawnHere(a, p, j, out2)
  {
    forall n | n in p.visited && n != a.exit
      ensures FlowsAsDrawn(a, p.ids, p.subs, p.visited, j, out2.edges, n)
    {
      assert FlowsAsDrawn(a, p.ids, p.subs, p.visited, j, out.edges, n);
      assert n in p.subs ==> SubWithin(p, p.subs[n]);
      assert Within(p, From(p.ids, p.subs, n)) && From(p.ids, p.subs, n) != p.exit;
    }
  }
}
