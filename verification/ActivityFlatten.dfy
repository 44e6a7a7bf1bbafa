/** Pass 2 of the activity diagrams (src/activity.rs), in place as the source has it:
    a depth-first walk that numbers nodes, emits edges and splices every `Structured`
    node out by redirecting the edges into it. */
module ActivityFlatten {
  import opened Syntax
  import opened ActivityBuild
  import opened ActivityWiring
  import opened ActivityTidy
  import opened FlatGraphs
  import opened FlattenWalk

  datatype Placed = Placed(entry: nat, exit: nat)

  /** State for walking one activity; ids are per activity. */
  class Walk {
    const activity: Activity
    var ids: map<NodeId, nat>
    var visited: set<NodeId>
    var jumps: Jumps
    ghost var subs: map<NodeId, Placement>

    constructor (a: Activity, j: Jumps)
      ensures activity == a && ids == map[] && visited == {} && jumps == j && subs == map[]
    {
      activity, ids, visited, jumps, subs := a, map[], {}, j, map[];
    }

    ghost function State(): WalkState reads this { WalkState(ids, visited, subs) }
  }

  function Below(n: nat): (s: set<nat>)
    ensures forall k: nat :: k in s <==> k < n
  {
    if n == 0 then {} else Below(n - 1) + {n - 1}
  }

  function AllIds(a: Activity): set<nat> { Below(|a.nodes|) }

  class Flattener {
    var nextId: nat
    var nodes: seq<FlatNode>
    var edges: seq<FlatEdge>

    constructor ()
      ensures nextId == 0 && nodes == [] && edges == []
    {
      nextId, nodes, edges := 0, [], [];
    }

    ghost function Out(): FlatGraph reads this { FlatGraph(nodes, edges) }

    ghost predicate Keeps(walk: Walk, lo: nat, busy: Busy) reads this, walk {
      && WellFormed(walk.activity) && lo <= nextId
      && Inv(walk.activity, walk.State(), walk.jumps, Out(), lo, nextId, busy)
    }

    /** The id of a local node, allocated and drawn on first sight. */
    method GlobalId(walk: Walk, n: NodeId) returns (id: nat)
      requires n < |walk.activity.nodes|
      modifies this, walk`ids
      ensures n in old(walk.ids) ==>
                id == old(walk.ids)[n] && nextId == old(nextId) && Out() == old(Out()) && walk.ids == old(walk.ids)
      ensures n !in old(walk.ids) ==>
                && id == old(nextId) && nextId == id + 1 && walk.ids == old(walk.ids)[n := id]
                && edges == old(edges) && nodes == AddNode(old(nodes), id, walk.activity.nodes[n])
    {
      if n in walk.ids { return walk.ids[n]; }
      id := nextId;
      nextId := nextId + 1;
      walk.ids := walk.ids[n := id];
      var node := walk.activity.nodes[n];
      var kind := Flattened(node.kind);
      if kind.Some? { nodes := nodes + [FlatNode(id, kind.value, node.line)]; }
    }

    /** Flattens `a` behind everything flattened so far; `p` records where it went. */
    method WalkActivity(a: Activity, role: Role, jumps: Jumps) returns (placed: Placed, ghost p: Placement)
      requires WellFormed(a) && BoundsOk(Out(), nextId)
      requires forall id: nat :: IsJump(jumps, id) ==> id < nextId
      modifies this
      ensures placed == Placed(p.entry, p.exit) && p.entry == old(nextId)
      ensures BodyPlaced(a, p, jumps, Inside(jumps, role, p.entry, p.exit), old(Out()), old(nextId), Out(), nextId)
      ensures OutFlat(edges, p.exit) == []
      decreases a, AllIds(a) + {|a.nodes|}, 0
    {
      hide BodyPlaced, Inv, Emitted, WellFormed;
      ghost var lo := nextId;
      ghost var out0 := Out();
      assert AllIds(a) - {} < AllIds(a) + {|a.nodes|} by { assert |a.nodes| !in AllIds(a); }
      var walk := new Walk(a, jumps);
      Ends(a);
      var entry := GlobalId(walk, a.initial);
      var exit := GlobalId(walk, a.exit);
      walk.jumps := Inside(jumps, role, entry, exit);
      StartInv(a, walk.jumps, out0, lo, jumps, role);
      StartEmitted(out0, Out(), walk.jumps, lo, a, entry, exit);
      ghost var out1 := Out();
      WalkNode(walk, a.initial, lo, map[]);
      EmittedTrans(out0, out1, Out(), walk.jumps, lo);
      placed := Placed(entry, exit);
      p := Placement(walk.ids, walk.visited, walk.subs, entry, exit, lo, nextId);
      Closed(a, walk.State(), walk.jumps, jumps, role, out0, Out(), lo, nextId);
    }

    /** Emits `local` and everything reachable after it in this activity. */
    method WalkNode(walk: Walk, local: NodeId, ghost lo: nat, ghost busy: Busy)
      requires Keeps(walk, lo, busy) && local in walk.ids && local < |walk.activity.nodes|
      requires Walkable(walk.activity, walk.State(), edges, busy, local)
      modifies this, walk`ids, walk`visited, walk`subs
      ensures Keeps(walk, lo, busy) && Advanced(old(walk.State()), walk.State(), local)
      ensures Emitted(old(Out()), Out(), walk.jumps, lo)
      decreases walk.activity, AllIds(walk.activity) - walk.visited, 1
    {
      hide BodyPlaced, Inv, Emitted, WellFormed, Advanced, IdsOk, SubsOk, BoundsOk, InEdgesDone, Reachable;
      var id := GlobalId(walk, local);
      if local in walk.visited {
        EmittedSelf(Out(), walk.jumps, lo);
        AdvancedSelf(walk.State(), local);
        return;
      }
      var activity := walk.activity;
      ghost var w0 := walk.State();
      ghost var out0 := Out();
      ghost var next0 := nextId;
      walk.visited := walk.visited + {local};
      var from := id;
      InvParts(activity, w0, walk.jumps, out0, lo, next0, busy, local);
      if activity.nodes[local].kind.Structured? {
        var kind := activity.nodes[local].kind;
        ghost var p;
        var placed: Placed;
        BodyWellFormed(activity, local);
        placed, p := WalkActivity(kind.body, RoleOf(kind.stereotype), walk.jumps);
        ghost var out1 := Out();
        PlacedMore(kind.body, p, walk.jumps, BodyJumps(activity, local, p, walk.jumps), out0, next0, out1, nextId);
        RedirectEdges(id, placed.entry);
        walk.subs := walk.subs[local := p];
        from := placed.exit;
        EnterBody(activity, w0, walk.jumps, out0, lo, next0, busy, local, p, out1, nextId);
        EmittedBody(activity, w0, walk.jumps, out0, lo, next0, local, p, out1, nextId);
      } else {
        EmittedSelf(Out(), walk.jumps, lo);
        if local == activity.exit {
          EnterExit(activity, w0, walk.jumps, out0, lo, nextId, busy);
        } else {
          EnterPlain(activity, w0, walk.jumps, out0, lo, nextId, busy, local);
        }
      }
      ghost var out2 := Out();
      ghost var w1 := walk.State();
      EnterAdvanced(w0, w1, local);
      EmitEdges(walk, local, from, lo, busy);
      EmittedTrans(out0, out2, Out(), walk.jumps, lo);
      AdvancedTrans(w0, w1, walk.State(), local, local);
    }

    method RedirectEdges(id: nat, to: nat)
      modifies this`edges
      ensures edges == Redirect(old(edges), id, to)
    {
      var i := 0;
      while i < |edges|
        invariant 0 <= i <= |edges| == |old(edges)|
        invariant edges[..i] == Redirect(old(edges), id, to)[..i] && edges[i..] == old(edges)[i..]
      {
        if edges[i].to == id { edges := edges[i := edges[i].(to := to)]; }
        i := i + 1;
      }
    }

    /** The loop over the edges out of `local`: number the target, draw the edge, walk on. */
    method EmitEdges(walk: Walk, local: NodeId, from: nat, ghost lo: nat, ghost busy: Busy)
      requires local in walk.visited && local in walk.ids && local !in busy
      requires Keeps(walk, lo, At(walk.activity, busy, local, 0))
      requires from == From(walk.ids, walk.subs, local)
      modifies this, walk`ids, walk`visited, walk`subs
      ensures Keeps(walk, lo, busy) && Advanced(old(walk.State()), walk.State(), local)
      ensures Emitted(old(Out()), Out(), walk.jumps, lo)
      decreases walk.activity, AllIds(walk.activity) - walk.visited, 2
    {
      hide Inv, Emitted, WellFormed, Walkable, Advanced, Below, OutEdges, From;
      ghost var w0 := walk.State();
      ghost var out0 := Out();
      var activity := walk.activity;
      ghost var all := OutEdges(activity.edges, local);
      ghost var k := 0;
      EmittedSelf(out0, walk.jumps, lo);
      AdvancedSelf(w0, local);
      NoEdges(activity.edges, local);
      var i := 0;
      while i < |activity.edges|
        invariant 0 <= i <= |activity.edges|
        invariant Keeps(walk, lo, At(activity, busy, local, k)) && Advanced(w0, walk.State(), local)
        invariant Emitted(out0, Out(), walk.jumps, lo)
        invariant k == |OutEdges(activity.edges[..i], local)| <= |all|
        invariant forall m :: 0 <= m < k && all[m].to.Local? ==> all[m].to.id in walk.visited
        invariant local in walk.visited && local in walk.ids && from == From(walk.ids, walk.subs, local)
      {
        OutEdgesSnoc(activity.edges, i, local);
        OutEdgesPrefix(activity.edges, i + 1, local);
        var e := activity.edges[i];
        if e.from == local {
          assert all[k] == e;
          EdgeOf(activity, i, local);
          ghost var w1 := walk.State();
          ghost var out1 := Out();
          ghost var next1 := nextId;
          var to: Option<nat>;
          if e.to.Local? {
            var id := GlobalId(walk, e.to.id);
            to := Some(id);
          } else {
            to := walk.jumps.Resolve(e.to);
          }
          if to.Some? { edges := edges + [FlatEdge(from, to.value, e.guard)]; }
          EmitStep(activity, w1, walk.jumps, out1, lo, next1, busy, local, k, walk.State(), Out(), nextId);
          ghost var out2 := Out();
          ghost var w2 := walk.State();
          EmittedTrans(out0, out1, out2, walk.jumps, lo);
          AdvancedTrans(w0, w1, w2, local, local);
          AdvancedKeeps(w1, w2, local, local);
          if e.to.Local? {
            WalkNode(walk, e.to.id, lo, busy[local := k + 1]);
            EmittedTrans(out0, out2, Out(), walk.jumps, lo);
            AdvancedTrans(w0, w2, walk.State(), local, e.to.id);
            AdvancedKeeps(w2, walk.State(), local, e.to.id);
          }
          k := k + 1;
        }
        i := i + 1;
      }
      assert activity.edges[..i] == activity.edges;
      Leaves(activity, walk.State(), walk.jumps, Out(), lo, nextId, busy, local);
    }
  }

  // --------------------------------------------------- glue for the methods above

  /** The stack with `k` edges of `local` done; the exit never has edges of its own. */
  ghost function At(a: Activity, busy: Busy, local: NodeId, k: nat): Busy {
    if local == a.exit then busy else busy[local := k]
  }

  lemma Ends(a: Activity)
    requires WellFormed(a)
    ensures a.initial < |a.nodes| && a.exit < |a.nodes| && a.initial != a.exit
    ensures Flattened(a.nodes[a.initial].kind).Some? && Flattened(a.nodes[a.exit].kind).Some?
  {
  }

  lemma BodyWellFormed(a: Activity, n: NodeId)
    requires WellFormed(a) && IsStructured(a, n)
    ensures WellFormed(a.nodes[n].kind.body)
  {
  }

  lemma EdgeOf(a: Activity, i: nat, local: NodeId)
    requires WellFormed(a) && i < |a.edges| && a.edges[i].from == local
    ensures local != a.exit && (a.edges[i].to.Local? ==> a.edges[i].to.id < |a.nodes|)
  {
    assert InRange(GraphOf(a));
    OutEdgesIn(a.edges, a.exit);
  }

  lemma NoEdges(edges: seq<ControlFlow>, n: NodeId)
    ensures OutEdges(edges[..0], n) == []
  {
  }

  lemma EmittedSelf(out: FlatGraph, j: Jumps, lo: nat)
    ensures Emitted(out, out, j, lo)
  {
  }

  lemma StartEmitted(out: FlatGraph, out2: FlatGraph, j: Jumps, lo: nat, a: Activity, entry: nat, exit: nat)
    requires a.initial < |a.nodes| && a.exit < |a.nodes|
    requires out2.edges == out.edges
    requires out2.nodes == AddNode(AddNode(out.nodes, entry, a.nodes[a.initial]), exit, a.nodes[a.exit])
    ensures Emitted(out, out2, j, lo)
  {
  }

  lemma AdvancedSelf(w: WalkState, local: NodeId)
    requires local in w.visited
    ensures Advanced(w, w, local)
  {
  }

  lemma AdvancedKeeps(w: WalkState, w2: WalkState, local: NodeId, t: NodeId)
    requires Advanced(w, w2, t) && local in w.visited && local in w.ids
    ensures local in w2.ids && w.visited <= w2.visited && t in w2.visited
    ensures From(w2.ids, w2.subs, local) == From(w.ids, w.subs, local)
  {
  }

  lemma EnterAdvanced(w: WalkState, w2: WalkState, local: NodeId)
    requires w2.ids == w.ids && w2.visited == w.visited + {local} && local !in w.visited && local !in w.subs
    requires w2.subs == w.subs || (local in w2.subs && w2.subs == w.subs[local := w2.subs[local]])
    ensures Advanced(w, w2, local)
  {
  }

  lemma InvParts(a: Activity, w: WalkState, j: Jumps, out: FlatGraph, lo: nat, next: nat, busy: Busy, local: NodeId)
    requires WellFormed(a)
    requires Inv(a, w, j, out, lo, next, busy) && lo <= next && local in w.ids && local !in w.visited
    ensures BoundsOk(out, next) && local !in busy && local !in w.subs
    ensures IsStructured(a, local) ==> local != a.exit
    ensures IdsOk(a, w, lo, next) && SubsOk(a, w, lo, next)
    ensures forall id: nat :: IsJump(j, id) ==> id < next
  {
  }

  lemma PlacedMore(a: Activity, q: Placement, j: Jumps, inner: Jumps, out: FlatGraph, next: nat, out1: FlatGraph, next1: nat)
    requires BodyPlaced(a, q, j, inner, out, next, out1, next1)
    ensures next <= next1
  {
  }

  lemma Leaves(a: Activity, w: WalkState, j: Jumps, out: FlatGraph, lo: nat, next: nat, busy: Busy, local: NodeId)
    requires WellFormed(a) && local !in busy
    requires Inv(a, w, j, out, lo, next, At(a, busy, local, |OutEdges(a.edges, local)|))
    requires forall k :: 0 <= k < |OutEdges(a.edges, local)| && OutEdges(a.edges, local)[k].to.Local? ==>
               OutEdges(a.edges, local)[k].to.id in w.visited
    ensures Inv(a, w, j, out, lo, next, busy)
  {
    hide Core, EnteredOk, WellFormed;
    if local != a.exit {
      var k := |OutEdges(a.edges, local)|;
      Leave(a, w, j, out, lo, next, busy[local := k], local);
      assert busy[local := k] - {local} == busy;
    }
  }
}
