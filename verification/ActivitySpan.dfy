/** What holds of every flattened program, whether or not each jump is inside a loop: no
    edge leads to a node that is not there, so the diagram can be laid out. */
module ActivitySpan {
  import opened Syntax
  import opened ActivityBuild
  import opened ActivityWiring
  import opened ActivityTidy
  import opened FlatGraphs
  import opened FlattenWalk
  import opened FlatPaths
  import opened ActivityMeaning
  import opened ActivityLegal

  /** `id` stands for a plain node of `a` or of a body inside it. */
  ghost predicate Spans(a: Activity, p: Placement, id: nat)
    decreases a
  {
    || (exists n :: n in p.ids && (n in p.visited || n == a.exit) && n < |a.nodes| && !a.nodes[n].kind.Structured? && p.ids[n] == id)
    || (exists n :: n in p.subs && n < |a.nodes| && a.nodes[n].kind.Structured? && Spans(a.nodes[n].kind.body, p.subs[n], id))
  }

  lemma NodeHasId(nodes: seq<FlatNode>, id: nat, n: Node)
    requires HasNode(nodes, id, n)
    ensures HasId(nodes, id)
  {
  }

  /** The ends of an activity are among its nodes. */
  lemma EndsSpanned(a: Activity, p: Placement, j: Jumps, u: FlatGraph)
    requires WellFormed(a) && Flat(a, p, j, u)
    ensures Spans(a, p, p.entry) && Spans(a, p, p.exit)
  {
    assert a.initial in p.ids && p.ids[a.initial] == p.entry;
    assert a.exit in p.ids && p.ids[a.exit] == p.exit;
  }

  lemma {:induction false} ImageIn(ids: map<NodeId, nat>, subs: map<NodeId, Placement>, j: Jumps, from: nat, out: seq<ControlFlow>, e: FlatEdge)
    requires e in Image(ids, subs, j, from, out)
    ensures exists k :: 0 <= k < |out| && Land(ids, subs, j, out[k].to) == Some(e.to)
    decreases |out|
  {
    var last := out[|out| - 1];
    if Land(ids, subs, j, last.to) != Some(e.to) {
      ImageIn(ids, subs, j, from, out[..|out| - 1], e);
      var k :| 0 <= k < |out| - 1 && Land(ids, subs, j, out[..|out| - 1][k].to) == Some(e.to);
      assert out[k] == out[..|out| - 1][k];
    }
  }

  /** An edge out of a local node leads to a node of the same activity, or jumps. */
  lemma EdgeSpanned(a: Activity, p: Placement, j: Jumps, u: FlatGraph, n: NodeId, e: FlatEdge)
    requires WellFormed(a) && Flat(a, p, j, u) && n in p.visited && n != a.exit
    requires e in u.edges && e.from == From(p.ids, p.subs, n)
    ensures Spans(a, p, e.to) || IsJump(j, e.to)
  {
    hide Flat, WellFormed;
    DrawnAt(a, p, j, u, n);
    OutFlatIn(u.edges, e.from);
    var out := OutEdges(a.edges, n);
    ImageIn(p.ids, p.subs, j, e.from, out, e);
    var k :| 0 <= k < |out| && Land(p.ids, p.subs, j, out[k].to) == Some(e.to);
    if out[k].to.Local? { TargetSpanned(a, p, j, u, out[k].to.id); }
  }

  lemma TargetSpanned(a: Activity, p: Placement, j: Jumps, u: FlatGraph, n: NodeId)
    requires WellFormed(a) && Flat(a, p, j, u) && n in p.visited
    ensures Spans(a, p, To(p.ids, p.subs, n))
  {
    DrawnAt(a, p, j, u, n);
    if a.nodes[n].kind.Structured? {
      EndsSpanned(a.nodes[n].kind.body, p.subs[n], BodyJumps(a, n, p.subs[n], j), u);
    }
  }

  /** The local node that `id` stands for, or the structured node it is inside. */
  lemma SpannedBy(a: Activity, p: Placement, j: Jumps, u: FlatGraph, id: nat) returns (n: NodeId)
    requires WellFormed(a) && Flat(a, p, j, u) && Spans(a, p, id)
    ensures n in p.ids && n < |a.nodes|
    ensures !a.nodes[n].kind.Structured? ==> (n in p.visited || n == a.exit) && From(p.ids, p.subs, n) == id
    ensures a.nodes[n].kind.Structured? ==>
              && n in p.visited && n in p.subs && n != a.exit && From(p.ids, p.subs, n) == p.subs[n].exit
              && WellFormed(a.nodes[n].kind.body) && Spans(a.nodes[n].kind.body, p.subs[n], id)
              && Flat(a.nodes[n].kind.body, p.subs[n], BodyJumps(a, n, p.subs[n], j), u)
  {
    if m :| m in p.ids && (m in p.visited || m == a.exit) && m < |a.nodes| && !a.nodes[m].kind.Structured? && p.ids[m] == id {
      n := m;
    } else {
      n :| n in p.subs && n < |a.nodes| && a.nodes[n].kind.Structured? && Spans(a.nodes[n].kind.body, p.subs[n], id);
    }
  }

  /** Every id an activity spans has a node. */
  lemma {:induction false} SpannedDrawn(a: Activity, p: Placement, j: Jumps, u: FlatGraph, id: nat)
    requires WellFormed(a) && Flat(a, p, j, u) && Spans(a, p, id)
    ensures HasId(u.nodes, id)
    decreases a
  {
    hide WellFormed, Flat, Spans, HasId;
    var n := SpannedBy(a, p, j, u, id);
    if a.nodes[n].kind.Structured? {
      SpannedDrawn(a.nodes[n].kind.body, p.subs[n], BodyJumps(a, n, p.subs[n], j), u, id);
    } else {
      PlainDrawn(a, p, j, u, n);
    }
  }

  lemma PlainDrawn(a: Activity, p: Placement, j: Jumps, u: FlatGraph, n: NodeId)
    requires Flat(a, p, j, u) && n in p.ids && n < |a.nodes| && !a.nodes[n].kind.Structured?
    ensures HasId(u.nodes, From(p.ids, p.subs, n))
  {
    NodeHasId(u.nodes, p.ids[n], a.nodes[n]);
  }

  lemma SubSpanned(a: Activity, p: Placement, n: NodeId, id: nat)
    requires n in p.subs && n < |a.nodes| && a.nodes[n].kind.Structured? && Spans(a.nodes[n].kind.body, p.subs[n], id)
    ensures Spans(a, p, id)
  {
  }

  lemma ExitPlaced(a: Activity, p: Placement, j: Jumps, u: FlatGraph)
    requires WellFormed(a) && Flat(a, p, j, u)
    ensures From(p.ids, p.subs, a.exit) == p.exit
  {
  }

  /** Every edge but those out of the exit leads to a node of the activity, or jumps. */
  lemma {:induction false} SpansClosed(a: Activity, p: Placement, j: Jumps, u: FlatGraph, e: FlatEdge)
    requires WellFormed(a) && Flat(a, p, j, u) && e in u.edges && Spans(a, p, e.from) && e.from != p.exit
    ensures Spans(a, p, e.to) || IsJump(j, e.to)
    decreases a
  {
    hide WellFormed, Flat, Spans;
    var n := SpannedBy(a, p, j, u, e.from);
    ExitPlaced(a, p, j, u);
    if !a.nodes[n].kind.Structured? || e.from == p.subs[n].exit {
      EdgeSpanned(a, p, j, u, n, e);
    } else {
      var body, q := a.nodes[n].kind.body, p.subs[n];
      SpansClosed(body, q, BodyJumps(a, n, q, j), u, e);
      EndsSpanned(body, q, BodyJumps(a, n, q, j), u);
      forall id | id == e.to || id == q.entry || id == q.exit ensures Spans(body, q, id) ==> Spans(a, p, id) {
        if Spans(body, q, id) { SubSpanned(a, p, n, id); }
      }
    }
  }

  /** Everything the entry reaches has a node. */
  lemma KeptSpanned(a: Activity, p: Placement, u: FlatGraph, keep: set<nat>, out: FlatGraph, id: nat)
    requires WellFormed(a) && Flattening(a, p, u, keep, out) && id in keep
    ensures HasId(out.nodes, id)
  {
    hide Flat, WellFormed, Spans;
    var path :| IsPath(u.edges, p.entry, id, path);
    EndsSpanned(a, p, Top(p), u);
    PathSpanned(a, p, u, p.entry, id, path);
    SpannedDrawn(a, p, Top(p), u, id);
    KeepNodesIn(u.nodes, keep);
  }

  lemma {:induction false} PathSpanned(a: Activity, p: Placement, u: FlatGraph, from: nat, to: nat, path: seq<FlatEdge>)
    requires WellFormed(a) && Flat(a, p, Top(p), u) && OutFlat(u.edges, p.exit) == []
    requires IsPath(u.edges, from, to, path) && Spans(a, p, from)
    ensures Spans(a, p, to)
    decreases |path|
  {
    hide Flat, WellFormed, Spans;
    if path != [] {
      OutFlatIn(u.edges, p.exit);
      SpansClosed(a, p, Top(p), u, path[0]);
      EndsSpanned(a, p, Top(p), u);
      PathSpanned(a, p, u, path[0].to, to, path[1..]);
    }
  }

  /** Every flattened activity can be laid out. */
  lemma FlattenedLayable(a: Activity, p: Placement, u: FlatGraph, keep: set<nat>, out: FlatGraph)
    requires WellFormed(a) && Flattening(a, p, u, keep, out)
    ensures Layable(out, p.entry) && Ascending(out.nodes)
  {
    hide Flat, WellFormed, HasId;
    StartKept(u, p.entry, keep);
    KeepNodesAscending(u.nodes, keep);
    KeptSpanned(a, p, u, keep, out, p.entry);
    forall e | e in out.edges ensures HasId(out.nodes, e.from) && HasId(out.nodes, e.to) {
      KeepEdgesIn(u.edges, keep);
      ReachesStep(u.edges, p.entry, e);
      KeptSpanned(a, p, u, keep, out, e.from);
      KeptSpanned(a, p, u, keep, out, e.to);
    }
    forall n | n in out.nodes ensures Reaches(out.edges, p.entry, n.id) {
      KeepNodesIn(u.nodes, keep);
      PrunedReaches(u, p.entry, out, keep, p.entry, n.id);
    }
  }
}
