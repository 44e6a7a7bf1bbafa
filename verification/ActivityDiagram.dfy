/** Both passes together: from statements to a flat diagram. */
module ActivityDiagram {
  import opened Syntax
  import opened ActivityBuild
  import opened ActivityBuilder
  import opened ActivityTidy
  import opened FlatGraphs
  import opened FlatPaths
  import opened ActivityFlatten
  import opened ActivityTraces
  import opened ActivityWiring
  import opened ActivityMeaning
  import opened ActivityLegal
  import opened ActivitySpan

  /** Flattens `a` and drops what its initial node cannot reach. */
  method Flatten(a: Activity) returns (out: FlatGraph)
    requires WellFormed(a)
    ensures exists p, u, keep :: Flattening(a, p, u, keep, out) && p.entry == 0
  {
    var f := new Flattener();
    var placed;
    ghost var p, keep;
    placed, p := f.WalkActivity(a, InFunction, Jumps(None, None));
    ghost var u := f.Out();
    out, keep := Prune(FlatGraph(f.nodes, f.edges), placed.entry);
    assert Flattening(a, p, u, keep, out) && p.entry == 0;
  }

  /** The diagram of a function body or module: it starts at its initial node and has no
      dangling edge, also when the edge of a stray jump was skipped. When all jumps are
      inside loops, it is a legal activity graph that can do exactly what the statements
      can do. */
  method Diagram(stmts: Block) returns (out: FlatGraph)
    ensures out.nodes != [] && out.nodes[0].kind == FInitial && Layable(out, out.nodes[0].id)
    ensures JumpsBound(stmts, false) ==> exists final :: Depicts(out, final, stmts)
  {
    hide Flattening, Layable, LegalActivity, Performs, IsTrace, WellFormed;
    BuildTidy(stmts);
    var a := BuildActivity(stmts);
    out := Flatten(a);
    ghost var p, u, keep :| Flattening(a, p, u, keep, out) && p.entry == 0;
    FlattenedLayable(a, p, u, keep, out);
    EntryFirst(stmts, p, u, keep, out);
    if JumpsBound(stmts, false) {
      DiagramLegal(stmts, p, u, keep, out);
      forall events ensures Performs(out, p.entry, p.exit, events) <==> IsTrace(stmts, events) {
        ControlFlowPreserved(stmts, p, u, keep, out, events);
      }
      assert Depicts(out, p.exit, stmts);
    }
  }

  /** From its first node to `final` the graph is a legal activity, and its paths are the
      traces of the statements. */
  ghost predicate Depicts(out: FlatGraph, final: nat, stmts: Block) {
    out.nodes != [] && LegalActivity(out, out.nodes[0].id, final) &&
    forall events :: Performs(out, out.nodes[0].id, final, events) <==> IsTrace(stmts, events)
  }

  /** The first node is the initial node. */
  ghost predicate StartsAt(out: FlatGraph, initial: nat) {
    out.nodes != [] && out.nodes[0].id == initial && out.nodes[0].kind == FInitial
  }

  lemma EntryFirst(stmts: Block, p: Placement, u: FlatGraph, keep: set<nat>, out: FlatGraph)
    requires WellFormed(Build(stmts)) && Flattening(Build(stmts), p, u, keep, out) && p.entry == 0
    ensures StartsAt(out, p.entry)
  {
    hide Flat, WellFormed, Layable;
    var a := Build(stmts);
    FlattenedLayable(a, p, u, keep, out);
    BuildEnds(stmts);
    PlacedEnds(a, p, Top(p), u);
    KeepNodesIn(u.nodes, keep);
    StartKept(u, p.entry, keep);
    var n := FlatNode(0, FInitial, a.nodes[a.initial].line);
    assert n in out.nodes;
    assert out.nodes[0].id == 0;
  }

  lemma BuildEnds(stmts: Block)
    ensures var a := Build(stmts);
      a.initial < |a.nodes| && a.exit < |a.nodes| && a.nodes[a.initial].kind == Initial && a.nodes[a.exit].kind == ActivityFinal
  {
    BuildWires(stmts);
  }
}
