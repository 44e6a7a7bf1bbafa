/** What flattening relies on in the output of pass 1: every edge stays in range, the
    exit has no edge of its own, and a `Structured` node is entered by one edge only,
    at every nesting level. */
module ActivityTidy {
  import opened Syntax
  import opened ActivityBuild
  import opened ActivityWiring

  ghost predicate WellFormed(a: Activity)
    decreases a
  {
    && a.initial < |a.nodes| && a.exit < |a.nodes| && a.initial != a.exit
    && !a.nodes[a.initial].kind.Structured? && !a.nodes[a.exit].kind.Structured?
    && OutEdges(a.edges, a.exit) == []
    && InRange(GraphOf(a)) && EnteredOnce(GraphOf(a))
    && forall n :: 0 <= n < |a.nodes| && a.nodes[n].kind.Structured? ==> WellFormed(a.nodes[n].kind.body)
  }

  /** The part of `WellFormed` that building a graph maintains. */
  ghost predicate Tidy(g: Graph) {
    && InRange(g) && EnteredOnce(g)
    && forall n :: 0 <= n < |g.nodes| && g.nodes[n].kind.Structured? ==> WellFormed(g.nodes[n].kind.body)
  }

  ghost predicate InRange(g: Graph) {
    forall i :: 0 <= i < |g.edges| ==>
      g.edges[i].from < |g.nodes| && (g.edges[i].to.Local? ==> g.edges[i].to.id < |g.nodes|)
  }

  predicate IntoStructured(g: Graph, i: nat) requires i < |g.edges| {
    var to := g.edges[i].to;
    to.Local? && to.id < |g.nodes| && g.nodes[to.id].kind.Structured?
  }

  ghost predicate EnteredOnce(g: Graph) {
    forall i, j :: 0 <= i < j < |g.edges| && g.edges[i].to == g.edges[j].to ==> !IntoStructured(g, i)
  }

  /** `h` extends `g` with nodes and with edges into those new nodes only. */
  ghost predicate Added(g: Graph, h: Graph) {
    && g.nodes <= h.nodes && g.edges <= h.edges && Tidy(h)
    && forall i :: |g.edges| <= i < |h.edges| && h.edges[i].to.Local? ==> h.edges[i].to.id >= |g.nodes|
  }

  ghost predicate Untouched(g: Graph, n: NodeId) {
    forall i :: 0 <= i < |g.edges| ==> g.edges[i].to != Local(n)
  }

  ghost predicate BlockAdded(g: Graph, chain: Chain, h: Graph, o: BlockOutcome) {
    && Added(g, h)
    && (o.Flows? ==> o.tail < |h.nodes|)
    && (chain.None? ==>
         match o.Entry()
         case Some(Local(e)) => |g.nodes| <= e < |h.nodes| && Untouched(h, e)
         case _ => true)
    && (chain.Some? ==> o.Entry() == Some(Local(chain.value.0)))
  }

  ghost predicate Joinable(g: Graph, to: Target) {
    to.Local? ==> to.id < |g.nodes| && (!g.nodes[to.id].kind.Structured? || Untouched(g, to.id))
  }

  lemma ConnectTidy(g: Graph, from: NodeId, to: Target, guard: Option<Guard>)
    requires Tidy(g) && from < |g.nodes| && Joinable(g, to)
    ensures Tidy(Connect(g, from, to, guard))
  {
  }

  lemma PushTidy(g: Graph, kind: ActivityNode, line: nat)
    requires Tidy(g) && (kind.Structured? ==> WellFormed(kind.body))
    ensures Tidy(Push(g, kind, line)) && Untouched(Push(g, kind, line), |g.nodes|)
  {
  }

  /** A drawn statement's node, entered from the chain's tail if there is one. */
  lemma NodeTidy(g: Graph, chain: Chain, kind: ActivityNode, line: nat)
    requires Tidy(g) && (chain.Some? ==> chain.value.1 < |g.nodes|)
    requires kind.Structured? ==> WellFormed(kind.body)
    ensures var n := |g.nodes|;
      var (g2, chain2) := Extend(Push(g, kind, line), chain, Some((n, n)));
      && Added(g, g2) && |g2.nodes| == n + 1
      && chain2 == Some((if chain.Some? then chain.value.0 else n, n))
      && (chain.None? ==> Untouched(g2, n))
  {
    PushTidy(g, kind, line);
    if chain.Some? { ConnectTidy(Push(g, kind, line), chain.value.1, Local(|g.nodes|), None); }
  }

  lemma StepAdded(g: Graph, chain: Chain, g2: Graph, chain2: Chain, h: Graph, o: BlockOutcome)
    requires Added(g, g2) && |g2.nodes| == |g.nodes| + 1
    requires chain2 == Some((if chain.Some? then chain.value.0 else |g.nodes|, |g.nodes|))
    requires chain.None? ==> Untouched(g2, |g.nodes|)
    requires BlockAdded(g2, chain2, h, o)
    ensures BlockAdded(g, chain, h, o)
  {
    if chain.None? {
      forall i | 0 <= i < |h.edges| ensures h.edges[i].to != Local(|g.nodes|) {
        if i < |g2.edges| { assert h.edges[i] == g2.edges[i]; }
      }
    }
  }

  lemma {:induction false} BlockTidy(g: Graph, chain: Chain, stmts: Block)
    requires Tidy(g) && (chain.Some? ==> chain.value.1 < |g.nodes|)
    ensures BlockAdded(g, chain, BuildBlock(g, chain, stmts).0, BuildBlock(g, chain, stmts).1)
    decreases BlockSize(stmts), 2
  {
    if stmts == [] { return; }
    var s := stmts[0];
    if Drawn(s) {
      NodeWellFormed(s);
      NodeTidy(g, chain, NodeFor(s), s.line);
      var (g2, chain2) := Extend(Push(g, NodeFor(s), s.line), chain, Some((|g.nodes|, |g.nodes|)));
      if JumpOf(s) == None {
        BlockTidy(g2, chain2, stmts[1..]);
        var (h, o) := BuildBlock(g2, chain2, stmts[1..]);
        StepAdded(g, chain, g2, chain2, h, o);
      } else {
        ConnectTidy(g2, chain2.value.1, JumpOf(s).value, None);
      }
    } else if JumpOf(s).Some? {
      if chain.Some? { ConnectTidy(g, chain.value.1, JumpOf(s).value, None); }
    } else {
      BlockTidy(g, chain, stmts[1..]);
    }
  }

  lemma {:induction false} NodeWellFormed(s: Stmt)
    requires Drawn(s)
    ensures NodeFor(s).Structured? ==> WellFormed(NodeFor(s).body)
    decreases StmtSize(s), 1
  {
    match s.kind {
      case If(cond, body, elifs, orelse) => IfTidy(s.line, cond, body, elifs, orelse);
      case While(_, body) => LoopTidy(s.line, LoopLabel(s), body);
      case ForEach(_, _, body) => LoopTidy(s.line, LoopLabel(s), body);
      case For(_, _, _, _, body, _) => LoopTidy(s.line, LoopLabel(s), body);
      case _ =>
    }
  }

  /** Entering a built block from `from` and letting it fall through to `next`. */
  lemma EnteredTidy(g: Graph, h: Graph, o: BlockOutcome, from: NodeId, guard: Option<Guard>, next: NodeId)
    requires Tidy(g) && BlockAdded(g, None, h, o) && from < |g.nodes| && next < |g.nodes|
    requires !g.nodes[next].kind.Structured?
    ensures var w := Close(Connect(h, from, EntryOr(o, Local(next)), guard), o, Local(next));
      Tidy(w) && g.nodes <= w.nodes
  {
    var e := EntryOr(o, Local(next));
    ConnectTidy(h, from, e, guard);
    if o.Flows? { ConnectTidy(Connect(h, from, e, guard), o.tail, Local(next), None); }
  }

  lemma {:induction false} LoopTidy(line: nat, text: Span, body: Block)
    ensures WellFormed(BuildLoop(line, text, body))
    decreases BlockSize(body), 3
  {
    var g := TwoNodes(Decision(text), line);
    BlockTidy(g, None, body);
    var (h, o) := BuildBlock(g, None, body);
    EnteredTidy(g, h, o, 0, Some(Cond(text)), 0);
    var w := Close(Connect(h, 0, EntryOr(o, Local(0)), Some(Cond(text))), o, Local(0));
    ConnectTidy(w, 0, Local(1), Some(Otherwise));
    LoopBuilt(line, text, body);
    assert GraphOf(BuildLoop(line, text, body)) == Connect(w, 0, Local(1), Some(Otherwise));
  }

  lemma {:induction false} BranchTidy(g: Graph, from: NodeId, guard: Guard, stmts: Block, join: NodeId)
    requires Tidy(g) && from < |g.nodes| && join < |g.nodes| && !g.nodes[join].kind.Structured?
    ensures Tidy(WireBranch(g, from, guard, stmts, join)) && g.nodes <= WireBranch(g, from, guard, stmts, join).nodes
    decreases BlockSize(stmts), 3
  {
    BlockTidy(g, None, stmts);
    var (h, o) := BuildBlock(g, None, stmts);
    EnteredTidy(g, h, o, from, Some(guard), join);
  }

  lemma {:induction false} ElifsTidy(g: Graph, last: NodeId, elifs: seq<Arm>, join: NodeId)
    requires Tidy(g) && last < |g.nodes| && join < |g.nodes| && !g.nodes[join].kind.Structured?
    ensures var (h, last2) := BuildElifs(g, last, elifs, join);
      Tidy(h) && g.nodes <= h.nodes && last2 < |h.nodes|
    decreases ArmsSize(elifs), 4
  {
    if elifs != [] {
      var d := |g.nodes|;
      var text := elifs[0].cond.fullSpan;
      var g0 := Push(g, Decision(text), elifs[0].cond.line);
      PushTidy(g, Decision(text), elifs[0].cond.line);
      ConnectTidy(g0, last, Local(d), Some(Otherwise));
      var g1 := Connect(g0, last, Local(d), Some(Otherwise));
      BranchTidy(g1, d, Cond(text), elifs[0].body, join);
      ElifsTidy(WireBranch(g1, d, Cond(text), elifs[0].body, join), d, elifs[1..], join);
    }
  }

  lemma {:induction false} IfTidy(line: nat, cond: Expr, body: Block, elifs: seq<Arm>, orelse: ElseBlock)
    ensures WellFormed(BuildIf(line, cond, body, elifs, orelse))
    decreases BlockSize(body) + ArmsSize(elifs) + BlockSize(ElseOf(orelse)), 5
  {
    var g := TwoNodes(Decision(cond.fullSpan), line);
    BranchTidy(g, 0, Cond(cond.fullSpan), body, 1);
    var g1 := WireBranch(g, 0, Cond(cond.fullSpan), body, 1);
    ElifsTidy(g1, 0, elifs, 1);
    var (g2, last) := BuildElifs(g1, 0, elifs, 1);
    BranchTidy(g2, last, Otherwise, ElseOf(orelse), 1);
    IfBuilt(line, cond, body, elifs, orelse);
    var h := WireBranch(g2, last, Otherwise, ElseOf(orelse), 1);
    assert h.nodes[0] == g.nodes[0];
    assert GraphOf(BuildIf(line, cond, body, elifs, orelse)) == h;
  }

  /** Pass 1 hands flattening a well-formed activity. */
  lemma {:induction false} BuildTidy(stmts: Block)
    ensures WellFormed(Build(stmts))
  {
    var g := Graph([Node(0, Initial, 0), Node(1, ActivityFinal, 0)], []);
    BlockTidy(g, None, stmts);
    var (h, o) := BuildBlock(g, None, stmts);
    EnteredTidy(g, h, o, 0, None, 1);
    BuildWires(stmts);
    var w := Close(Connect(h, 0, EntryOr(o, Local(1)), None), o, Local(1));
    assert GraphOf(Build(stmts)) == w;
  }
}
