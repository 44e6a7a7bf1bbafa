/** The in-place half of pass 1 (src/activity.rs): `Builder` pushes nodes and edges onto
    its two vectors; every method leaves them exactly as `ActivityBuild` computes. */
module ActivityBuilder {
  import opened Syntax
  import opened ActivityBuild

  class Builder {
    var nodes: seq<Node>
    var edges: seq<ControlFlow>

    ghost function G(): Graph reads this { Graph(nodes, edges) }

    constructor ()
      ensures G() == Graph([], [])
    {
      nodes, edges := [], [];
    }

    method Push(kind: ActivityNode, line: nat) returns (id: NodeId)
      modifies this
      ensures G() == ActivityBuild.Push(old(G()), kind, line) && id == |old(nodes)|
    {
      id := |nodes|;
      nodes := nodes + [Node(id, kind, line)];
    }

    method Connect(from: NodeId, to: Target, guard: Option<Guard>)
      modifies this
      ensures G() == ActivityBuild.Connect(old(G()), from, to, guard)
    {
      edges := edges + [ControlFlow(from, to, guard)];
    }

    /** Wires each statement to the next; a jump ends the block. */
    method Block(stmts: Syntax.Block) returns (o: BlockOutcome)
      modifies this
      ensures (G(), o) == BuildBlock(old(G()), None, stmts)
      decreases BlockSize(stmts), 1
    {
      var chain: Chain := None;
      var i := 0;
      while i < |stmts|
        invariant 0 <= i <= |stmts| && BlockSize(stmts[i..]) <= BlockSize(stmts)
        invariant BuildBlock(G(), chain, stmts[i..]) == BuildBlock(old(G()), None, stmts)
      {
        assert stmts[i..][0] == stmts[i] && stmts[i..][1..] == stmts[i + 1..];
        var placed := Stmt(stmts[i]);
        if placed.Some? {
          if chain.Some? {
            Connect(chain.value.1, Local(placed.value.0), None);
            chain := Some((chain.value.0, placed.value.1));
          } else {
            chain := placed;
          }
        }
        var target := JumpOf(stmts[i]);
        if target.Some? {
          if chain.Some? {
            Connect(chain.value.1, target.value, None);
            return Diverts(Some(chain.value.0), target.value);
          }
          return Diverts(None, target.value);
        }
        i := i + 1;
      }
      assert stmts[i..] == [];
      o := if chain.Some? then Flows(chain.value.0, chain.value.1) else Empty;
    }

    method Stmt(s: Syntax.Stmt) returns (placed: Chain)
      modifies this
      ensures (G(), placed) == BuildStmt(old(G()), s)
      decreases StmtSize(s), 0
    {
      if !Drawn(s) { return None; }
      var n;
      match s.kind {
        case If(cond, body, elifs, orelse) => n := BuildIf(s.line, cond, body, elifs, orelse);
        case While(_, body) => n := BuildLoop(s.line, LoopLabel(s), None, body);
        case ForEach(_, _, body) => n := BuildLoop(s.line, LoopLabel(s), None, body);
        case For(_, _, _, _, body, _) => n := BuildLoop(s.line, LoopLabel(s), SetupOf(s), body);
        case _ => n := Push(Action(ActionSpan(s)), s.line);
      }
      placed := Some((n, n));
    }

    method BuildLoop(line: nat, text: Span, setup: Option<LoopSetup>, body: Syntax.Block) returns (n: NodeId)
      modifies this
      ensures n == |old(nodes)|
      ensures G() == ActivityBuild.Push(old(G()), Structured(Loop, setup, ActivityBuild.BuildLoop(line, text, body)), line)
      decreases BlockSize(body), 2
    {
      var inner := new Builder();
      var decision := inner.Push(Decision(text), line);
      var exit := inner.Push(Merge, line);
      assert inner.G() == TwoNodes(Decision(text), line);
      var o := inner.Block(body);
      inner.Connect(decision, EntryOr(o, Local(decision)), Some(Cond(text)));
      if o.Flows? { inner.Connect(o.tail, Local(decision), None); }
      inner.Connect(decision, Local(exit), Some(Otherwise));
      n := Push(Structured(Loop, setup, Activity(inner.nodes, inner.edges, decision, exit)), line);
    }

    method BuildIf(line: nat, cond: Expr, body: Syntax.Block, elifs: seq<Arm>, orelse: ElseBlock) returns (n: NodeId)
      modifies this
      ensures n == |old(nodes)|
      ensures G() == ActivityBuild.Push(old(G()),
                       Structured(Conditional, None, ActivityBuild.BuildIf(line, cond, body, elifs, orelse)), line)
      decreases BlockSize(body) + ArmsSize(elifs) + BlockSize(ElseOf(orelse)), 4
    {
      var inner := new Builder();
      var decision := inner.Push(Decision(cond.fullSpan), line);
      var merge := inner.Push(Merge, line);
      assert inner.G() == TwoNodes(Decision(cond.fullSpan), line);
      inner.WireBranch(decision, Cond(cond.fullSpan), body, merge);
      ghost var g1 := inner.G();
      var last := decision;
      var i := 0;
      while i < |elifs|
        invariant 0 <= i <= |elifs| && ArmsSize(elifs[i..]) <= ArmsSize(elifs)
        invariant BuildElifs(inner.G(), last, elifs[i..], merge) == BuildElifs(g1, decision, elifs, merge)
        invariant unchanged(this) && fresh(inner)
      {
        assert elifs[i..][0] == elifs[i] && elifs[i..][1..] == elifs[i + 1..];
        var text := elifs[i].cond.fullSpan;
        var d := inner.Push(Decision(text), elifs[i].cond.line);
        inner.Connect(last, Local(d), Some(Otherwise));
        inner.WireBranch(d, Cond(text), elifs[i].body, merge);
        last := d;
        i := i + 1;
      }
      assert elifs[i..] == [];
      inner.WireBranch(last, Otherwise, ElseOf(orelse), merge);
      n := Push(Structured(Conditional, None, Activity(inner.nodes, inner.edges, decision, merge)), line);
    }

    method WireBranch(from: NodeId, guard: Guard, stmts: Syntax.Block, join: NodeId)
      modifies this
      ensures G() == ActivityBuild.WireBranch(old(G()), from, guard, stmts, join)
      decreases BlockSize(stmts), 2
    {
      var o := Block(stmts);
      Connect(from, EntryOr(o, Local(join)), Some(guard));
      if o.Flows? { Connect(o.tail, Local(join), None); }
    }
  }

  /** Module-level code or a function body. */
  method BuildActivity(stmts: Block) returns (a: Activity)
    ensures a == Build(stmts)
  {
    var b := new Builder();
    var initial := b.Push(Initial, 0);
    var final := b.Push(ActivityFinal, 0);
    assert b.G() == Graph([Node(0, Initial, 0), Node(1, ActivityFinal, 0)], []);
    var o := b.Block(stmts);
    b.Connect(initial, EntryOr(o, Local(final)), None);
    if o.Flows? { b.Connect(o.tail, Local(final), None); }
    a := Activity(b.nodes, b.edges, initial, final);
  }
}
