/** What a nested activity has to look like, stated without reference to how it is
    built, and the proof that pass 1 always builds it.

    `BlockAt(g, stmts, at, next, lo, hi)` says: entering `g` at `at` and following its
    edges performs `stmts` in order and then goes to `next`, using only the nodes
    numbered `lo..hi`.  `WellFormed` adds what flattening relies on. */
module ActivityWiring {
  import opened Syntax
  import opened ActivityBuild

  /** The edges that leave `n`, in the order they were drawn. */
  function OutEdges(edges: seq<ControlFlow>, n: NodeId): seq<ControlFlow> {
    if edges == [] then []
    else
      var last := edges[|edges| - 1];
      OutEdges(edges[..|edges| - 1], n) + (if last.from == n then [last] else [])
  }

  function Out(g: Graph, n: NodeId): seq<ControlFlow> { OutEdges(g.edges, n) }

  function GraphOf(a: Activity): Graph { Graph(a.nodes, a.edges) }

  ghost predicate BlockAt(g: Graph, stmts: Block, at: Target, next: Target, lo: nat, hi: nat)
    decreases BlockSize(stmts), 2
  {
    if stmts == [] then at == next
    else
      var s := stmts[0];
      if Drawn(s) then
        && at.Local? && lo <= at.id < hi <= |g.nodes|
        && NodeDraws(g.nodes[at.id], s)
        && |Out(g, at.id)| == 1
        && Out(g, at.id)[0].guard == None
        && match JumpOf(s)
           case Some(t) => Out(g, at.id)[0].to == t
           case None => BlockAt(g, stmts[1..], Out(g, at.id)[0].to, next, lo, hi)
      else
        match JumpOf(s)
        case Some(t) => at == t
        case None => BlockAt(g, stmts[1..], at, next, lo, hi)
  }

  /** What stands for a drawn statement; a range loop's node also says what its setup is. */
  ghost predicate NodeDraws(node: Node, s: Stmt)
    requires Drawn(s)
    decreases StmtSize(s), 1
  {
    var kind := node.kind;
    && node.line == s.line
    && (if s.kind.If? then
          && kind.Structured? && kind.stereotype == Conditional && kind.setup == None
          && IfWired(kind.body, s.line, s.kind.cond, s.kind.body, s.kind.elifs, s.kind.orelse)
        else if IsLoop(s) then
          && kind.Structured? && kind.stereotype == Loop
          && kind.setup == (if !s.kind.For? then None else
                              Some(LoopSetup(s.kind.loopVar, s.kind.start.span, s.kind.end.span, s.kind.step.span)))
          && LoopWired(kind.body, s.line, LoopLabel(s), LoopBody(s))
        else kind == Action(ActionSpan(s)))
  }

  function LoopBody(s: Stmt): (b: Block)
    requires IsLoop(s)
    ensures BlockSize(b) < StmtSize(s)
  {
    match s.kind
    case While(_, body) => body
    case ForEach(_, _, body) => body
    case For(_, _, _, _, body, _) => body
  }

  /** Decision, guarded body that returns to the decision, `else` edge to the exit. */
  ghost predicate LoopWired(a: Activity, line: nat, text: Span, body: Block)
    decreases BlockSize(body), 3
  {
    && HasExit(a, Merge)
    && a.nodes[a.initial].kind == Decision(text) && a.nodes[a.initial].line == line
    && |OutEdges(a.edges, a.initial)| == 2
    && OutEdges(a.edges, a.initial)[0].guard == Some(Cond(text))
    && OutEdges(a.edges, a.initial)[1].guard == Some(Otherwise)
    && OutEdges(a.edges, a.initial)[1].to == Local(a.exit)
    && BlockAt(GraphOf(a), body, OutEdges(a.edges, a.initial)[0].to, Local(a.initial), 2, |a.nodes|)
  }

  ghost predicate IfWired(a: Activity, line: nat, cond: Expr, body: Block, elifs: seq<Arm>, orelse: ElseBlock)
    decreases BlockSize(body) + ArmsSize(elifs) + BlockSize(ElseOf(orelse)), 5
  {
    && HasExit(a, Merge)
    && ChainAt(GraphOf(a), a.initial, line, cond, body, elifs, ElseOf(orelse), a.exit, 0, |a.nodes|)
  }

  /** A whole diagram: the initial node leads into `stmts`, which lead to the final node. */
  ghost predicate ActivityWired(a: Activity, stmts: Block) {
    && HasExit(a, ActivityFinal)
    && a.nodes[a.initial].kind == Initial
    && |OutEdges(a.edges, a.initial)| == 1
    && OutEdges(a.edges, a.initial)[0].guard == None
    && BlockAt(GraphOf(a), stmts, OutEdges(a.edges, a.initial)[0].to, Local(a.exit), 2, |a.nodes|)
  }

  ghost predicate HasExit(a: Activity, kind: ActivityNode) {
    && a.initial < |a.nodes| && a.exit < |a.nodes| && a.initial != a.exit
    && a.nodes[a.exit].kind == kind
    && OutEdges(a.edges, a.exit) == []
  }

  /** An `if`/`elif` decision at `d`: its arm joins `merge`, its `else` edge tries the
      next arm, the last one the `else` block. */
  ghost predicate ChainAt(g: Graph, d: NodeId, line: nat, cond: Expr, body: Block, elifs: seq<Arm>, orelse: Block,
                          merge: NodeId, lo: nat, hi: nat)
    decreases BlockSize(body) + ArmsSize(elifs) + BlockSize(orelse), 4
  {
    && lo <= d < hi <= |g.nodes|
    && g.nodes[d].kind == Decision(cond.fullSpan) && g.nodes[d].line == line
    && |Out(g, d)| == 2
    && Out(g, d)[0].guard == Some(Cond(cond.fullSpan))
    && Out(g, d)[1].guard == Some(Otherwise)
    && BlockAt(g, body, Out(g, d)[0].to, Local(merge), lo, hi)
    && if elifs == [] then BlockAt(g, orelse, Out(g, d)[1].to, Local(merge), lo, hi)
       else
         && Out(g, d)[1].to.Local?
         && ChainAt(g, Out(g, d)[1].to.id, elifs[0].cond.line, elifs[0].cond, elifs[0].body, elifs[1..], orelse, merge, lo, hi)
  }

  /** A block that starts with a drawn statement, one level down. */
  lemma HeadDrawn(g: Graph, stmts: Block, at: Target, next: Target, lo: nat, hi: nat)
    requires BlockAt(g, stmts, at, next, lo, hi) && stmts != [] && Drawn(stmts[0])
    ensures at.Local? && at.id < |g.nodes| && NodeDraws(g.nodes[at.id], stmts[0])
    ensures |OutEdges(g.edges, at.id)| == 1 && OutEdges(g.edges, at.id)[0].guard == None
    ensures var mid := OutEdges(g.edges, at.id)[0].to;
      match JumpOf(stmts[0])
      case Some(t) => mid == t
      case None => BlockAt(g, stmts[1..], mid, next, lo, hi)
  {
  }

  lemma HeadUndrawn(g: Graph, stmts: Block, at: Target, next: Target, lo: nat, hi: nat)
    requires BlockAt(g, stmts, at, next, lo, hi) && stmts != [] && !Drawn(stmts[0])
    ensures match JumpOf(stmts[0])
      case Some(t) => at == t
      case None => BlockAt(g, stmts[1..], at, next, lo, hi)
  {
  }

  // ------------------------------------------------------------------ frames

  /** Two graphs agree on the nodes `lo..hi` and the edges that leave them. */
  ghost predicate Agree(g: Graph, h: Graph, lo: nat, hi: nat) {
    && hi <= |g.nodes| && hi <= |h.nodes|
    && forall n :: lo <= n < hi ==> g.nodes[n] == h.nodes[n] && Out(g, n) == Out(h, n)
  }

  lemma {:induction false} BlockFrame(g: Graph, h: Graph, stmts: Block, at: Target, next: Target,
                                      lo: nat, hi: nat, lo2: nat, hi2: nat)
    requires BlockAt(g, stmts, at, next, lo, hi) && Agree(g, h, lo, hi)
    requires lo2 <= lo && hi <= hi2 <= |h.nodes|
    ensures BlockAt(h, stmts, at, next, lo2, hi2)
    decreases |stmts|
  {
    if stmts != [] && JumpOf(stmts[0]) == None {
      var at2 := if Drawn(stmts[0]) then Out(g, at.id)[0].to else at;
      BlockFrame(g, h, stmts[1..], at2, next, lo, hi, lo2, hi2);
    }
  }

  lemma {:induction false} ChainFrame(g: Graph, h: Graph, d: NodeId, line: nat, cond: Expr, body: Block, elifs: seq<Arm>,
                                      orelse: Block, merge: NodeId, lo: nat, hi: nat, lo2: nat, hi2: nat)
    requires ChainAt(g, d, line, cond, body, elifs, orelse, merge, lo, hi) && Agree(g, h, lo, hi)
    requires lo2 <= lo && hi <= hi2 <= |h.nodes|
    ensures ChainAt(h, d, line, cond, body, elifs, orelse, merge, lo2, hi2)
    decreases |elifs|
  {
    BlockFrame(g, h, body, Out(g, d)[0].to, Local(merge), lo, hi, lo2, hi2);
    if elifs == [] {
      BlockFrame(g, h, orelse, Out(g, d)[1].to, Local(merge), lo, hi, lo2, hi2);
    } else {
      ChainFrame(g, h, Out(g, d)[1].to.id, elifs[0].cond.line, elifs[0].cond, elifs[0].body, elifs[1..], orelse, merge, lo, hi, lo2, hi2);
    }
  }

  /** No edge leaves a node that does not exist yet. */
  ghost predicate Rooted(g: Graph) {
    forall i :: 0 <= i < |g.edges| ==> g.edges[i].from < |g.nodes|
  }

  lemma {:induction false} RootedOut(edges: seq<ControlFlow>, n: nat)
    requires forall i :: 0 <= i < |edges| ==> edges[i].from != n
    ensures OutEdges(edges, n) == []
    decreases |edges|
  {
    if edges != [] { RootedOut(edges[..|edges| - 1], n); }
  }

  lemma ConnectOut(g: Graph, from: NodeId, to: Target, guard: Option<Guard>, n: NodeId)
    ensures Out(Connect(g, from, to, guard), n)
         == Out(g, n) + (if n == from then [ControlFlow(from, to, guard)] else [])
  {
    var h := Connect(g, from, to, guard);
    assert h.edges[..|h.edges| - 1] == g.edges;
  }

  lemma ConnectOuts(g: Graph, from: NodeId, to: Target, guard: Option<Guard>)
    ensures var h := Connect(g, from, to, guard);
      && Out(h, from) == Out(g, from) + [ControlFlow(from, to, guard)]
      && forall n: nat :: n != from ==> Out(h, n) == Out(g, n)
  {
    ConnectOut(g, from, to, guard, from);
    forall n: nat | n != from
      ensures Out(Connect(g, from, to, guard), n) == Out(g, n)
    {
      ConnectOut(g, from, to, guard, n);
    }
  }

  /** Adding a guarded edge before the owed edge or after it makes no difference to
      what leaves each node. */
  lemma WireOuts(h: Graph, o: BlockOutcome, next: Target, from: NodeId, e: Target, guard: Option<Guard>)
    requires o.Flows? ==> o.tail != from
    ensures var c := Close(h, o, next);
      var w := Close(Connect(h, from, e, guard), o, next);
      && w.nodes == c.nodes == h.nodes
      && Out(w, from) == Out(c, from) + [ControlFlow(from, e, guard)]
      && forall n: nat :: n != from ==> Out(w, n) == Out(c, n)
  {
    ConnectOuts(h, from, e, guard);
    if o.Flows? {
      ConnectOuts(h, o.tail, next, None);
      ConnectOuts(Connect(h, from, e, guard), o.tail, next, None);
    }
  }

  // ------------------------------------------------- pass 1 wires every block

  /** `h` grew out of `g`: old nodes kept, and only `open` gained edges among them. */
  ghost predicate Grown(g: Graph, h: Graph, open: Option<NodeId>) {
    && Rooted(g) && Rooted(h) && g.nodes <= h.nodes
    && forall n: nat :: n < |g.nodes| && open != Some(n) ==> Out(h, n) == Out(g, n)
  }

  function TailOf(chain: Chain): Option<NodeId> {
    if chain.Some? then Some(chain.value.1) else None
  }

  /** `h`, `o` is what building `stmts` after `chain` onto `g` leaves behind: once the
      owed edge to `next` is added the block is entered at `e`, from the chain's tail
      when there is one, else at the block's own entry. */
  ghost predicate Wired(g: Graph, chain: Chain, h: Graph, o: BlockOutcome, stmts: Block, next: Target, e: Target) {
    var c := Close(h, o, next);
    && Grown(g, c, TailOf(chain)) && Rooted(h)
    && (chain.Some? ==> Out(c, chain.value.1) == Out(g, chain.value.1) + [ControlFlow(chain.value.1, e, None)])
    && (if chain.Some? then o.Entry() == Some(Local(chain.value.0)) else e == EntryOr(o, next))
    && BlockAt(c, stmts, e, next, |g.nodes|, |h.nodes|)
    && (o.Flows? ==> o.tail < |h.nodes| && (o.tail >= |g.nodes| || Some(o.tail) == TailOf(chain)))
  }

  ghost predicate ChainIn(g: Graph, chain: Chain) {
    Rooted(g) && (chain.Some? ==> chain.value.1 < |g.nodes|)
  }

  /** One drawn statement: a fresh node `n`, entered from the chain's tail. */
  lemma NodeAdded(g: Graph, chain: Chain, kind: ActivityNode, line: nat)
    requires ChainIn(g, chain)
    ensures var n := |g.nodes|;
      var (g2, chain2) := Extend(Push(g, kind, line), chain, Some((n, n)));
      && ChainIn(g2, chain2) && TailOf(chain2) == Some(n)
      && chain2.value.0 == (if chain.Some? then chain.value.0 else n)
      && g2.nodes == g.nodes + [Node(n, kind, line)]
      && Grown(g, g2, TailOf(chain))
      && Out(g2, n) == []
      && (chain.Some? ==> Out(g2, chain.value.1) == Out(g, chain.value.1) + [ControlFlow(chain.value.1, Local(n), None)])
  {
    var n := |g.nodes|;
    RootedOut(g.edges, n);
    if chain.Some? { ConnectOuts(Push(g, kind, line), chain.value.1, Local(n), None); }
  }

  /** A drawn statement in front of a wired rest. */
  lemma StepDrawn(g: Graph, chain: Chain, g2: Graph, chain2: Chain, h: Graph, o: BlockOutcome,
                  stmts: Block, next: Target, e2: Target)
    requires ChainIn(g, chain) && stmts != [] && Drawn(stmts[0]) && JumpOf(stmts[0]) == None
    requires NodeDraws(Node(|g.nodes|, NodeFor(stmts[0]), stmts[0].line), stmts[0])
    requires (g2, chain2) == Extend(Push(g, NodeFor(stmts[0]), stmts[0].line), chain, Some((|g.nodes|, |g.nodes|)))
    requires Wired(g2, chain2, h, o, stmts[1..], next, e2)
    ensures Wired(g, chain, h, o, stmts, next, Local(|g.nodes|))
  {
    var n := |g.nodes|;
    NodeAdded(g, chain, NodeFor(stmts[0]), stmts[0].line);
    var c := Close(h, o, next);
    BlockFrame(c, c, stmts[1..], e2, next, |g2.nodes|, |h.nodes|, n, |h.nodes|);
    assert c.nodes[n] == g2.nodes[n];
    assert Out(c, n) == [ControlFlow(n, e2, None)];
    assert BlockAt(c, stmts, Local(n), next, n, |h.nodes|);
  }

  /** A drawn `return e`: its node, then the jump. */
  lemma StepReturn(g: Graph, chain: Chain, stmts: Block, next: Target)
    requires ChainIn(g, chain) && stmts != [] && Drawn(stmts[0]) && JumpOf(stmts[0]) == Some(Target.Return)
    requires NodeDraws(Node(|g.nodes|, NodeFor(stmts[0]), stmts[0].line), stmts[0])
    ensures var n := |g.nodes|;
      var (g2, chain2) := Extend(Push(g, NodeFor(stmts[0]), stmts[0].line), chain, Some((n, n)));
      && chain2.Some?
      && Wired(g, chain, Connect(g2, chain2.value.1, Target.Return, None),
               Diverts(Some(chain2.value.0), Target.Return), stmts, next, Local(n))
  {
    var n := |g.nodes|;
    NodeAdded(g, chain, NodeFor(stmts[0]), stmts[0].line);
    var (g2, chain2) := Extend(Push(g, NodeFor(stmts[0]), stmts[0].line), chain, Some((n, n)));
    ConnectOuts(g2, n, Target.Return, None);
    ReturnAt(Connect(g2, n, Target.Return, None), stmts, n, next);
    ReturnWired(g, chain, g2, chain2, stmts, next);
  }

  lemma ReturnAt(c: Graph, stmts: Block, n: NodeId, next: Target)
    requires stmts != [] && Drawn(stmts[0]) && JumpOf(stmts[0]) == Some(Target.Return)
    requires n < |c.nodes| && NodeDraws(c.nodes[n], stmts[0])
    requires Out(c, n) == [ControlFlow(n, Target.Return, None)]
    ensures BlockAt(c, stmts, Local(n), next, n, |c.nodes|)
  {
  }

  lemma ReturnWired(g: Graph, chain: Chain, g2: Graph, chain2: Chain, stmts: Block, next: Target)
    requires ChainIn(g, chain) && Grown(g, g2, TailOf(chain)) && chain2.Some? && chain2.value.1 == |g.nodes| < |g2.nodes|
    requires chain2.value.0 == (if chain.Some? then chain.value.0 else |g.nodes|)
    requires chain.Some? ==>
      Out(g2, chain.value.1) == Out(g, chain.value.1) + [ControlFlow(chain.value.1, Local(|g.nodes|), None)]
    requires BlockAt(Connect(g2, chain2.value.1, Target.Return, None), stmts, Local(|g.nodes|), next, |g.nodes|, |g2.nodes|)
    ensures Wired(g, chain, Connect(g2, chain2.value.1, Target.Return, None),
                  Diverts(Some(chain2.value.0), Target.Return), stmts, next, Local(|g.nodes|))
  {
    hide BlockAt;
    ConnectOuts(g2, chain2.value.1, Target.Return, None);
  }

  /** A bare jump: an edge from the chain's tail, no node. */
  lemma StepJump(g: Graph, chain: Chain, stmts: Block, next: Target, t: Target)
    requires ChainIn(g, chain) && stmts != [] && !Drawn(stmts[0]) && JumpOf(stmts[0]) == Some(t)
    ensures match chain
      case None => Wired(g, chain, g, Diverts(None, t), stmts, next, t)
      case Some((first, tail)) => Wired(g, chain, Connect(g, tail, t, None), Diverts(Some(first), t), stmts, next, t)
  {
    if chain.Some? { ConnectOuts(g, chain.value.1, t, None); }
  }

  /** Pass 1 wires every block, whatever graph and chain it continues. */
  lemma {:induction false} BlockWired(g: Graph, chain: Chain, stmts: Block, next: Target) returns (e: Target)
    requires ChainIn(g, chain)
    ensures Wired(g, chain, BuildBlock(g, chain, stmts).0, BuildBlock(g, chain, stmts).1, stmts, next, e)
    decreases BlockSize(stmts), 2
  {
    if stmts == [] {
      e := next;
      if chain.Some? { ConnectOuts(g, chain.value.1, next, None); }
      return;
    }
    var s := stmts[0];
    if Drawn(s) {
      NodeWired(|g.nodes|, s);
      var (g2, chain2) := Extend(Push(g, NodeFor(s), s.line), chain, Some((|g.nodes|, |g.nodes|)));
      e := Local(|g.nodes|);
      if JumpOf(s) == None {
        NodeAdded(g, chain, NodeFor(s), s.line);
        var (h, o) := BuildBlock(g2, chain2, stmts[1..]);
        var e2 := BlockWired(g2, chain2, stmts[1..], next);
        StepDrawn(g, chain, g2, chain2, h, o, stmts, next, e2);
      } else {
        StepReturn(g, chain, stmts, next);
      }
    } else if JumpOf(s).Some? {
      e := JumpOf(s).value;
      StepJump(g, chain, stmts, next, e);
    } else {
      e := BlockWired(g, chain, stmts[1..], next);
    }
  }

  lemma {:induction false} NodeWired(id: NodeId, s: Stmt)
    requires Drawn(s)
    ensures NodeDraws(Node(id, NodeFor(s), s.line), s)
    decreases StmtSize(s), 1
  {
    match s.kind {
      case If(cond, body, elifs, orelse) => IfBuilt(s.line, cond, body, elifs, orelse);
      case While(_, body) => LoopBuilt(s.line, LoopLabel(s), body);
      case ForEach(_, _, body) => LoopBuilt(s.line, LoopLabel(s), body);
      case For(_, _, _, _, body, _) => LoopBuilt(s.line, LoopLabel(s), body);
      case _ =>
    }
  }

  /** A wired block entered by an edge from an older node `from`. */
  lemma EntryWired(g: Graph, h: Graph, o: BlockOutcome, stmts: Block, next: Target, e: Target,
                   from: NodeId, guard: Option<Guard>)
    requires Wired(g, None, h, o, stmts, next, e) && from < |g.nodes|
    ensures var w := Close(Connect(h, from, e, guard), o, next);
      && w.nodes == h.nodes
      && Grown(g, w, Some(from))
      && Out(w, from) == Out(g, from) + [ControlFlow(from, e, guard)]
      && BlockAt(w, stmts, e, next, |g.nodes|, |h.nodes|)
  {
    WireOuts(h, o, next, from, e, guard);
    var c := Close(h, o, next);
    BlockFrame(c, Close(Connect(h, from, e, guard), o, next), stmts, e, next, |g.nodes|, |h.nodes|, |g.nodes|, |h.nodes|);
  }

  lemma {:induction false} LoopBuilt(line: nat, text: Span, body: Block)
    ensures LoopWired(BuildLoop(line, text, body), line, text, body)
    decreases BlockSize(body), 3
  {
    var g := TwoNodes(Decision(text), line);
    var (h, o) := BuildBlock(g, None, body);
    var e := BlockWired(g, None, body, Local(0));
    EntryWired(g, h, o, body, Local(0), e, 0, Some(Cond(text)));
    LoopClosed(line, text, body, h, o, e);
  }

  lemma LoopClosed(line: nat, text: Span, body: Block, h: Graph, o: BlockOutcome, e: Target)
    requires var g := TwoNodes(Decision(text), line);
      var w := Close(Connect(h, 0, e, Some(Cond(text))), o, Local(0));
      && Grown(g, w, Some(0)) && w.nodes == h.nodes
      && Out(w, 0) == Out(g, 0) + [ControlFlow(0, e, Some(Cond(text)))]
      && BlockAt(w, body, e, Local(0), 2, |h.nodes|)
    ensures var w := Close(Connect(h, 0, e, Some(Cond(text))), o, Local(0));
      var z := Connect(w, 0, Local(1), Some(Otherwise));
      LoopWired(Activity(z.nodes, z.edges, 0, 1), line, text, body)
  {
    var g := TwoNodes(Decision(text), line);
    var w := Close(Connect(h, 0, e, Some(Cond(text))), o, Local(0));
    var z := Connect(w, 0, Local(1), Some(Otherwise));
    ConnectOuts(w, 0, Local(1), Some(Otherwise));
    assert Out(g, 0) == [] && Out(g, 1) == [];
    assert Out(z, 1) == [];
    assert z.nodes[0] == g.nodes[0] && z.nodes[1] == g.nodes[1];
    BlockFrame(w, z, body, e, Local(0), 2, |h.nodes|, 2, |h.nodes|);
    assert GraphOf(Activity(z.nodes, z.edges, 0, 1)) == z;
  }

  /** A branch wired from `from`: its entry is `from`'s next edge, it ends at `join`. */
  lemma {:induction false} BranchWired(g: Graph, from: NodeId, guard: Guard, stmts: Block, join: NodeId)
    returns (e: Target)
    requires Rooted(g) && from < |g.nodes|
    ensures var h := WireBranch(g, from, guard, stmts, join);
      && Grown(g, h, Some(from))
      && Out(h, from) == Out(g, from) + [ControlFlow(from, e, Some(guard))]
      && BlockAt(h, stmts, e, Local(join), |g.nodes|, |h.nodes|)
    decreases BlockSize(stmts), 3
  {
    var (g1, o) := BuildBlock(g, None, stmts);
    e := BlockWired(g, None, stmts, Local(join));
    EntryWired(g, g1, o, stmts, Local(join), e, from, Some(guard));
  }

  /** An `if` decision `d` that already has its first branch. */
  ghost predicate ArmDone(g: Graph, d: NodeId, line: nat, cond: Expr, body: Block, merge: NodeId, e: Target) {
    && Rooted(g) && d < |g.nodes|
    && g.nodes[d].kind == Decision(cond.fullSpan) && g.nodes[d].line == line
    && Out(g, d) == [ControlFlow(d, e, Some(Cond(cond.fullSpan)))]
    && BlockAt(g, body, e, Local(merge), d + 1, |g.nodes|)
  }

  /** The next decision hangs off the `else` edge of `d`. */
  lemma DecisionAdded(g: Graph, d: NodeId, cond: Expr, line: nat)
    requires Rooted(g) && d < |g.nodes|
    ensures var n := |g.nodes|;
      var g1 := Connect(Push(g, Decision(cond.fullSpan), line), d, Local(n), Some(Otherwise));
      && Grown(g, g1, Some(d)) && |g1.nodes| == n + 1
      && g1.nodes[n] == Node(n, Decision(cond.fullSpan), line) && Out(g1, n) == []
      && Out(g1, d) == Out(g, d) + [ControlFlow(d, Local(n), Some(Otherwise))]
  {
    RootedOut(g.edges, |g.nodes|);
    ConnectOuts(Push(g, Decision(cond.fullSpan), line), d, Local(|g.nodes|), Some(Otherwise));
  }

  /** The rest of an `if` after its first branch. */
  lemma {:induction false} ArmsWired(g: Graph, d: NodeId, line: nat, cond: Expr, body: Block, elifs: seq<Arm>, orelse: Block,
                                     merge: NodeId, e: Target, lo: nat)
    requires ArmDone(g, d, line, cond, body, merge, e) && lo <= d
    ensures var (g2, last) := BuildElifs(g, d, elifs, merge);
      && last < |g2.nodes|
      && var h := WireBranch(g2, last, Otherwise, orelse, merge);
         && Grown(g, h, Some(d))
         && ChainAt(h, d, line, cond, body, elifs, orelse, merge, lo, |h.nodes|)
    decreases ArmsSize(elifs) + BlockSize(orelse), 4
  {
    if elifs == [] {
      var e2 := BranchWired(g, d, Otherwise, orelse, merge);
      LastArm(g, WireBranch(g, d, Otherwise, orelse, merge), d, line, cond, body, orelse, merge, e, e2, lo);
    } else {
      var n := |g.nodes|;
      var text := elifs[0].cond.fullSpan;
      var g1 := Connect(Push(g, Decision(text), elifs[0].cond.line), d, Local(n), Some(Otherwise));
      DecisionAdded(g, d, elifs[0].cond, elifs[0].cond.line);
      var e2 := BranchWired(g1, n, Cond(text), elifs[0].body, merge);
      var g2 := WireBranch(g1, n, Cond(text), elifs[0].body, merge);
      ArmsWired(g2, n, elifs[0].cond.line, elifs[0].cond, elifs[0].body, elifs[1..], orelse, merge, e2, n);
      var (g3, last) := BuildElifs(g2, n, elifs[1..], merge);
      NextArm(g, g1, g2, WireBranch(g3, last, Otherwise, orelse, merge), d, line, cond, body, elifs, orelse, merge, e, lo);
    }
  }

  lemma LastArm(g: Graph, h: Graph, d: NodeId, line: nat, cond: Expr, body: Block, orelse: Block, merge: NodeId,
                e: Target, e2: Target, lo: nat)
    requires ArmDone(g, d, line, cond, body, merge, e) && lo <= d && Grown(g, h, Some(d))
    requires Out(h, d) == Out(g, d) + [ControlFlow(d, e2, Some(Otherwise))]
    requires BlockAt(h, orelse, e2, Local(merge), |g.nodes|, |h.nodes|)
    ensures ChainAt(h, d, line, cond, body, [], orelse, merge, lo, |h.nodes|)
  {
    BlockFrame(g, h, body, e, Local(merge), d + 1, |g.nodes|, lo, |h.nodes|);
    BlockFrame(h, h, orelse, e2, Local(merge), |g.nodes|, |h.nodes|, lo, |h.nodes|);
  }

  lemma NextArm(g: Graph, g1: Graph, g2: Graph, h: Graph, d: NodeId, line: nat, cond: Expr, body: Block, elifs: seq<Arm>,
                orelse: Block, merge: NodeId, e: Target, lo: nat)
    requires ArmDone(g, d, line, cond, body, merge, e) && lo <= d && elifs != []
    requires var n := |g.nodes|;
      && Grown(g, g1, Some(d)) && Grown(g1, g2, Some(n)) && Grown(g2, h, Some(n))
      && n < |g1.nodes|
      && Out(g1, d) == Out(g, d) + [ControlFlow(d, Local(n), Some(Otherwise))]
      && ChainAt(h, n, elifs[0].cond.line, elifs[0].cond, elifs[0].body, elifs[1..], orelse, merge, n, |h.nodes|)
    ensures Grown(g, h, Some(d)) && ChainAt(h, d, line, cond, body, elifs, orelse, merge, lo, |h.nodes|)
  {
    var n := |g.nodes|;
    assert Out(h, d) == Out(g2, d) == Out(g1, d);
    BlockFrame(g, h, body, e, Local(merge), d + 1, n, lo, |h.nodes|);
    ChainFrame(h, h, n, elifs[0].cond.line, elifs[0].cond, elifs[0].body, elifs[1..], orelse, merge, n, |h.nodes|, lo, |h.nodes|);
  }

  lemma {:induction false} IfBuilt(line: nat, cond: Expr, body: Block, elifs: seq<Arm>, orelse: ElseBlock)
    ensures IfWired(BuildIf(line, cond, body, elifs, orelse), line, cond, body, elifs, orelse)
    decreases BlockSize(body) + ArmsSize(elifs) + BlockSize(ElseOf(orelse)), 5
  {
    var g := TwoNodes(Decision(cond.fullSpan), line);
    var e := BranchWired(g, 0, Cond(cond.fullSpan), body, 1);
    var g1 := WireBranch(g, 0, Cond(cond.fullSpan), body, 1);
    FirstArm(g, g1, cond, body, e, line);
    ArmsWired(g1, 0, line, cond, body, elifs, ElseOf(orelse), 1, e, 0);
    var (g2, last) := BuildElifs(g1, 0, elifs, 1);
    var h := WireBranch(g2, last, Otherwise, ElseOf(orelse), 1);
    assert h.nodes[1] == g1.nodes[1] && Out(h, 1) == Out(g1, 1);
    assert GraphOf(Activity(h.nodes, h.edges, 0, 1)) == h;
  }

  lemma FirstArm(g: Graph, g1: Graph, cond: Expr, body: Block, e: Target, line: nat)
    requires g == TwoNodes(Decision(cond.fullSpan), line) && Grown(g, g1, Some(0))
    requires Out(g1, 0) == Out(g, 0) + [ControlFlow(0, e, Some(Cond(cond.fullSpan)))]
    requires BlockAt(g1, body, e, Local(1), 2, |g1.nodes|)
    ensures ArmDone(g1, 0, line, cond, body, 1, e) && g1.nodes[1].kind == Merge && Out(g1, 1) == []
  {
    assert Out(g, 0) == [] && Out(g, 1) == [];
    assert g1.nodes[0] == g.nodes[0] && g1.nodes[1] == g.nodes[1];
    BlockFrame(g1, g1, body, e, Local(1), 2, |g1.nodes|, 1, |g1.nodes|);
  }

  /** Main result of pass 1: from the initial node, the activity performs exactly `stmts`
      and then reaches its final node. */
  lemma {:induction false} BuildWires(stmts: Block)
    ensures ActivityWired(Build(stmts), stmts)
  {
    var g := Graph([Node(0, Initial, 0), Node(1, ActivityFinal, 0)], []);
    var (h, o) := BuildBlock(g, None, stmts);
    var e := BlockWired(g, None, stmts, Local(1));
    EntryWired(g, h, o, stmts, Local(1), e, 0, None);
    TopWired(stmts, h, o, e);
  }

  lemma TopWired(stmts: Block, h: Graph, o: BlockOutcome, e: Target)
    requires var g := Graph([Node(0, Initial, 0), Node(1, ActivityFinal, 0)], []);
      var w := Close(Connect(h, 0, e, None), o, Local(1));
      && Grown(g, w, Some(0)) && w.nodes == h.nodes
      && Out(w, 0) == Out(g, 0) + [ControlFlow(0, e, None)]
      && BlockAt(w, stmts, e, Local(1), 2, |h.nodes|)
    ensures var w := Close(Connect(h, 0, e, None), o, Local(1));
      ActivityWired(Activity(w.nodes, w.edges, 0, 1), stmts)
  {
    var g := Graph([Node(0, Initial, 0), Node(1, ActivityFinal, 0)], []);
    var w := Close(Connect(h, 0, e, None), o, Local(1));
    assert Out(g, 0) == [] && Out(g, 1) == [];
    assert w.nodes[0] == g.nodes[0] && w.nodes[1] == g.nodes[1];
    assert GraphOf(Activity(w.nodes, w.edges, 0, 1)) == w;
  }
}
