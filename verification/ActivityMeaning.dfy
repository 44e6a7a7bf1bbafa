/** A flattened activity performs every run of its statements: from where a block is
    entered, each list of choices leads along the events of that run to where the run
    ends, with `break`, `continue` and `return` going where Python sends them. */
module ActivityMeaning {
  import opened Syntax
  import opened ActivityBuild
  import opened ActivityWiring
  import opened FlatGraphs
  import opened FlatPaths
  import opened ActivityTraces

  function LandId(p: Placement, j: Jumps, t: Target): nat {
    var to := Land(p.ids, p.subs, j, t);
    if to.Some? then to.value else 0
  }

  /** Where a run that ends this way leaves its block. */
  function Dest(next: nat, j: Jumps, end: End): nat {
    match end
    case Falls => next
    case Breaks => if j.loopIds.Some? then j.loopIds.value.1 else 0
    case Continues => if j.loopIds.Some? then j.loopIds.value.0 else 0
    case Returns => if j.fnFinal.Some? then j.fnFinal.value else 0
    case Starved => 0
  }

  ghost predicate AtDecision(u: FlatGraph, d: nat) {
    KindAt(u.nodes, d).Some? && KindAt(u.nodes, d).value.FDecision?
  }

  /** The graph does what the run does. */
  ghost predicate Follows(u: FlatGraph, from: nat, next: nat, j: Jumps, r: Run) {
    if r.end.Starved? then exists d :: Performs(u, from, d, r.events) && AtDecision(u, d)
    else Performs(u, from, Dest(next, j, r.end), r.events)
  }

  /** `a` is placed in `u`, its exit is a merge or the final node, and its jumps resolve. */
  ghost predicate Hosts(a: Activity, p: Placement, j: Jumps, u: FlatGraph, inLoop: bool) {
    && Flat(a, p, j, u) && Ascending(u.nodes)
    && a.exit < |a.nodes| && (a.nodes[a.exit].kind == Merge || a.nodes[a.exit].kind == ActivityFinal)
    && j.fnFinal.Some? && (inLoop ==> j.loopIds.Some?)
  }

  /** Going on with `r` after `events`. */
  lemma FollowsAfter(u: FlatGraph, a: nat, b: nat, next: nat, j: Jumps, events: seq<Event>, r: Run)
    requires Performs(u, a, b, events) && Follows(u, b, next, j, r)
    ensures Follows(u, a, next, j, After(events, r))
  {
    if r.end.Starved? {
      var d :| Performs(u, b, d, r.events) && AtDecision(u, d);
      PerformsJoin(u, a, b, d, events, r.events);
    } else {
      PerformsJoin(u, a, b, Dest(next, j, r.end), events, r.events);
    }
  }

  /** A run that stops early takes the block's exit with it. */
  lemma FollowsEarly(u: FlatGraph, from: nat, next: nat, next2: nat, j: Jumps, r: Run)
    requires Follows(u, from, next, j, r) && !r.end.Falls?
    ensures Follows(u, from, next2, j, r)
  {
  }

  /** The node of kind `k` placed at `n`, with its one edge. */
  lemma OneEdge(a: Activity, p: Placement, j: Jumps, u: FlatGraph, n: NodeId)
    requires Flat(a, p, j, u) && n in p.visited && n != a.exit && n < |a.nodes|
    requires |OutEdges(a.edges, n)| == 1 && Land(p.ids, p.subs, j, OutEdges(a.edges, n)[0].to).Some?
    ensures var e := OutEdges(a.edges, n)[0];
      var f := From(p.ids, p.subs, n);
      && OutFlat(u.edges, f) == [FlatEdge(f, LandId(p, j, e.to), e.guard)]
      && (e.to.Local? ==> e.to.id in p.visited)
  {
    hide Flat;
    DrawnAt(a, p, j, u, n);
    ImageOne(p, j, From(p.ids, p.subs, n), OutEdges(a.edges, n));
  }

  lemma DrawnAt(a: Activity, p: Placement, j: Jumps, u: FlatGraph, n: NodeId)
    requires Flat(a, p, j, u) && n in p.visited
    ensures n in p.ids && n < |a.nodes|
    ensures n != a.exit ==> FlowsAsDrawn(a, p.ids, p.subs, p.visited, j, u.edges, n)
    ensures !a.nodes[n].kind.Structured? ==> n !in p.subs && HasNode(u.nodes, p.ids[n], a.nodes[n])
    ensures a.nodes[n].kind.Structured? ==>
              n in p.subs && Flat(a.nodes[n].kind.body, p.subs[n], BodyJumps(a, n, p.subs[n], j), u)
  {
  }

  lemma PlacedEnds(a: Activity, p: Placement, j: Jumps, u: FlatGraph)
    requires Flat(a, p, j, u) && a.initial < |a.nodes| && a.exit < |a.nodes|
    requires !a.nodes[a.initial].kind.Structured? && !a.nodes[a.exit].kind.Structured?
    ensures a.initial in p.visited
    ensures LandId(p, j, Local(a.initial)) == p.entry && LandId(p, j, Local(a.exit)) == p.exit
    ensures From(p.ids, p.subs, a.initial) == p.entry
    ensures HasNode(u.nodes, p.entry, a.nodes[a.initial]) && HasNode(u.nodes, p.exit, a.nodes[a.exit])
  {
  }

  /** The target a block is entered at always resolves. */
  lemma {:induction false} EntryLands(g: Graph, stmts: Block, at: Target, next: Target, lo: nat, hi: nat,
                                      p: Placement, j: Jumps, inLoop: bool)
    requires BlockAt(g, stmts, at, next, lo, hi) && next.Local? && JumpsBound(stmts, inLoop)
    requires j.fnFinal.Some? && (inLoop ==> j.loopIds.Some?)
    ensures Land(p.ids, p.subs, j, at).Some?
    decreases |stmts|
  {
    if stmts != [] && !Drawn(stmts[0]) && JumpOf(stmts[0]) == None {
      EntryLands(g, stmts[1..], at, next, lo, hi, p, j, inLoop);
    }
  }

  lemma {:induction false} BlockFollows(a: Activity, p: Placement, j: Jumps, u: FlatGraph, stmts: Block,
                                        at: Target, next: Target, lo: nat, hi: nat, inLoop: bool, cs: seq<bool>)
    requires Hosts(a, p, j, u, inLoop) && JumpsBound(stmts, inLoop)
    requires BlockAt(GraphOf(a), stmts, at, next, lo, hi) && next.Local?
    requires at.Local? ==> at.id in p.visited
    ensures Follows(u, LandId(p, j, at), LandId(p, j, next), j, RunBlock(stmts, cs))
    decreases |cs|, BlockSize(stmts), 1
  {
    hide Hosts, Follows, Performs, BlockAt, NodeDraws, OutEdges;
    if stmts == [] {
      EmptyAt(GraphOf(a), at, next, lo, hi);
      FollowsNothing(u, LandId(p, j, at), j, Falls, cs);
      return;
    }
    var s := stmts[0];
    if Drawn(s) {
      HeadDrawn(GraphOf(a), stmts, at, next, lo, hi);
      var mid := OutEdges(a.edges, at.id)[0].to;
      HostParts(a, p, j, u, inLoop);
      if JumpOf(s) == None { EntryLands(GraphOf(a), stmts[1..], mid, next, lo, hi, p, j, inLoop); }
      var r := RunStmt(s, cs);
      DrawnFollows(a, p, j, u, s, at.id, inLoop, cs);
      if JumpOf(s) == None {
        if r.end.Falls? {
          OneEdgeOf(a, p, j, u, at.id, inLoop, s);
          BlockFollows(a, p, j, u, stmts[1..], mid, next, lo, hi, inLoop, r.rest);
          FollowsFell(u, LandId(p, j, at), LandId(p, j, mid), j, r);
          FollowsAfter(u, LandId(p, j, at), LandId(p, j, mid), LandId(p, j, next), j, r.events, RunBlock(stmts[1..], r.rest));
        } else {
          FollowsEarly(u, LandId(p, j, at), LandId(p, j, mid), LandId(p, j, next), j, r);
        }
      } else {
        FollowsEarly(u, LandId(p, j, at), LandId(p, j, mid), LandId(p, j, next), j, r);
      }
    } else {
      HeadUndrawn(GraphOf(a), stmts, at, next, lo, hi);
      match JumpOf(s) {
        case Some(t) => JumpFollows(a, p, j, u, s, at, LandId(p, j, next), inLoop, cs);
        case None =>
          BlockFollows(a, p, j, u, stmts[1..], at, next, lo, hi, inLoop, cs);
          AfterNothing(RunBlock(stmts[1..], cs));
      }
    }
  }

  lemma EmptyAt(g: Graph, at: Target, next: Target, lo: nat, hi: nat)
    requires BlockAt(g, [], at, next, lo, hi)
    ensures at == next
  {
  }

  lemma OneEdgeOf(a: Activity, p: Placement, j: Jumps, u: FlatGraph, n: NodeId, inLoop: bool, s: Stmt)
    requires Hosts(a, p, j, u, inLoop) && n in p.visited && n < |a.nodes| && Drawn(s) && NodeDraws(a.nodes[n], s)
    requires |OutEdges(a.edges, n)| == 1 && Land(p.ids, p.subs, j, OutEdges(a.edges, n)[0].to).Some?
    ensures OutEdges(a.edges, n)[0].to.Local? ==> OutEdges(a.edges, n)[0].to.id in p.visited
  {
    DrawnNotExit(a.nodes[n], a.nodes[n].kind, s);
    OneEdge(a, p, j, u, n);
  }

  lemma FollowsNothing(u: FlatGraph, at: nat, j: Jumps, end: End, cs: seq<bool>)
    requires end.Falls?
    ensures Follows(u, at, at, j, Run([], end, cs))
  {
    PerformsNothing(u, at);
  }

  lemma AfterNothing(r: Run)
    ensures After([], r) == r
  {
    assert [] + r.events == r.events;
  }

  lemma FollowsFell(u: FlatGraph, from: nat, next: nat, j: Jumps, r: Run)
    requires Follows(u, from, next, j, r) && r.end.Falls?
    ensures Performs(u, from, next, r.events)
  {
  }

  lemma HostParts(a: Activity, p: Placement, j: Jumps, u: FlatGraph, inLoop: bool)
    requires Hosts(a, p, j, u, inLoop)
    ensures Flat(a, p, j, u) && Ascending(u.nodes) && j.fnFinal.Some? && a.exit < |a.nodes|
    ensures inLoop ==> j.loopIds.Some?
    ensures a.nodes[a.exit].kind == Merge || a.nodes[a.exit].kind == ActivityFinal
  {
  }

  /** A bare jump: the block is entered at the jump's target. */
  lemma JumpFollows(a: Activity, p: Placement, j: Jumps, u: FlatGraph, s: Stmt, at: Target, next: nat, inLoop: bool, cs: seq<bool>)
    requires Hosts(a, p, j, u, inLoop) && StmtJumpsBound(s, inLoop) && !Drawn(s) && JumpOf(s) == Some(at)
    ensures Follows(u, LandId(p, j, at), next, j, RunStmt(s, cs))
  {
    PerformsNothing(u, LandId(p, j, at));
  }

  /** A drawn statement at local node `n`: its run, then along its one edge. */
  lemma {:induction false} DrawnFollows(a: Activity, p: Placement, j: Jumps, u: FlatGraph, s: Stmt, n: NodeId,
                                        inLoop: bool, cs: seq<bool>)
    requires Hosts(a, p, j, u, inLoop) && Drawn(s) && StmtJumpsBound(s, inLoop)
    requires n in p.visited && n < |a.nodes| && NodeDraws(a.nodes[n], s)
    requires |OutEdges(a.edges, n)| == 1 && OutEdges(a.edges, n)[0].guard == None
    requires Land(p.ids, p.subs, j, OutEdges(a.edges, n)[0].to).Some?
    requires JumpOf(s) == Some(OutEdges(a.edges, n)[0].to) || JumpOf(s) == None
    ensures var mid := LandId(p, j, OutEdges(a.edges, n)[0].to);
      Follows(u, LandId(p, j, Local(n)), mid, j, RunStmt(s, cs))
    decreases |cs|, StmtSize(s), 0
  {
    hide Flat, Follows, Performs;
    var mid := LandId(p, j, OutEdges(a.edges, n)[0].to);
    DrawnAt(a, p, j, u, n);
    DrawnNotExit(a.nodes[n], a.nodes[n].kind, s);
    OneEdge(a, p, j, u, n);
    var f := From(p.ids, p.subs, n);
    PerformsEdge(u, FlatEdge(f, mid, None));
    if IsAction(s) {
      NodeFound(u.nodes, FlatNode(p.ids[n], FAction(ActionSpan(s)), a.nodes[n].line));
      ActionEnds(u, f, mid, j, s, cs);
    } else {
      var b := a.nodes[n].kind.body;
      var q := p.subs[n];
      var r := RunStmt(s, cs);
      if s.kind.If? {
        IfFollows(b, q, j, u, s, inLoop, cs);
      } else {
        LoopBodyFollows(b, q, j, u, s, cs);
      }
      if r.end.Falls? {
        FollowsFell(u, q.entry, q.exit, j, r);
        assert b.nodes[b.exit].kind == Merge && !b.nodes[b.initial].kind.Structured?;
        PlacedEnds(b, q, BodyJumps(a, n, q, j), u);
        NodeFound(u.nodes, FlatNode(q.exit, FMerge, b.nodes[b.exit].line));
        PerformsJoin(u, q.entry, q.exit, mid, r.events, []);
        FellFollows(u, q.entry, mid, j, r);
      } else {
        FollowsEarly(u, q.entry, q.exit, mid, j, r);
      }
    }
  }

  lemma FellFollows(u: FlatGraph, from: nat, next: nat, j: Jumps, r: Run)
    requires Performs(u, from, next, r.events + []) && r.end.Falls?
    ensures Follows(u, from, next, j, r)
  {
    assert r.events + [] == r.events;
  }

  lemma ActionEnds(u: FlatGraph, f: nat, mid: nat, j: Jumps, s: Stmt, cs: seq<bool>)
    requires IsAction(s) && Performs(u, f, mid, [Did(ActionSpan(s), s.line)])
    requires JumpOf(s) == None || (j.fnFinal == Some(mid) && JumpOf(s) == Some(Target.Return))
    ensures Follows(u, f, mid, j, RunStmt(s, cs))
  {
  }

  lemma DrawnNotExit(node: Node, kind: ActivityNode, s: Stmt)
    requires Drawn(s) && NodeDraws(node, s) && kind == node.kind
    ensures kind != Merge && kind != ActivityFinal && (kind.Structured? <==> !IsAction(s))
    ensures IsAction(s) ==> kind == Action(ActionSpan(s))
    ensures kind.Structured? && s.kind.If? ==>
              && kind.stereotype == Conditional
              && IfWired(kind.body, s.line, s.kind.cond, s.kind.body, s.kind.elifs, s.kind.orelse)
    ensures kind.Structured? && !s.kind.If? ==>
              && IsLoop(s) && kind.stereotype == Loop && LoopWired(kind.body, s.line, LoopLabel(s), LoopBody(s))
    ensures kind.Structured? ==> HasExit(kind.body, Merge) && kind.body.nodes[kind.body.initial].kind.Decision?
  {
    if s.kind.If? {
      var b := kind.body;
      assert ChainAt(GraphOf(b), b.initial, s.line, s.kind.cond, s.kind.body, s.kind.elifs, ElseOf(s.kind.orelse), b.exit, 0, |b.nodes|);
    }
  }

  /** Both edges of a decision. */
  lemma TwoEdges(a: Activity, p: Placement, j: Jumps, u: FlatGraph, n: NodeId, line: nat, text: Span)
    requires Flat(a, p, j, u) && Ascending(u.nodes) && n in p.visited && n != a.exit && n < |a.nodes|
    requires a.nodes[n].kind == Decision(text) && a.nodes[n].line == line && |OutEdges(a.edges, n)| == 2
    requires OutEdges(a.edges, n)[0].guard == Some(Cond(text)) && OutEdges(a.edges, n)[1].guard == Some(Otherwise)
    requires forall i :: 0 <= i < 2 ==> Land(p.ids, p.subs, j, OutEdges(a.edges, n)[i].to).Some?
    ensures var out := OutEdges(a.edges, n);
      var f := LandId(p, j, Local(n));
      && KindAt(u.nodes, f) == Some(FDecision(text)) && AtDecision(u, f)
      && OutFlat(u.edges, f) == [FlatEdge(f, LandId(p, j, out[0].to), Some(Cond(text))),
                                 FlatEdge(f, LandId(p, j, out[1].to), Some(Otherwise))]
      && Performs(u, f, LandId(p, j, out[0].to), [Chose(text, line, true)])
      && Performs(u, f, LandId(p, j, out[1].to), [Chose(text, line, false)])
      && (forall i :: 0 <= i < 2 && out[i].to.Local? ==> out[i].to.id in p.visited)
  {
    hide Flat, Performs;
    DrawnAt(a, p, j, u, n);
    var out := OutEdges(a.edges, n);
    var f := p.ids[n];
    assert out[..1][..0] == [] && out == out[..1] + [out[1]];
    var e0 := FlatEdge(f, LandId(p, j, out[0].to), Some(Cond(text)));
    var e1 := FlatEdge(f, LandId(p, j, out[1].to), Some(Otherwise));
    ImageOne(p, j, f, out[..1]);
    assert OutFlat(u.edges, f) == [e0] + [e1];
    NodeFound(u.nodes, FlatNode(f, FDecision(text), a.nodes[n].line));
    assert e0 in OutFlat(u.edges, f) && e1 in OutFlat(u.edges, f);
    PerformsEdge(u, e0);
    PerformsEdge(u, e1);
  }

  lemma ImageOne(p: Placement, j: Jumps, f: nat, out: seq<ControlFlow>)
    requires |out| == 1 && Land(p.ids, p.subs, j, out[0].to).Some?
    ensures Image(p.ids, p.subs, j, f, out) == [FlatEdge(f, LandId(p, j, out[0].to), out[0].guard)]
  {
    assert out[..0] == [];
    assert Image(p.ids, p.subs, j, f, out[..0]) == [];
  }

  lemma {:induction false} IfFollows(b: Activity, q: Placement, j: Jumps, u: FlatGraph, s: Stmt, inLoop: bool, cs: seq<bool>)
    requires s.kind.If? && StmtJumpsBound(s, inLoop)
    requires IfWired(b, s.line, s.kind.cond, s.kind.body, s.kind.elifs, s.kind.orelse)
    requires Hosts(b, q, j, u, inLoop)
    ensures Follows(u, q.entry, q.exit, j, RunStmt(s, cs))
    decreases |cs|, StmtSize(s), -1
  {
    hide Flat, Follows, Performs;
    PlacedEnds(b, q, j, u);
    ChainFollows(b, q, j, u, b.initial, s.line, s.kind.cond, s.kind.body, s.kind.elifs, ElseOf(s.kind.orelse), 0, |b.nodes|, inLoop, cs);
  }

  lemma {:induction false} ChainFollows(b: Activity, q: Placement, j: Jumps, u: FlatGraph, d: NodeId, line: nat, cond: Expr, body: Block,
                                        elifs: seq<Arm>, orelse: Block, lo: nat, hi: nat, inLoop: bool, cs: seq<bool>)
    requires Hosts(b, q, j, u, inLoop) && d in q.visited
    requires ChainAt(GraphOf(b), d, line, cond, body, elifs, orelse, b.exit, lo, hi)
    requires JumpsBound(body, inLoop) && ArmsJumpsBound(elifs, inLoop) && JumpsBound(orelse, inLoop)
    ensures Follows(u, LandId(q, j, Local(d)), LandId(q, j, Local(b.exit)), j, RunIf(line, cond, body, elifs, orelse, cs))
    decreases |cs|, BlockSize(body) + ArmsSize(elifs) + BlockSize(orelse), 2
  {
    hide Flat, Follows, Performs;
    var out := OutEdges(b.edges, d);
    var f := LandId(q, j, Local(d));
    var m := LandId(q, j, Local(b.exit));
    EntryLands(GraphOf(b), body, out[0].to, Local(b.exit), lo, hi, q, j, inLoop);
    if elifs == [] { EntryLands(GraphOf(b), orelse, out[1].to, Local(b.exit), lo, hi, q, j, inLoop); }
    TwoEdges(b, q, j, u, d, line, cond.fullSpan);
    if cs == [] {
      FollowsStarved(u, f, m, j);
    } else if cs[0] {
      BlockFollows(b, q, j, u, body, out[0].to, Local(b.exit), lo, hi, inLoop, cs[1..]);
      FollowsAfter(u, f, LandId(q, j, out[0].to), m, j, [Chose(cond.fullSpan, line, true)], RunBlock(body, cs[1..]));
    } else if elifs == [] {
      BlockFollows(b, q, j, u, orelse, out[1].to, Local(b.exit), lo, hi, inLoop, cs[1..]);
      FollowsAfter(u, f, LandId(q, j, out[1].to), m, j, [Chose(cond.fullSpan, line, false)], RunBlock(orelse, cs[1..]));
    } else {
      ChainFollows(b, q, j, u, out[1].to.id, elifs[0].cond.line, elifs[0].cond, elifs[0].body, elifs[1..], orelse, lo, hi, inLoop, cs[1..]);
      FollowsAfter(u, f, LandId(q, j, out[1].to), m, j, [Chose(cond.fullSpan, line, false)],
                   RunIf(elifs[0].cond.line, elifs[0].cond, elifs[0].body, elifs[1..], orelse, cs[1..]));
    }
  }

  lemma FollowsStarved(u: FlatGraph, f: nat, next: nat, j: Jumps)
    requires AtDecision(u, f)
    ensures Follows(u, f, next, j, Run([], Starved, []))
  {
    PerformsNothing(u, f);
  }

  /** A loop's body is hosted with the loop's own jump targets. */
  lemma {:induction false} LoopBodyFollows(b: Activity, q: Placement, j: Jumps, u: FlatGraph, s: Stmt, cs: seq<bool>)
    requires IsLoop(s) && JumpsBound(LoopBody(s), true) && LoopWired(b, s.line, LoopLabel(s), LoopBody(s))
    requires Hosts(b, q, Inside(j, InLoop, q.entry, q.exit), u, true)
    ensures Follows(u, q.entry, q.exit, j, RunStmt(s, cs))
    decreases |cs|, StmtSize(s), -1
  {
    LoopFollows(b, q, j, u, s.line, LoopLabel(s), LoopBody(s), cs);
  }

  lemma {:induction false} LoopFollows(b: Activity, q: Placement, j: Jumps, u: FlatGraph, line: nat, text: Span, body: Block, cs: seq<bool>)
    requires JumpsBound(body, true) && LoopWired(b, line, text, body)
    requires Hosts(b, q, Inside(j, InLoop, q.entry, q.exit), u, true)
    ensures Follows(u, q.entry, q.exit, j, RunLoop(line, text, body, cs))
    decreases |cs|, BlockSize(body), 2
  {
    hide Flat, Follows, Performs;
    var inner := Inside(j, InLoop, q.entry, q.exit);
    var out := OutEdges(b.edges, b.initial);
    PlacedEnds(b, q, inner, u);
    EntryLands(GraphOf(b), body, out[0].to, Local(b.initial), 2, |b.nodes|, q, inner, true);
    TwoEdges(b, q, inner, u, b.initial, line, text);
    if cs == [] {
      FollowsStarved(u, q.entry, q.exit, j);
    } else if !cs[0] {
      AfterEvents(u, q.entry, q.exit, j, [Chose(text, line, false)], cs[1..]);
    } else {
      var r := RunBlock(body, cs[1..]);
      BlockFollows(b, q, inner, u, body, out[0].to, Local(b.initial), 2, |b.nodes|, true, cs[1..]);
      FollowsAfter(u, q.entry, LandId(q, inner, out[0].to), q.entry, inner, [Chose(text, line, true)], r);
      var events := [Chose(text, line, true)] + r.events;
      if r.end.Falls? || r.end.Continues? {
        LoopFollows(b, q, j, u, line, text, body, r.rest);
        BackToDecision(u, q.entry, q.exit, j, After([Chose(text, line, true)], r));
        FollowsAfter(u, q.entry, q.entry, q.exit, j, events, RunLoop(line, text, body, r.rest));
      } else {
        OutOfLoop(u, q.entry, q.exit, j, After([Chose(text, line, true)], r));
      }
    }
  }

  lemma AfterEvents(u: FlatGraph, from: nat, next: nat, j: Jumps, events: seq<Event>, rest: seq<bool>)
    requires Performs(u, from, next, events)
    ensures Follows(u, from, next, j, Run(events, Falls, rest))
  {
  }

  lemma BackToDecision(u: FlatGraph, entry: nat, exit: nat, j: Jumps, r: Run)
    requires Follows(u, entry, entry, Inside(j, InLoop, entry, exit), r) && (r.end.Falls? || r.end.Continues?)
    ensures Performs(u, entry, entry, r.events)
  {
  }

  lemma OutOfLoop(u: FlatGraph, entry: nat, exit: nat, j: Jumps, r: Run)
    requires Follows(u, entry, entry, Inside(j, InLoop, entry, exit), r) && !r.end.Falls? && !r.end.Continues?
    ensures Follows(u, entry, exit, j, if r.end.Breaks? then r.(end := Falls) else r)
  {
  }
}
