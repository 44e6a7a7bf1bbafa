/** Main results about the diagrams: the flat graph is a legal activity graph, and its
    paths from the initial to the final node are exactly the control-flow traces of
    the statements it was built from. */
module ActivityLegal {
  import opened Syntax
  import opened ActivityBuild
  import opened ActivityWiring
  import opened FlatGraphs
  import opened FlatPaths
  import opened ActivityTraces
  import opened ActivityMeaning

  // ------------------------------------------------------------ legal out-edges

  /** The edges a node of each kind has to have (UML 2.5.1, section 15.3). */
  ghost predicate LegalAt(g: FlatGraph, id: nat) {
    var out := OutFlat(g.edges, id);
    match KindAt(g.nodes, id)
    case None => false
    case Some(FDecision(text)) => |out| == 2 && out[0].guard == Some(Cond(text)) && out[1].guard == Some(Otherwise)
    case Some(FFinal) => out == []
    case Some(_) => |out| == 1 && out[0].guard == None
  }

  /** A node of a statement: neither the initial nor the final node. */
  ghost predicate Inner(g: FlatGraph, id: nat) {
    LegalAt(g, id) && KindAt(g.nodes, id) != Some(FInitial) && KindAt(g.nodes, id) != Some(FFinal)
  }

  /** The nodes `s` are legal, lead only to each other or to `exits`, and can get out. */
  ghost predicate Covers(g: FlatGraph, s: set<nat>, exits: set<nat>) {
    && (forall x :: x in s ==> Inner(g, x))
    && (forall x, e :: x in s && e in OutFlat(g.edges, x) ==> e.to in s + exits)
    && (forall x :: x in s ==> GetsOut(g, x, exits))
  }

  ghost predicate GetsOut(g: FlatGraph, x: nat, exits: set<nat>) {
    exists t :: t in exits && Reaches(g.edges, x, t)
  }

  lemma ReachesTrans(edges: seq<FlatEdge>, a: nat, b: nat, c: nat)
    requires Reaches(edges, a, b) && Reaches(edges, b, c)
    ensures Reaches(edges, a, c)
  {
    var p :| IsPath(edges, a, b, p);
    var q :| IsPath(edges, b, c, q);
    PathJoin(edges, a, b, c, p, q);
  }

  lemma ReachesEdge(edges: seq<FlatEdge>, e: FlatEdge)
    requires e in OutFlat(edges, e.from)
    ensures Reaches(edges, e.from, e.to)
  {
    OutFlatIn(edges, e.from);
    assert IsPath(edges, e.from, e.from, []);
    ReachesStep(edges, e.from, e);
  }

  lemma CoverMore(g: FlatGraph, s: set<nat>, exits: set<nat>, exits2: set<nat>)
    requires Covers(g, s, exits) && exits <= exits2
    ensures Covers(g, s, exits2)
  {
    forall x | x in s ensures GetsOut(g, x, exits2) {
      assert GetsOut(g, x, exits);
    }
  }

  /** Two groups of nodes, the first leading into the second. */
  lemma CoverJoin(g: FlatGraph, s1: set<nat>, t1: set<nat>, s2: set<nat>, exits: set<nat>)
    requires Covers(g, s1, t1) && Covers(g, s2, exits) && t1 <= s2 + exits
    ensures Covers(g, s1 + s2, exits)
  {
    forall x | x in s1 + s2 ensures GetsOut(g, x, exits) {
      if x in s2 {
        assert GetsOut(g, x, exits);
      } else {
        assert GetsOut(g, x, t1);
        var t :| t in t1 && Reaches(g.edges, x, t);
        if t !in exits {
          assert GetsOut(g, t, exits);
          var t2 :| t2 in exits && Reaches(g.edges, t, t2);
          ReachesTrans(g.edges, x, t, t2);
        }
      }
    }
  }

  /** One legal node whose targets are its exits. */
  lemma CoverOne(g: FlatGraph, x: nat, exits: set<nat>)
    requires Inner(g, x) && (forall e :: e in OutFlat(g.edges, x) ==> e.to in exits)
    ensures Covers(g, {x}, exits)
  {
    hide OutFlat, GetsOut, Reaches;
    var e := OutFlat(g.edges, x)[0];
    assert e.from == x && e.to in exits by {
      assert e in OutFlat(g.edges, x);
      OutFlatIn(g.edges, x);
    }
    ReachesEdge(g.edges, e);
    GetsOutBy(g, x, e.to, exits);
  }

  /** A loop: the body leads back to the decision `d`, whose `else` edge leads to `x`. */
  lemma CoverLoop(g: FlatGraph, body: set<nat>, d: nat, x: nat, exits: set<nat>)
    requires Covers(g, body, {d, x} + exits) && Inner(g, d) && |OutFlat(g.edges, d)| == 2
    requires OutFlat(g.edges, d)[0].to in body + {d, x} + exits && OutFlat(g.edges, d)[1].to == x
    ensures Covers(g, body + {d}, {x} + exits)
  {
    hide OutFlat, GetsOut, Inner, Reaches;
    var e := OutFlat(g.edges, d)[1];
    assert e.from == d by {
      assert e in OutFlat(g.edges, d);
      OutFlatIn(g.edges, d);
    }
    ReachesEdge(g.edges, e);
    GetsOutBy(g, d, x, {x} + exits);
    forall y | y in body + {d} ensures GetsOut(g, y, {x} + exits) {
      if y != d { LoopOut(g, y, d, x, exits); }
    }
    forall y, f | y in body + {d} && f in OutFlat(g.edges, y) ensures f.to in (body + {d}) + ({x} + exits) {
      if y == d { OneOfTwo(OutFlat(g.edges, d), f); }
    }
  }

  lemma OneOfTwo(out: seq<FlatEdge>, f: FlatEdge)
    requires |out| == 2 && f in out
    ensures f == out[0] || f == out[1]
  {
  }

  lemma GetsOutBy(g: FlatGraph, x: nat, t: nat, exits: set<nat>)
    requires t in exits && Reaches(g.edges, x, t)
    ensures GetsOut(g, x, exits)
  {
  }

  lemma LoopOut(g: FlatGraph, y: nat, d: nat, x: nat, exits: set<nat>)
    requires GetsOut(g, y, {d, x} + exits) && Reaches(g.edges, d, x)
    ensures GetsOut(g, y, {x} + exits)
  {
    var t :| t in {d, x} + exits && Reaches(g.edges, y, t);
    if t == d { ReachesTrans(g.edges, y, d, x); }
    var t2 := if t == d then x else t;
    assert t2 in {x} + exits && Reaches(g.edges, y, t2);
  }

  // --------------------------------------------------- every statement is covered

  /** Where control can leave a block. */
  function Exits(next: nat, j: Jumps, inLoop: bool): set<nat> {
    {next, Dest(next, j, Returns)}
    + (if inLoop then {Dest(next, j, Breaks), Dest(next, j, Continues)} else {})
  }

  lemma {:induction false} EntryExits(g: Graph, stmts: Block, at: Target, next: Target, lo: nat, hi: nat,
                                      p: Placement, j: Jumps, inLoop: bool)
    requires BlockAt(g, stmts, at, next, lo, hi) && JumpsBound(stmts, inLoop) && !at.Local? && next.Local?
    requires j.fnFinal.Some? && (inLoop ==> j.loopIds.Some?)
    ensures LandId(p, j, at) in Exits(LandId(p, j, next), j, inLoop)
    decreases |stmts|
  {
    if stmts != [] && JumpOf(stmts[0]) == None {
      EntryExits(g, stmts[1..], at, next, lo, hi, p, j, inLoop);
    }
  }

  /** A jump leads to one of the ways out. */
  lemma JumpExits(p: Placement, j: Jumps, s: Stmt, t: Target, next: nat, inLoop: bool)
    requires JumpOf(s) == Some(t) && StmtJumpsBound(s, inLoop) && j.fnFinal.Some? && (inLoop ==> j.loopIds.Some?)
    ensures Exits(LandId(p, j, t), j, inLoop) <= Exits(next, j, inLoop)
  {
  }

  lemma {:induction false} BlockCover(a: Activity, p: Placement, j: Jumps, u: FlatGraph, stmts: Block,
                                      at: Target, next: Target, lo: nat, hi: nat, inLoop: bool) returns (s: set<nat>)
    requires Hosts(a, p, j, u, inLoop) && JumpsBound(stmts, inLoop)
    requires BlockAt(GraphOf(a), stmts, at, next, lo, hi) && next.Local?
    requires at.Local? ==> at.id in p.visited
    ensures Covers(u, s, Exits(LandId(p, j, next), j, inLoop))
    ensures LandId(p, j, at) in s + Exits(LandId(p, j, next), j, inLoop)
    decreases BlockSize(stmts), 1
  {
    var exits := Exits(LandId(p, j, next), j, inLoop);
    assert LandId(p, j, next) in exits;
    hide Hosts, Covers, BlockAt, NodeDraws, OutEdges, Exits;
    HostParts(a, p, j, u, inLoop);
    if stmts == [] || !at.Local? {
      if stmts == [] { EmptyAt(GraphOf(a), at, next, lo, hi); }
      if !at.Local? { EntryExits(GraphOf(a), stmts, at, next, lo, hi, p, j, inLoop); }
      CoverNone(u, exits);
      return {};
    }
    var st := stmts[0];
    if Drawn(st) {
      HeadDrawn(GraphOf(a), stmts, at, next, lo, hi);
      var mid := OutEdges(a.edges, at.id)[0].to;
      if JumpOf(st) == None { EntryLands(GraphOf(a), stmts[1..], mid, next, lo, hi, p, j, inLoop); }
      var c := DrawnCover(a, p, j, u, st, at.id, inLoop);
      if JumpOf(st) == None {
        OneEdgeOf(a, p, j, u, at.id, inLoop, st);
        var rest := BlockCover(a, p, j, u, stmts[1..], mid, next, lo, hi, inLoop);
        CoverJoin(u, c, Exits(LandId(p, j, mid), j, inLoop), rest, exits);
        s := c + rest;
      } else {
        JumpExits(p, j, st, mid, LandId(p, j, next), inLoop);
        CoverMore(u, c, Exits(LandId(p, j, mid), j, inLoop), exits);
        s := c;
      }
    } else {
      HeadUndrawn(GraphOf(a), stmts, at, next, lo, hi);
      s := BlockCover(a, p, j, u, stmts[1..], at, next, lo, hi, inLoop);
    }
  }

  lemma CoverNone(g: FlatGraph, exits: set<nat>)
    ensures Covers(g, {}, exits)
  {
  }

  lemma {:induction false} DrawnCover(a: Activity, p: Placement, j: Jumps, u: FlatGraph, s: Stmt, n: NodeId, inLoop: bool)
    returns (c: set<nat>)
    requires Hosts(a, p, j, u, inLoop) && Drawn(s) && StmtJumpsBound(s, inLoop)
    requires n in p.visited && n < |a.nodes| && NodeDraws(a.nodes[n], s)
    requires |OutEdges(a.edges, n)| == 1 && OutEdges(a.edges, n)[0].guard == None
    requires Land(p.ids, p.subs, j, OutEdges(a.edges, n)[0].to).Some?
    ensures Covers(u, c, Exits(LandId(p, j, OutEdges(a.edges, n)[0].to), j, inLoop))
    ensures LandId(p, j, Local(n)) in c
    decreases StmtSize(s), 0
  {
    hide Flat, Covers, Performs;
    var mid := LandId(p, j, OutEdges(a.edges, n)[0].to);
    DrawnAt(a, p, j, u, n);
    DrawnNotExit(a.nodes[n], a.nodes[n].kind, s);
    OneEdge(a, p, j, u, n);
    var f := From(p.ids, p.subs, n);
    if IsAction(s) {
      NodeFound(u.nodes, FlatNode(f, FAction(ActionSpan(s)), a.nodes[n].line));
      CoverOne(u, f, {mid});
      CoverMore(u, {f}, {mid}, Exits(mid, j, inLoop));
      c := {f};
    } else {
      var b := a.nodes[n].kind.body;
      var q := p.subs[n];
      PlacedEnds(b, q, BodyJumps(a, n, q, j), u);
      NodeFound(u.nodes, FlatNode(q.exit, FMerge, b.nodes[b.exit].line));
      CoverOne(u, q.exit, {mid});
      CoverMore(u, {q.exit}, {mid}, Exits(mid, j, inLoop));
      var inner;
      if s.kind.If? {
        inner := ChainCover(b, q, j, u, b.initial, s.line, s.kind.cond, s.kind.body, s.kind.elifs, ElseOf(s.kind.orelse),
                            0, |b.nodes|, inLoop);
      } else {
        inner := LoopCover(b, q, j, u, s.line, LoopLabel(s), LoopBody(s), inLoop);
      }
      CoverJoin(u, inner, Exits(q.exit, j, inLoop), {q.exit}, Exits(mid, j, inLoop));
      c := inner + {q.exit};
    }
  }

  lemma {:induction false} ChainCover(b: Activity, q: Placement, j: Jumps, u: FlatGraph, d: NodeId, line: nat, cond: Expr, body: Block,
                                      elifs: seq<Arm>, orelse: Block, lo: nat, hi: nat, inLoop: bool) returns (c: set<nat>)
    requires Hosts(b, q, j, u, inLoop) && d in q.visited
    requires ChainAt(GraphOf(b), d, line, cond, body, elifs, orelse, b.exit, lo, hi)
    requires JumpsBound(body, inLoop) && ArmsJumpsBound(elifs, inLoop) && JumpsBound(orelse, inLoop)
    ensures Covers(u, c, Exits(LandId(q, j, Local(b.exit)), j, inLoop)) && LandId(q, j, Local(d)) in c
    decreases BlockSize(body) + ArmsSize(elifs) + BlockSize(orelse), 2
  {
    hide Flat, Covers, Performs;
    var out := OutEdges(b.edges, d);
    var f := LandId(q, j, Local(d));
    var m := LandId(q, j, Local(b.exit));
    var exits := Exits(m, j, inLoop);
    EntryLands(GraphOf(b), body, out[0].to, Local(b.exit), lo, hi, q, j, inLoop);
    if elifs == [] { EntryLands(GraphOf(b), orelse, out[1].to, Local(b.exit), lo, hi, q, j, inLoop); }
    TwoEdges(b, q, j, u, d, line, cond.fullSpan);
    var yes := BlockCover(b, q, j, u, body, out[0].to, Local(b.exit), lo, hi, inLoop);
    var no;
    if elifs == [] {
      no := BlockCover(b, q, j, u, orelse, out[1].to, Local(b.exit), lo, hi, inLoop);
    } else {
      no := ChainCover(b, q, j, u, out[1].to.id, elifs[0].cond.line, elifs[0].cond, elifs[0].body, elifs[1..], orelse, lo, hi, inLoop);
    }
    CoverMore(u, yes, exits, no + exits);
    CoverJoin(u, yes, exits, no, exits);
    DecisionCover(u, f, cond.fullSpan, LandId(q, j, out[0].to), LandId(q, j, out[1].to));
    CoverJoin(u, {f}, {LandId(q, j, out[0].to), LandId(q, j, out[1].to)}, yes + no, exits);
    c := {f} + (yes + no);
  }

  lemma DecisionCover(u: FlatGraph, f: nat, text: Span, t0: nat, t1: nat)
    requires KindAt(u.nodes, f) == Some(FDecision(text))
    requires OutFlat(u.edges, f) == [FlatEdge(f, t0, Some(Cond(text))), FlatEdge(f, t1, Some(Otherwise))]
    ensures Inner(u, f) && Covers(u, {f}, {t0, t1})
  {
    CoverOne(u, f, {t0, t1});
  }

  lemma {:induction false} LoopCover(b: Activity, q: Placement, j: Jumps, u: FlatGraph, line: nat, text: Span, body: Block, inLoop: bool)
    returns (c: set<nat>)
    requires JumpsBound(body, true) && LoopWired(b, line, text, body)
    requires Hosts(b, q, Inside(j, InLoop, q.entry, q.exit), u, true)
    ensures Covers(u, c, Exits(q.exit, j, inLoop)) && q.entry in c
    decreases BlockSize(body), 2
  {
    hide Flat, Covers, Performs;
    var inner := Inside(j, InLoop, q.entry, q.exit);
    var out := OutEdges(b.edges, b.initial);
    PlacedEnds(b, q, inner, u);
    EntryLands(GraphOf(b), body, out[0].to, Local(b.initial), 2, |b.nodes|, q, inner, true);
    TwoEdges(b, q, inner, u, b.initial, line, text);
    var s := BlockCover(b, q, inner, u, body, out[0].to, Local(b.initial), 2, |b.nodes|, true);
    var fin := {Dest(q.exit, j, Returns)};
    assert Exits(q.entry, inner, true) == {q.entry, q.exit} + fin;
    DecisionCover(u, q.entry, text, LandId(q, inner, out[0].to), q.exit);
    CoverLoop(u, s, q.entry, q.exit, fin);
    c := s + {q.entry};
    CoverMore(u, c, {q.exit} + fin, Exits(q.exit, j, inLoop));
  }

  // -------------------------------------------------------------- whole diagrams

  /** The jump targets of a function's own body. */
  function Top(p: Placement): Jumps { Inside(Jumps(None, None), InFunction, p.entry, p.exit) }

  /** `out` is what flattening makes of `a`: `a` placed in `u`, then pruned. */
  ghost predicate Flattening(a: Activity, p: Placement, u: FlatGraph, keep: set<nat>, out: FlatGraph) {
    && Flat(a, p, Top(p), u) && Ascending(u.nodes)
    && OutFlat(u.edges, p.exit) == []
    && IsPruned(u, p.entry, out, keep)
  }

  /** The legal shape of an activity graph whose initial and final nodes are given. */
  ghost predicate LegalActivity(g: FlatGraph, initial: nat, final: nat) {
    && Ascending(g.nodes)
    && KindAt(g.nodes, initial) == Some(FInitial) && KindAt(g.nodes, final) == Some(FFinal)
    && (forall n :: n in g.nodes ==>
          && LegalAt(g, n.id)
          && (n.kind == FInitial <==> n.id == initial) && (n.kind == FFinal <==> n.id == final)
          && Reaches(g.edges, initial, n.id) && Reaches(g.edges, n.id, final))
    && (forall e :: e in g.edges ==>
          KindAt(g.nodes, e.from).Some? && KindAt(g.nodes, e.to).Some? && e.to != initial)
  }

  /** The initial node, its edge and the hosted body of a whole diagram. */
  lemma TopParts(stmts: Block, p: Placement, u: FlatGraph, keep: set<nat>, out: FlatGraph)
    returns (first: Target)
    requires Flattening(Build(stmts), p, u, keep, out) && JumpsBound(stmts, false)
    ensures Hosts(Build(stmts), p, Top(p), u, false)
    ensures BlockAt(GraphOf(Build(stmts)), stmts, first, Local(Build(stmts).exit), 2, |Build(stmts).nodes|)
    ensures (first.Local? ==> first.id in p.visited) && LandId(p, Top(p), Local(Build(stmts).exit)) == p.exit
    ensures OutFlat(u.edges, p.entry) == [FlatEdge(p.entry, LandId(p, Top(p), first), None)]
    ensures KindAt(u.nodes, p.entry) == Some(FInitial) && KindAt(u.nodes, p.exit) == Some(FFinal)
  {
    hide Flat, BlockAt;
    BuildWires(stmts);
    var a := Build(stmts);
    first := OutEdges(a.edges, a.initial)[0].to;
    PlacedEnds(a, p, Top(p), u);
    EntryLands(GraphOf(a), stmts, first, Local(a.exit), 2, |a.nodes|, p, Top(p), false);
    OneEdge(a, p, Top(p), u, a.initial);
    NodeFound(u.nodes, FlatNode(p.entry, FInitial, a.nodes[a.initial].line));
    NodeFound(u.nodes, FlatNode(p.exit, FFinal, a.nodes[a.exit].line));
  }

  /** All nodes the start reaches are legal and reach the final node. */
  lemma TopCover(stmts: Block, p: Placement, u: FlatGraph, keep: set<nat>, out: FlatGraph) returns (s: set<nat>)
    requires Flattening(Build(stmts), p, u, keep, out) && JumpsBound(stmts, false)
    ensures Covers(u, s, {p.exit}) && keep <= s + {p.entry, p.exit}
    ensures LegalAt(u, p.entry) && LegalAt(u, p.exit) && GetsOut(u, p.entry, {p.exit})
    ensures forall e :: e in OutFlat(u.edges, p.entry) ==> e.to in s + {p.exit}
    ensures KindAt(u.nodes, p.entry) == Some(FInitial) && KindAt(u.nodes, p.exit) == Some(FFinal)
  {
    hide Flat, Covers, Hosts;
    var a := Build(stmts);
    var first := TopParts(stmts, p, u, keep, out);
    s := BlockCover(a, p, Top(p), u, stmts, first, Local(a.exit), 2, |a.nodes|, false);
    assert Exits(p.exit, Top(p), false) == {p.exit};
    EntryOut(u, p.entry, LandId(p, Top(p), first), s, p.exit);
    CoverKeep(u, s, p.entry, p.exit, keep);
  }

  lemma EntryOut(u: FlatGraph, entry: nat, t: nat, s: set<nat>, exit: nat)
    requires OutFlat(u.edges, entry) == [FlatEdge(entry, t, None)] && t in s + {exit}
    requires Covers(u, s, {exit})
    ensures GetsOut(u, entry, {exit})
  {
    assert FlatEdge(entry, t, None) in OutFlat(u.edges, entry);
    ReachesEdge(u.edges, FlatEdge(entry, t, None));
    if t in s {
      assert GetsOut(u, t, {exit});
      ReachesTrans(u.edges, entry, t, exit);
    }
  }

  lemma CoverKeep(u: FlatGraph, s: set<nat>, entry: nat, exit: nat, keep: set<nat>)
    requires Covers(u, s, {exit}) && OutFlat(u.edges, exit) == []
    requires forall e :: e in OutFlat(u.edges, entry) ==> e.to in s + {exit}
    requires forall id: nat :: id in keep <==> Reaches(u.edges, entry, id)
    ensures keep <= s + {entry, exit}
  {
    var all := s + {entry, exit};
    forall e | e in u.edges && e.from in all ensures e.to in all {
      OutFlatIn(u.edges, e.from);
      assert e in OutFlat(u.edges, e.from);
    }
    forall id | id in keep ensures id in all {
      var path :| IsPath(u.edges, entry, id, path);
      PathStays(u.edges, entry, id, path, all);
    }
  }

  lemma {:induction false} NodeIn(nodes: seq<FlatNode>, id: nat)
    requires NodeAt(nodes, id).Some?
    ensures exists n :: n in nodes && n.id == id && NodeAt(nodes, id) == Some(n)
    decreases |nodes|
  {
    if nodes[0].id != id {
      NodeIn(nodes[1..], id);
      var n :| n in nodes[1..] && n.id == id && NodeAt(nodes[1..], id) == Some(n);
      assert n in nodes;
    }
  }

  /** Pruning keeps what it keeps intact. */
  lemma KeptSame(u: FlatGraph, start: nat, out: FlatGraph, keep: set<nat>, id: nat)
    requires IsPruned(u, start, out, keep) && id in keep && Ascending(u.nodes)
    ensures OutFlat(out.edges, id) == OutFlat(u.edges, id) && NodeAt(out.nodes, id) == NodeAt(u.nodes, id)
    ensures KindAt(out.nodes, id) == KindAt(u.nodes, id) && LegalAt(out, id) == LegalAt(u, id)
  {
    KeepEdgesOut(u.edges, keep, id);
    KeepNodesIn(u.nodes, keep);
    KeepNodesAscending(u.nodes, keep);
    if NodeAt(u.nodes, id).Some? {
      NodeIn(u.nodes, id);
      var n :| n in u.nodes && n.id == id && NodeAt(u.nodes, id) == Some(n);
      NodeFound(out.nodes, n);
    } else if NodeAt(out.nodes, id).Some? {
      NodeIn(out.nodes, id);
      var n :| n in out.nodes && n.id == id && NodeAt(out.nodes, id) == Some(n);
      NodeFound(u.nodes, n);
    }
  }

  lemma PrunedReaches(u: FlatGraph, start: nat, out: FlatGraph, keep: set<nat>, a: nat, b: nat)
    requires IsPruned(u, start, out, keep) && a in keep && Reaches(u.edges, a, b)
    ensures Reaches(out.edges, a, b)
  {
    var path :| IsPath(u.edges, a, b, path);
    PrunedPaths(u, start, out, keep, a, b, path);
  }

  /** The flat graph is a legal activity: unique ids, no dangling edge, the out-edges each
      kind of node must have, everything on the way from the initial to the final node. */
  lemma DiagramLegal(stmts: Block, p: Placement, u: FlatGraph, keep: set<nat>, out: FlatGraph)
    requires Flattening(Build(stmts), p, u, keep, out) && JumpsBound(stmts, false)
    ensures LegalActivity(out, p.entry, p.exit)
  {
    hide Flat, KindAt, LegalAt, IsPath;
    var s := TopCover(stmts, p, u, keep, out);
    KeepNodesAscending(u.nodes, keep);
    StartKept(u, p.entry, keep);
    PrunedReaches(u, p.entry, out, keep, p.entry, p.exit);
    KeptSame(u, p.entry, out, keep, p.entry);
    KeptSame(u, p.entry, out, keep, p.exit);
    forall n | n in out.nodes
      ensures LegalAt(out, n.id)
      ensures (n.kind == FInitial <==> n.id == p.entry) && (n.kind == FFinal <==> n.id == p.exit)
      ensures Reaches(out.edges, p.entry, n.id) && Reaches(out.edges, n.id, p.exit)
    {
      NodeLegal(s, p, u, keep, out, n);
    }
    forall e | e in out.edges
      ensures KindAt(out.nodes, e.from).Some? && KindAt(out.nodes, e.to).Some? && e.to != p.entry
    {
      EdgeLegal(s, p, u, keep, out, e);
    }
  }

  lemma StartKept(u: FlatGraph, start: nat, keep: set<nat>)
    requires forall id: nat :: id in keep <==> Reaches(u.edges, start, id)
    ensures start in keep
  {
    assert IsPath(u.edges, start, start, []);
  }

  lemma NodeLegal(s: set<nat>, p: Placement, u: FlatGraph, keep: set<nat>, out: FlatGraph, n: FlatNode)
    requires IsPruned(u, p.entry, out, keep) && Ascending(u.nodes)
    requires Covers(u, s, {p.exit}) && keep <= s + {p.entry, p.exit}
    requires LegalAt(u, p.entry) && LegalAt(u, p.exit) && GetsOut(u, p.entry, {p.exit})
    requires KindAt(u.nodes, p.entry) == Some(FInitial) && KindAt(u.nodes, p.exit) == Some(FFinal)
    requires n in out.nodes
    ensures LegalAt(out, n.id)
    ensures (n.kind == FInitial <==> n.id == p.entry) && (n.kind == FFinal <==> n.id == p.exit)
    ensures Reaches(out.edges, p.entry, n.id) && Reaches(out.edges, n.id, p.exit)
  {
    KeepNodesIn(u.nodes, keep);
    NodeFound(u.nodes, n);
    KeptSame(u, p.entry, out, keep, n.id);
    StartKept(u, p.entry, keep);
    PrunedReaches(u, p.entry, out, keep, p.entry, n.id);
    if n.id == p.exit {
      assert IsPath(u.edges, p.exit, p.exit, []);
    } else {
      assert n.id in s ==> Inner(u, n.id) && GetsOut(u, n.id, {p.exit});
    }
    PrunedReaches(u, p.entry, out, keep, n.id, p.exit);
  }

  lemma EdgeLegal(s: set<nat>, p: Placement, u: FlatGraph, keep: set<nat>, out: FlatGraph, e: FlatEdge)
    requires IsPruned(u, p.entry, out, keep) && Ascending(u.nodes)
    requires Covers(u, s, {p.exit}) && keep <= s + {p.entry, p.exit}
    requires LegalAt(u, p.entry) && LegalAt(u, p.exit)
    requires forall f :: f in OutFlat(u.edges, p.entry) ==> f.to in s + {p.exit}
    requires KindAt(u.nodes, p.entry) == Some(FInitial) && KindAt(u.nodes, p.exit) == Some(FFinal)
    requires e in out.edges
    ensures KindAt(out.nodes, e.from).Some? && KindAt(out.nodes, e.to).Some? && e.to != p.entry
  {
    KeepEdgesIn(u.edges, keep);
    OutFlatIn(u.edges, e.from);
    assert e in OutFlat(u.edges, e.from);
    ReachesStep(u.edges, p.entry, e);
    KeptSame(u, p.entry, out, keep, e.from);
    KeptSame(u, p.entry, out, keep, e.to);
    assert e.to in s + {p.exit};
    assert e.to in s ==> Inner(u, e.to);
  }

  // --------------------------------------------------- paths are exactly traces

  /** In a legal graph the choices fix the path: a path that used up its choices, or
      that is at the final node, is any path to the final node with those choices. */
  lemma {:induction false} SamePath(g: FlatGraph, initial: nat, final: nat, n: nat, p1: seq<FlatEdge>, x: nat,
                                    p2: seq<FlatEdge>, rest: seq<bool>)
    requires LegalActivity(g, initial, final)
    requires IsPath(g.edges, n, x, p1) && IsPath(g.edges, n, final, p2)
    requires KindAt(g.nodes, n).Some?
    requires Choices(Labels(g.nodes, p2)) == Choices(Labels(g.nodes, p1)) + rest
    requires x == final || (AtDecision(g, x) && rest == [])
    ensures x == final && p1 == p2
    decreases |p1|
  {
    hide OutFlat, Choices, Labels;
    NodeIn(g.nodes, n);
    assert LegalAt(g, n);
    OutFlatIn(g.edges, n);
    assert p1 != [] ==> p1[0] in OutFlat(g.edges, n);
    assert p2 != [] ==> p2[0] in OutFlat(g.edges, n);
    if p1 == [] {
      NoLabels(g);
      if AtDecision(g, x) { FirstChoice(g, p2); }
    } else if p2 != [] {
      SameEdge(g, n, p1, p2, rest);
      assert KindAt(g.nodes, p1[0].to).Some?;
      SamePath(g, initial, final, p1[0].to, p1[1..], x, p2[1..], rest);
      assert p1 == [p1[0]] + p1[1..] && p2 == [p2[0]] + p2[1..];
    }
  }

  lemma NoLabels(g: FlatGraph)
    ensures Choices(Labels(g.nodes, [])) == []
  {
  }

  lemma FirstChoice(g: FlatGraph, p: seq<FlatEdge>)
    ensures p != [] && LegalAt(g, p[0].from) && AtDecision(g, p[0].from) && p[0] in OutFlat(g.edges, p[0].from)
            ==> Choices(Labels(g.nodes, p)) != []
  {
  }

  lemma SameEdge(g: FlatGraph, n: nat, p1: seq<FlatEdge>, p2: seq<FlatEdge>, rest: seq<bool>)
    requires LegalAt(g, n) && p1 != [] && p2 != []
    requires p1[0] in OutFlat(g.edges, n) && p2[0] in OutFlat(g.edges, n) && p1[0].from == n == p2[0].from
    requires Choices(Labels(g.nodes, p2)) == Choices(Labels(g.nodes, p1)) + rest
    ensures p1[0] == p2[0] && Choices(Labels(g.nodes, p2[1..])) == Choices(Labels(g.nodes, p1[1..])) + rest
  {
    hide OutFlat, NodeAt, LegalAt, Choices;
    var node := NodeAt(g.nodes, n);
    var e1 := EventsOf(node, p1[0].guard);
    var e2 := EventsOf(node, p2[0].guard);
    ChoicesJoin(e1, Labels(g.nodes, p1[1..]));
    ChoicesJoin(e2, Labels(g.nodes, p2[1..]));
    SameWidth(g, n, p1[0], p2[0]);
    SplitSame(Choices(e1), Choices(Labels(g.nodes, p1[1..])), rest, Choices(e2), Choices(Labels(g.nodes, p2[1..])));
  }

  /** The edges out of a legal node are told apart by the choices they report. */
  lemma SameWidth(g: FlatGraph, n: nat, f1: FlatEdge, f2: FlatEdge)
    requires LegalAt(g, n) && f1 in OutFlat(g.edges, n) && f2 in OutFlat(g.edges, n)
    ensures var c1 := Choices(EventsOf(NodeAt(g.nodes, n), f1.guard));
      var c2 := Choices(EventsOf(NodeAt(g.nodes, n), f2.guard));
      |c1| == |c2| && (c1 == c2 ==> f1 == f2)
  {
    hide OutFlat, NodeAt, Choices;
    ChoicesOne(NodeAt(g.nodes, n), f1.guard);
    ChoicesOne(NodeAt(g.nodes, n), f2.guard);
  }

  lemma ChoicesOne(node: Option<FlatNode>, guard: Option<Guard>)
    ensures Choices(EventsOf(node, guard)) ==
      if node.Some? && node.value.kind.FDecision? && guard.Some? then [guard.value.Cond?] else []
  {
    assert forall e: Event :: [e][1..] == [];
  }

  lemma SplitSame(a: seq<bool>, x: seq<bool>, rest: seq<bool>, b: seq<bool>, y: seq<bool>)
    requires b + y == a + x + rest && |a| == |b|
    ensures a == b && y == x + rest
  {
    assert (b + y)[..|b|] == b && (a + x + rest)[..|a|] == a;
    assert (b + y)[|b|..] == y && (a + x + rest)[|a|..] == x + rest;
  }

  /** The run with these choices, traced in the graph from its initial node. */
  lemma RunFollows(stmts: Block, p: Placement, u: FlatGraph, keep: set<nat>, out: FlatGraph, cs: seq<bool>)
    returns (x: nat)
    requires Flattening(Build(stmts), p, u, keep, out) && JumpsBound(stmts, false)
    ensures var r := RunBlock(stmts, cs);
      && Performs(out, p.entry, x, r.events)
      && (if r.end.Starved? then AtDecision(out, x) else x == p.exit)
      && (r.end.Falls? || r.end.Returns? || r.end.Starved?)
  {
    hide Flat, BlockAt, Hosts, NodeAt, IsPath;
    var a := Build(stmts);
    var r := RunBlock(stmts, cs);
    var first := TopParts(stmts, p, u, keep, out);
    var t := LandId(p, Top(p), first);
    BlockFollows(a, p, Top(p), u, stmts, first, Local(a.exit), 2, |a.nodes|, false, cs);
    var e := FlatEdge(p.entry, t, None);
    assert e in OutFlat(u.edges, p.entry);
    PerformsEdge(u, e);
    FollowsAfter(u, p.entry, t, p.exit, Top(p), [], r);
    AfterNothing(r);
    NoLooseJumps(stmts, cs, false);
    StartKept(u, p.entry, keep);
    if r.end.Starved? {
      x :| Performs(u, p.entry, x, r.events) && AtDecision(u, x);
      PerformsReaches(u, p.entry, x, r.events);
      KeptSame(u, p.entry, out, keep, x);
    } else {
      x := p.exit;
    }
    PerformsPruned(u, p.entry, out, keep, x, r.events);
  }

  lemma PerformsReaches(u: FlatGraph, a: nat, b: nat, events: seq<Event>)
    requires Performs(u, a, b, events)
    ensures Reaches(u.edges, a, b)
  {
  }

  lemma {:induction false} LabelsPruned(u: FlatGraph, start: nat, out: FlatGraph, keep: set<nat>, a: nat, b: nat,
                                        path: seq<FlatEdge>)
    requires IsPruned(u, start, out, keep) && Ascending(u.nodes) && a in keep && IsPath(u.edges, a, b, path)
    ensures Labels(out.nodes, path) == Labels(u.nodes, path)
    decreases |path|
  {
    if path != [] {
      ReachesStep(u.edges, start, path[0]);
      KeptSame(u, start, out, keep, a);
      LabelsPruned(u, start, out, keep, path[0].to, b, path[1..]);
    }
  }

  lemma PerformsPruned(u: FlatGraph, start: nat, out: FlatGraph, keep: set<nat>, b: nat, events: seq<Event>)
    requires IsPruned(u, start, out, keep) && Ascending(u.nodes) && start in keep && Performs(u, start, b, events)
    ensures Performs(out, start, b, events)
  {
    var path :| IsPath(u.edges, start, b, path) && Labels(u.nodes, path) == events;
    PrunedPaths(u, start, out, keep, start, b, path);
    LabelsPruned(u, start, out, keep, start, b, path);
  }

  /** With every jump bound, a function body ends by falling through or returning. */
  lemma {:induction false} NoLooseJumps(stmts: Block, cs: seq<bool>, inLoop: bool)
    requires JumpsBound(stmts, inLoop)
    ensures var end := RunBlock(stmts, cs).end; (end.Breaks? || end.Continues?) ==> inLoop
    decreases |cs|, BlockSize(stmts), 1
  {
    if stmts != [] {
      var r := RunStmt(stmts[0], cs);
      if stmts[0].kind.If? {
        var k := stmts[0].kind;
        assert StmtSize(stmts[0]) > BlockSize(k.body) + ArmsSize(k.elifs) + BlockSize(ElseOf(k.orelse));
        NoLooseIf(stmts[0].line, k.cond, k.body, k.elifs, ElseOf(k.orelse), cs, inLoop);
      }
      if r.end.Falls? { NoLooseJumps(stmts[1..], r.rest, inLoop); }
    }
  }

  lemma {:induction false} NoLooseIf(line: nat, cond: Expr, body: Block, elifs: seq<Arm>, orelse: Block, cs: seq<bool>, inLoop: bool)
    requires JumpsBound(body, inLoop) && ArmsJumpsBound(elifs, inLoop) && JumpsBound(orelse, inLoop)
    ensures var end := RunIf(line, cond, body, elifs, orelse, cs).end; (end.Breaks? || end.Continues?) ==> inLoop
    decreases |cs|, BlockSize(body) + ArmsSize(elifs) + BlockSize(orelse), 2
  {
    if cs != [] {
      if cs[0] {
        NoLooseJumps(body, cs[1..], inLoop);
      } else if elifs == [] {
        NoLooseJumps(orelse, cs[1..], inLoop);
      } else {
        NoLooseIf(elifs[0].cond.line, elifs[0].cond, elifs[0].body, elifs[1..], orelse, cs[1..], inLoop);
      }
    }
  }

  /** Flattening preserves control flow exactly. */
  lemma ControlFlowPreserved(stmts: Block, p: Placement, u: FlatGraph, keep: set<nat>, out: FlatGraph, events: seq<Event>)
    requires Flattening(Build(stmts), p, u, keep, out) && JumpsBound(stmts, false)
    ensures Performs(out, p.entry, p.exit, events) <==> IsTrace(stmts, events)
  {
    hide Flat, LegalActivity, KindAt, IsPath, Choices, Labels;
    DiagramLegal(stmts, p, u, keep, out);
    if IsTrace(stmts, events) {
      var cs :| Completes(RunBlock(stmts, cs), events);
      var x := RunFollows(stmts, p, u, keep, out, cs);
    }
    if Performs(out, p.entry, p.exit, events) {
      var cs := Choices(events);
      var r := RunBlock(stmts, cs);
      var x := RunFollows(stmts, p, u, keep, out, cs);
      BlockChoices(stmts, cs);
      SameRun(out, p.entry, p.exit, x, r, events);
      assert Completes(r, events);
    }
  }

  lemma SameRun(g: FlatGraph, initial: nat, final: nat, x: nat, r: Run, events: seq<Event>)
    requires LegalActivity(g, initial, final) && Performs(g, initial, final, events) && Performs(g, initial, x, r.events)
    requires Choices(r.events) + r.rest == Choices(events)
    requires if r.end.Starved? then AtDecision(g, x) && r.rest == [] else x == final
    ensures r.events == events && r.rest == [] && !r.end.Starved?
  {
    var p1 :| IsPath(g.edges, initial, x, p1) && Labels(g.nodes, p1) == r.events;
    var p2 :| IsPath(g.edges, initial, final, p2) && Labels(g.nodes, p2) == events;
    SamePath(g, initial, final, initial, p1, x, p2, r.rest);
    assert r.rest == Choices(events)[|Choices(r.events)|..];
  }
}
