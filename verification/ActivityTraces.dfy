/** The control-flow traces of statements, and the paths of a flat graph that perform
    them.  A trace lists the actions performed and the decisions taken; a run is
    fixed by a list of choices, one for each decision it meets. */
module ActivityTraces {
  import opened Syntax
  import opened ActivityBuild
  import opened FlatGraphs
  import opened FlatPaths

  /** What a run reports: an action or a decision, by its text and line. */
  datatype Event = Did(text: Span, line: nat) | Chose(text: Span, line: nat, yes: bool)

  // ------------------------------------------------------ traces of statements

  datatype End = Falls | Breaks | Continues | Returns | Starved

  /** What a run does with its choices: events, how it ends, choices left over.
      `Starved` runs stand at a decision with no choice left. */
  datatype Run = Run(events: seq<Event>, end: End, rest: seq<bool>)

  function After(events: seq<Event>, r: Run): Run { r.(events := events + r.events) }

  /** The event of a statement that computes `value`: its text without a trailing comment. */
  function Doing(s: Stmt, value: Expr): Event {
    Did(if value.fullSpan == (0, 0) then s.span else (s.span.0, value.fullSpan.1), s.line)
  }

  function RunBlock(stmts: Block, cs: seq<bool>): (r: Run)
    ensures |r.rest| <= |cs| && (r.end.Starved? ==> r.rest == [])
    decreases |cs|, BlockSize(stmts), 1
  {
    if stmts == [] then Run([], Falls, cs)
    else
      var r := RunStmt(stmts[0], cs);
      if r.end.Falls? then After(r.events, RunBlock(stmts[1..], r.rest)) else r
  }

  function RunStmt(s: Stmt, cs: seq<bool>): (r: Run)
    ensures |r.rest| <= |cs| && (r.end.Starved? ==> r.rest == [])
    decreases |cs|, StmtSize(s), 0
  {
    match s.kind
    case Break => Run([], Breaks, cs)
    case Continue => Run([], Continues, cs)
    case Return(None) => Run([], Returns, cs)
    case Return(Some(e)) => Run([Doing(s, e)], Returns, cs)
    case ExprStmt(e) => Run(if s.span == (0, 0) then [] else [Doing(s, e)], Falls, cs)
    case Assign(_, e) => Run(if s.span == (0, 0) then [] else [Doing(s, e)], Falls, cs)
    case AnnAssign(_, e, _) => Run(if s.span == (0, 0) then [] else [Doing(s, e)], Falls, cs)
    case If(cond, body, elifs, orelse) => RunIf(s.line, cond, body, elifs, ElseOf(orelse), cs)
    case While(cond, body) => RunLoop(s.line, cond.fullSpan, body, cs)
    case ForEach(_, iterable, body) => RunLoop(s.line, (s.span.0, iterable.fullSpan.1), body, cs)
    case For(_, _, _, _, body, header) => RunLoop(s.line, header, body, cs)
    case _ => Run([], Falls, cs)
  }

  function RunIf(line: nat, cond: Expr, body: Block, elifs: seq<Arm>, orelse: Block, cs: seq<bool>): (r: Run)
    ensures |r.rest| <= |cs| && (r.end.Starved? ==> r.rest == [])
    decreases |cs|, BlockSize(body) + ArmsSize(elifs) + BlockSize(orelse), 2
  {
    if cs == [] then Run([], Starved, [])
    else
      After([Chose(cond.fullSpan, line, cs[0])],
        if cs[0] then RunBlock(body, cs[1..])
        else if elifs == [] then RunBlock(orelse, cs[1..])
        else RunIf(elifs[0].cond.line, elifs[0].cond, elifs[0].body, elifs[1..], orelse, cs[1..]))
  }

  function RunLoop(line: nat, text: Span, body: Block, cs: seq<bool>): (r: Run)
    ensures |r.rest| <= |cs| && (r.end.Starved? ==> r.rest == [])
    ensures !r.end.Breaks? && !r.end.Continues?
    decreases |cs|, BlockSize(body), 2
  {
    if cs == [] then Run([], Starved, [])
    else if !cs[0] then Run([Chose(text, line, false)], Falls, cs[1..])
    else
      var r := RunBlock(body, cs[1..]);
      var events := [Chose(text, line, true)] + r.events;
      match r.end
      case Falls => After(events, RunLoop(line, text, body, r.rest))
      case Continues => After(events, RunLoop(line, text, body, r.rest))
      case Breaks => Run(events, Falls, r.rest)
      case _ => Run(events, r.end, r.rest)
  }

  /** The complete control-flow traces of a function body or module. */
  ghost predicate IsTrace(stmts: Block, events: seq<Event>) {
    exists cs :: Completes(RunBlock(stmts, cs), events)
  }

  predicate Completes(r: Run, events: seq<Event>) {
    r.events == events && r.rest == [] && (r.end.Falls? || r.end.Returns?)
  }

  function Choices(events: seq<Event>): seq<bool> {
    if events == [] then []
    else (if events[0].Chose? then [events[0].yes] else []) + Choices(events[1..])
  }

  lemma {:induction false} ChoicesJoin(a: seq<Event>, b: seq<Event>)
    ensures Choices(a + b) == Choices(a) + Choices(b)
    decreases |a|
  {
    if a == [] {
      assert a + b == b;
    } else {
      ChoicesJoin(a[1..], b);
      assert (a + b)[1..] == a[1..] + b;
    }
  }

  /** A run uses its choices in order and reports exactly those it used. */
  lemma {:induction false} BlockChoices(stmts: Block, cs: seq<bool>)
    ensures var r := RunBlock(stmts, cs); Choices(r.events) + r.rest == cs
    decreases |cs|, BlockSize(stmts), 1
  {
    if stmts != [] {
      var r := RunStmt(stmts[0], cs);
      StmtChoices(stmts[0], cs);
      if r.end.Falls? {
        var r2 := RunBlock(stmts[1..], r.rest);
        BlockChoices(stmts[1..], r.rest);
        AfterChoices(r.events, r2, r.rest, cs);
      }
    }
  }

  lemma AfterChoices(events: seq<Event>, r: Run, mid: seq<bool>, cs: seq<bool>)
    requires Choices(events) + mid == cs && Choices(r.events) + r.rest == mid
    ensures Choices(After(events, r).events) + r.rest == cs
  {
    ChoicesJoin(events, r.events);
  }

  lemma {:induction false} StmtChoices(s: Stmt, cs: seq<bool>)
    ensures var r := RunStmt(s, cs); Choices(r.events) + r.rest == cs
    decreases |cs|, StmtSize(s), 0
  {
    match s.kind {
      case If(cond, body, elifs, orelse) => IfChoices(s.line, cond, body, elifs, ElseOf(orelse), cs);
      case While(cond, body) => LoopChoices(s.line, cond.fullSpan, body, cs);
      case ForEach(_, iterable, body) => LoopChoices(s.line, (s.span.0, iterable.fullSpan.1), body, cs);
      case For(_, _, _, _, body, header) => LoopChoices(s.line, header, body, cs);
      case _ =>
    }
  }

  lemma NoChoices()
    ensures Choices([]) == []
  {
  }

  lemma OneChoice(text: Span, line: nat, cs: seq<bool>)
    requires cs != []
    ensures Choices([Chose(text, line, cs[0])]) + cs[1..] == cs
  {
    assert [Chose(text, line, cs[0])][1..] == [];
  }

  lemma {:induction false} IfChoices(line: nat, cond: Expr, body: Block, elifs: seq<Arm>, orelse: Block, cs: seq<bool>)
    ensures var r := RunIf(line, cond, body, elifs, orelse, cs); Choices(r.events) + r.rest == cs
    decreases |cs|, BlockSize(body) + ArmsSize(elifs) + BlockSize(orelse), 2
  {
    hide RunBlock, Choices;
    if cs == [] {
      NoChoices();
    } else {
      OneChoice(cond.fullSpan, line, cs);
      if cs[0] {
        BlockChoices(body, cs[1..]);
        AfterChoices([Chose(cond.fullSpan, line, cs[0])], RunBlock(body, cs[1..]), cs[1..], cs);
      } else if elifs == [] {
        BlockChoices(orelse, cs[1..]);
        AfterChoices([Chose(cond.fullSpan, line, cs[0])], RunBlock(orelse, cs[1..]), cs[1..], cs);
      } else {
        IfChoices(elifs[0].cond.line, elifs[0].cond, elifs[0].body, elifs[1..], orelse, cs[1..]);
        AfterChoices([Chose(cond.fullSpan, line, cs[0])],
                     RunIf(elifs[0].cond.line, elifs[0].cond, elifs[0].body, elifs[1..], orelse, cs[1..]), cs[1..], cs);
      }
    }
  }

  lemma {:induction false} LoopChoices(line: nat, text: Span, body: Block, cs: seq<bool>)
    ensures var r := RunLoop(line, text, body, cs); Choices(r.events) + r.rest == cs
    decreases |cs|, BlockSize(body), 2
  {
    hide RunBlock, Choices;
    NoChoices();
    if cs != [] { OneChoice(text, line, cs); }
    if cs != [] && cs[0] {
      var r := RunBlock(body, cs[1..]);
      BlockChoices(body, cs[1..]);
      AfterChoices([Chose(text, line, true)], r, cs[1..], cs);
      if r.end.Falls? || r.end.Continues? {
        LoopChoices(line, text, body, r.rest);
        AfterChoices([Chose(text, line, true)] + r.events, RunLoop(line, text, body, r.rest), r.rest, cs);
      }
    }
  }

  // ----------------------------------------------------- traces of flat graphs

  function NodeAt(nodes: seq<FlatNode>, id: nat): Option<FlatNode> {
    if nodes == [] then None
    else if nodes[0].id == id then Some(nodes[0])
    else NodeAt(nodes[1..], id)
  }

  function KindAt(nodes: seq<FlatNode>, id: nat): Option<FlatKind> {
    var n := NodeAt(nodes, id);
    if n.Some? then Some(n.value.kind) else None
  }

  /** What taking an edge says: leaving an action reports it, leaving a decision
      reports the guard taken, with the text the guard shows. */
  function EventsOf(node: Option<FlatNode>, guard: Option<Guard>): seq<Event> {
    match node
    case Some(FlatNode(_, FAction(text), line)) => [Did(text, line)]
    case Some(FlatNode(_, FDecision(text), line)) =>
      (match guard
       case Some(Cond(shown)) => [Chose(shown, line, true)]
       case Some(Otherwise) => [Chose(text, line, false)]
       case None => [])
    case _ => []
  }

  function Labels(nodes: seq<FlatNode>, path: seq<FlatEdge>): seq<Event> {
    if path == [] then []
    else EventsOf(NodeAt(nodes, path[0].from), path[0].guard) + Labels(nodes, path[1..])
  }

  lemma {:induction false} LabelsJoin(nodes: seq<FlatNode>, p: seq<FlatEdge>, q: seq<FlatEdge>)
    ensures Labels(nodes, p + q) == Labels(nodes, p) + Labels(nodes, q)
    decreases |p|
  {
    if p == [] {
      assert p + q == q;
    } else {
      LabelsJoin(nodes, p[1..], q);
      assert (p + q)[1..] == p[1..] + q;
    }
  }

  lemma {:induction false} NodeFound(nodes: seq<FlatNode>, n: FlatNode)
    requires Ascending(nodes) && n in nodes
    ensures NodeAt(nodes, n.id) == Some(n) && KindAt(nodes, n.id) == Some(n.kind)
    decreases |nodes|
  {
    if nodes[0] != n {
      var i :| 0 <= i < |nodes| && nodes[i] == n;
      assert nodes[1..][i - 1] == n;
      NodeFound(nodes[1..], n);
    }
  }

  /** A path from `a` to `b` that reports `events`. */
  ghost predicate Performs(g: FlatGraph, a: nat, b: nat, events: seq<Event>) {
    exists path :: IsPath(g.edges, a, b, path) && Labels(g.nodes, path) == events
  }

  lemma PerformsJoin(g: FlatGraph, a: nat, b: nat, c: nat, e1: seq<Event>, e2: seq<Event>)
    requires Performs(g, a, b, e1) && Performs(g, b, c, e2)
    ensures Performs(g, a, c, e1 + e2)
  {
    var p :| IsPath(g.edges, a, b, p) && Labels(g.nodes, p) == e1;
    var q :| IsPath(g.edges, b, c, q) && Labels(g.nodes, q) == e2;
    PathJoin(g.edges, a, b, c, p, q);
    LabelsJoin(g.nodes, p, q);
  }

  lemma PerformsEdge(g: FlatGraph, e: FlatEdge)
    requires e in OutFlat(g.edges, e.from)
    ensures Performs(g, e.from, e.to, EventsOf(NodeAt(g.nodes, e.from), e.guard))
  {
    OutFlatIn(g.edges, e.from);
    assert [e][1..] == [];
    assert IsPath(g.edges, e.to, e.to, []);
    assert IsPath(g.edges, e.from, e.to, [e]);
    assert Labels(g.nodes, [e]) == EventsOf(NodeAt(g.nodes, e.from), e.guard) + Labels(g.nodes, []);
  }

  lemma PerformsNothing(g: FlatGraph, a: nat)
    ensures Performs(g, a, a, [])
  {
    assert IsPath(g.edges, a, a, []) && Labels(g.nodes, []) == [];
  }
}
