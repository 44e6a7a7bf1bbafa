/** Pass 1 of the activity diagrams (src/activity.rs): statements become a nested
    `Activity` whose jumps stay symbolic.  These are the functions the
    in-place `Builder` class is proved against. */
module ActivityBuild {
  import opened Syntax

  type NodeId = nat

  datatype Activity = Activity(nodes: seq<Node>, edges: seq<ControlFlow>, initial: NodeId, exit: NodeId)

  datatype Node = Node(id: NodeId, kind: ActivityNode, line: nat)

  datatype ActivityNode =
    | Initial
    | ActivityFinal
    | Action(text: Span)
    | Decision(text: Span)
    | Merge
    | Structured(stereotype: Stereotype, setup: Option<LoopSetup>, body: Activity)

  datatype Stereotype = Loop | Conditional

  datatype LoopSetup = LoopSetup(loopVar: string, start: Span, end: Span, step: Span)

  datatype ControlFlow = ControlFlow(from: NodeId, to: Target, guard: Option<Guard>)

  /** Jumps keep their intent; flattening resolves them. */
  datatype Target = Local(id: NodeId) | LoopExit | LoopBack | Return

  datatype Guard = Cond(text: Span) | Otherwise

  /** How a sequence of statements ends. */
  datatype BlockOutcome =
    | Empty
    | Flows(entry: NodeId, tail: NodeId)
    | Diverts(first: Option<NodeId>, target: Target)
  {
    function Entry(): Option<Target> {
      match this
      case Empty => None
      case Flows(entry, _) => Some(Local(entry))
      case Diverts(Some(entry), _) => Some(Local(entry))
      case Diverts(None, target) => Some(target)
    }
  }

  /** A graph under construction. */
  datatype Graph = Graph(nodes: seq<Node>, edges: seq<ControlFlow>)

  type Chain = Option<(NodeId, NodeId)>

  // ---------------------------------------------------------------- labels

  /** The statement's text up to the end of its value. */
  function ActionSpan(s: Stmt): Span {
    var value := match s.kind
      case ExprStmt(e) => e.fullSpan
      case Assign(_, e) => e.fullSpan
      case AnnAssign(_, e, _) => e.fullSpan
      case Return(Some(e)) => e.fullSpan
      case _ => (0, 0);
    if value == (0, 0) then s.span else (s.span.0, value.1)
  }

  function JumpOf(s: Stmt): Option<Target> {
    match s.kind
    case Break => Some(LoopExit)
    case Continue => Some(LoopBack)
    case Return(_) => Some(Target.Return)
    case _ => None
  }

  predicate IsAction(s: Stmt) {
    match s.kind
    case ExprStmt(_) => s.span != (0, 0)
    case Assign(_, _) => s.span != (0, 0)
    case AnnAssign(_, _, _) => s.span != (0, 0)
    case Return(r) => r.Some?
    case _ => false
  }

  predicate IsLoop(s: Stmt) {
    s.kind.While? || s.kind.ForEach? || s.kind.For?
  }

  /** Whether the statement contributes a node to the block it stands in. */
  predicate Drawn(s: Stmt) {
    IsAction(s) || s.kind.If? || IsLoop(s)
  }

  function LoopLabel(s: Stmt): Span requires IsLoop(s) {
    match s.kind
    case While(cond, _) => cond.fullSpan
    case ForEach(_, iterable, _) => (s.span.0, iterable.fullSpan.1)
    case For(_, _, _, _, _, header) => header
  }

  function SetupOf(s: Stmt): Option<LoopSetup> {
    match s.kind
    case For(v, start, end, step, _, _) => Some(LoopSetup(v, start.span, end.span, step.span))
    case _ => None
  }

  // ------------------------------------------------- what the Builder computes

  function Push(g: Graph, kind: ActivityNode, line: nat): Graph {
    g.(nodes := g.nodes + [Node(|g.nodes|, kind, line)])
  }

  function Connect(g: Graph, from: NodeId, to: Target, guard: Option<Guard>): Graph {
    g.(edges := g.edges + [ControlFlow(from, to, guard)])
  }

  function Extend(g: Graph, chain: Chain, placed: Chain): (Graph, Chain) {
    match placed
    case None => (g, chain)
    case Some((entry, tail)) =>
      match chain
      case None => (g, placed)
      case Some((first, prev)) => (Connect(g, prev, Local(entry), None), Some((first, tail)))
  }

  function BuildBlock(g: Graph, chain: Chain, stmts: Block): (Graph, BlockOutcome)
    decreases BlockSize(stmts), 2
  {
    if stmts == [] then
      (g, match chain case None => Empty case Some((entry, tail)) => Flows(entry, tail))
    else
      var (g1, placed) := BuildStmt(g, stmts[0]);
      var (g2, chain2) := Extend(g1, chain, placed);
      match JumpOf(stmts[0])
      case None => BuildBlock(g2, chain2, stmts[1..])
      case Some(target) =>
        match chain2
        case None => (g2, Diverts(None, target))
        case Some((first, tail)) => (Connect(g2, tail, target, None), Diverts(Some(first), target))
  }

  function BuildStmt(g: Graph, s: Stmt): (Graph, Chain)
    decreases StmtSize(s), 1
  {
    if !Drawn(s) then (g, None) else
      (Push(g, NodeFor(s), s.line), Some((|g.nodes|, |g.nodes|)))
  }

  /** The one node a drawn statement becomes. */
  function NodeFor(s: Stmt): ActivityNode
    requires Drawn(s)
    decreases StmtSize(s), 0
  {
    match s.kind
    case If(cond, body, elifs, orelse) =>
      Structured(Conditional, None, BuildIf(s.line, cond, body, elifs, orelse))
    case While(_, body) => Structured(Loop, None, BuildLoop(s.line, LoopLabel(s), body))
    case ForEach(_, _, body) => Structured(Loop, None, BuildLoop(s.line, LoopLabel(s), body))
    case For(_, _, _, _, body, _) => Structured(Loop, SetupOf(s), BuildLoop(s.line, LoopLabel(s), body))
    case _ => Action(ActionSpan(s))
  }

  function EntryOr(o: BlockOutcome, otherwise: Target): Target {
    match o.Entry() case Some(t) => t case None => otherwise
  }

  /** The edge a block that falls through owes to whatever comes next. */
  function Close(g: Graph, o: BlockOutcome, next: Target): Graph {
    if o.Flows? then Connect(g, o.tail, next, None) else g
  }

  function TwoNodes(kind: ActivityNode, line: nat): Graph {
    Graph([Node(0, kind, line), Node(1, Merge, line)], [])
  }

  function BuildLoop(line: nat, text: Span, body: Block): Activity
    decreases BlockSize(body), 3
  {
    var (g, o) := BuildBlock(TwoNodes(Decision(text), line), None, body);
    var g1 := Connect(g, 0, EntryOr(o, Local(0)), Some(Cond(text)));
    var g2 := Connect(Close(g1, o, Local(0)), 0, Local(1), Some(Otherwise));
    Activity(g2.nodes, g2.edges, 0, 1)
  }

  function WireBranch(g: Graph, from: NodeId, guard: Guard, stmts: Block, join: NodeId): Graph
    decreases BlockSize(stmts), 3
  {
    var (g1, o) := BuildBlock(g, None, stmts);
    Close(Connect(g1, from, EntryOr(o, Local(join)), Some(guard)), o, Local(join))
  }

  function BuildElifs(g: Graph, last: NodeId, elifs: seq<Arm>, join: NodeId): (Graph, NodeId)
    decreases ArmsSize(elifs), 4
  {
    if elifs == [] then (g, last) else
      var d := |g.nodes|;
      var text := elifs[0].cond.fullSpan;
      var g1 := Connect(Push(g, Decision(text), elifs[0].cond.line), last, Local(d), Some(Otherwise));
      BuildElifs(WireBranch(g1, d, Cond(text), elifs[0].body, join), d, elifs[1..], join)
  }

  function BuildIf(line: nat, cond: Expr, body: Block, elifs: seq<Arm>, orelse: ElseBlock): Activity
    decreases BlockSize(body) + ArmsSize(elifs) + BlockSize(ElseOf(orelse)), 5
  {
    var g1 := WireBranch(TwoNodes(Decision(cond.fullSpan), line), 0, Cond(cond.fullSpan), body, 1);
    var (g2, last) := BuildElifs(g1, 0, elifs, 1);
    var g3 := WireBranch(g2, last, Otherwise, ElseOf(orelse), 1);
    Activity(g3.nodes, g3.edges, 0, 1)
  }

  function Build(stmts: Block): Activity {
    var (g, o) := BuildBlock(Graph([Node(0, Initial, 0), Node(1, ActivityFinal, 0)], []), None, stmts);
    var g1 := Close(Connect(g, 0, EntryOr(o, Local(1)), None), o, Local(1));
    Activity(g1.nodes, g1.edges, 0, 1)
  }
}
