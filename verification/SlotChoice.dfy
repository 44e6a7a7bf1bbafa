/** What is known about names and expressions before code is emitted: which names hold whole
    numbers (src/repr.rs), and which expressions are computed unboxed (src/codegen.rs). */
module SlotChoice {
  import opened Syntax
  import opened Values

  /** How a function is called: which parameters arrive as raw numbers, and whether the
      result is one. */
  datatype Sig = Sig(params: seq<bool>, raw: bool)

  /** What stays fixed while one body is compiled: its own names, the module's, the names
      taken to hold whole numbers, those of them kept in raw slots, the functions that can
      be called, and whether the result is raw.  At the top level the module's names are
      the body's own. */
  datatype Env = Env(top: bool, vars: set<string>, globals: set<string>, ints: set<string>, typed: set<string>,
                     sigs: map<string, Sig>, scalar: bool) {
    predicate Owns(x: string) { top || x in vars }
  }

  /** The value of a literal, possibly negated. */
  function ConstInt(e: Expr): Option<int> {
    match e.kind
    case Int(n) => Some(n)
    case Unary(Neg, i) => (match ConstInt(i) case Some(v) => Some(-v) case None => None)
    case _ => None
  }

  predicate IsCompare(op: BinOp) { op in {Lt, Le, Gt, Ge, Eq, Ne} }

  predicate ReturnsRaw(f: string, sigs: map<string, Sig>) { f in sigs && sigs[f].raw }

  /** The inference's verdict "whole number", given the names known to be whole numbers.
      `len` counts as one whatever the program makes of the name. */
  predicate InferInt(e: Expr, ints: set<string>, sigs: map<string, Sig>) {
    match e.kind
    case Int(_) => true
    case Name(x) => x in ints
    case Unary(Neg, i) => InferInt(i, ints, sigs)
    case Bin(op, a, b) => !IsCompare(op) && InferInt(a, ints, sigs) && InferInt(b, ints, sigs)
    case Call(f, _) => f == "len" || ReturnsRaw(f, sigs)
    case _ => false
  }

  /** Whether the unboxed emitter covers an expression. */
  predicate Scalar(e: Expr, env: Env) {
    InferInt(e, env.typed, env.sigs) &&
    match e.kind
    case Int(n) => Fits(n)
    case Name(_) => true
    case Unary(_, i) => Scalar(i, env)
    case Bin(_, a, b) => Scalar(a, env) && Scalar(b, env)
    case Call(f, args) => ReturnsRaw(f, env.sigs) && |args| == |env.sigs[f].params|
    case _ => false
  }

  /** Whether the `i`-th argument of a call of `f` is passed raw. */
  function RawParams(f: string, sigs: map<string, Sig>): seq<bool> { if f in sigs then sigs[f].params else [] }

  /** The names a body assigns; in a function they are its locals. */
  function Assigned(b: Block): set<string>
    decreases BlockSize(b), 1
  {
    if b == [] then {} else AssignedBy(b[0]) + Assigned(b[1..])
  }

  function AssignedBy(s: Stmt): set<string>
    decreases StmtSize(s), 0
  {
    match s.kind
    case Assign(x, _) => {x}
    case AnnAssign(x, _, _) => {x}
    case For(x, _, _, _, body, _) => {x} + Assigned(body)
    case ForEach(x, _, body) => {x} + Assigned(body)
    case While(_, body) => Assigned(body)
    case If(_, body, elifs, orelse) => Assigned(body) + AssignedInArms(elifs) + Assigned(ElseOf(orelse))
    case _ => {}
  }

  function AssignedInArms(elifs: seq<Arm>): set<string>
    decreases ArmsSize(elifs), 1
  {
    if elifs == [] then {} else Assigned(elifs[0].body) + AssignedInArms(elifs[1..])
  }
}
