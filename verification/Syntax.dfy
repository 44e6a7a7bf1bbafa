/** The typed AST of the Python subset (src/ast.rs): the statement and expression
    forms the other modules build diagrams from, analyse, run and compile. */
module Syntax {
  datatype Option<+T> = None | Some(value: T)

  /** Byte range `[start, end)` in the source; `(0, 0)` means "no source text". */
  type Span = (nat, nat)

  datatype UnOp = Neg | Not

  datatype BinOp = Add | Sub | Mul | FloorDiv | Mod | Lt | Le | Gt | Ge | Eq | Ne

  datatype Expr = Expr(kind: ExprKind, line: nat, span: Span, fullSpan: Span)

  datatype ExprKind =
    | Int(n: nat)
    | Bool(b: bool)
    | Name(name: string)
    | Unary(op: UnOp, operand: Expr)
    | Bin(bop: BinOp, left: Expr, right: Expr)
    | Call(func: string, args: seq<Expr>)
    | MethodCall(obj: Expr, meth: string, margs: seq<Expr>)

  datatype Stmt = Stmt(kind: StmtKind, line: nat, span: Span)

  type Block = seq<Stmt>

  /** One `elif` arm. */
  datatype Arm = Arm(cond: Expr, body: Block)

  datatype ElseBlock = NoElse | Else(block: Block)

  datatype StmtKind =
    | ExprStmt(expr: Expr)
    | Assign(target: string, value: Expr)
    | AnnAssign(target: string, value: Expr, isInt: bool)
    | If(cond: Expr, body: Block, elifs: seq<Arm>, orelse: ElseBlock)
    | For(loopVar: string, start: Expr, end: Expr, step: Expr, body: Block, header: Span)
    | ForEach(loopVar: string, iterable: Expr, body: Block)
    | While(cond: Expr, body: Block)
    | Break
    | Continue
    | Pass
    | Return(result: Option<Expr>)
    | Def(name: string, params: seq<string>, defBody: Block)
    | Import

  /** A parameter; `isInt` when it is annotated `int`. */
  datatype Param = Param(name: string, isInt: bool)

  /** The statements of an `else`, none when it is missing. */
  function ElseOf(orelse: ElseBlock): Block {
    if orelse.Else? then orelse.block else []
  }

  /** Sizes, the termination measure of every recursion over statements. */
  function StmtSize(s: Stmt): (n: nat)
    ensures n >= 1
  {
    match s.kind
    case If(_, body, elifs, orelse) =>
      1 + BlockSize(body) + ArmsSize(elifs) + (if orelse.Else? then BlockSize(orelse.block) else 0)
    case For(_, _, _, _, body, _) => 1 + BlockSize(body)
    case ForEach(_, _, body) => 1 + BlockSize(body)
    case While(_, body) => 1 + BlockSize(body)
    case Def(_, _, body) => 1 + BlockSize(body)
    case _ => 1
  }

  function BlockSize(b: Block): nat {
    if b == [] then 0 else StmtSize(b[0]) + BlockSize(b[1..])
  }

  function ArmsSize(arms: seq<Arm>): nat {
    if arms == [] then 0 else 1 + BlockSize(arms[0].body) + ArmsSize(arms[1..])
  }

  /** A statement or expression of no particular place in the source. */
  function AsStmt(kind: StmtKind): Stmt { Stmt(kind, 1, (0, 0)) }

  function AsExpr(kind: ExprKind): Expr { Expr(kind, 1, (0, 0), (0, 0)) }

  /** Every `break` and `continue` sits inside a loop of this function, as Python's
      grammar demands (`def` bodies are judged on their own). */
  predicate JumpsBound(b: Block, inLoop: bool) decreases BlockSize(b), 1 {
    b == [] || (StmtJumpsBound(b[0], inLoop) && JumpsBound(b[1..], inLoop))
  }

  predicate StmtJumpsBound(s: Stmt, inLoop: bool) decreases StmtSize(s), 0 {
    match s.kind
    case Break => inLoop
    case Continue => inLoop
    case If(_, body, elifs, orelse) =>
      JumpsBound(body, inLoop) && ArmsJumpsBound(elifs, inLoop) && JumpsBound(ElseOf(orelse), inLoop)
    case For(_, _, _, _, body, _) => JumpsBound(body, true)
    case ForEach(_, _, body) => JumpsBound(body, true)
    case While(_, body) => JumpsBound(body, true)
    case _ => true
  }

  predicate ArmsJumpsBound(arms: seq<Arm>, inLoop: bool) decreases ArmsSize(arms), 1 {
    arms == [] || (JumpsBound(arms[0].body, inLoop) && ArmsJumpsBound(arms[1..], inLoop))
  }
}
