/** What the compiler emits for the body of a `def` (src/codegen.rs): the functions the
    in-place `FuncCx` class is proved against, and the meaning-preservation theorem is
    about. */
module Lowering {
  import opened Syntax
  import opened Values
  import opened SlotChoice
  import opened Machine

  /** The counters and the declarations that grow. */
  datatype Supply = Supply(marks: nat, temps: nat, locals: seq<Local>)

  /** The labels a `break` and a `continue` branch to. */
  datatype LoopLabels = LoopLabels(brk: Label, cont: Label)

  datatype Lowered = Rejected | Lowered(code: seq<Instr>, after: Supply)

  function Fresh(s: Supply): Supply { s.(marks := s.marks + 1) }

  function WithScratch(s: Supply): Supply {
    s.(temps := s.temps + 1, locals := s.locals + [Scratch(s.temps)])
  }

  function WithCounter(s: Supply): Supply {
    s.(marks := s.marks + 1, locals := s.locals + [Counter(s.marks)])
  }

  // -------------------------------------------------------------- expressions

  function GetRawName(x: string, env: Env): Raw { if env.Owns(x) then GetRaw(Var(x)) else GlobalRaw(x) }

  function ScalarOp(op: BinOp): MachineOp {
    if op == FloorDiv then FloorDivCall else if op == Mod then FloorModCall else Checked(op)
  }

  /** Raw code for a provable whole number; declined (`None`) when a part is not covered. */
  function ScalarExpr(e: Expr, env: Env): Option<Raw>
    decreases e, 0
  {
    if !InferInt(e, env.typed, env.sigs) then None
    else
      match e.kind
      case Int(n) => if Fits(n) then Some(Const(n)) else None
      case Name(x) => Some(GetRawName(x, env))
      case Unary(_, i) => (match ScalarExpr(i, env) case None => None case Some(x) => Some(INeg(x)))
      case Bin(op, a, b) =>
        (match (ScalarExpr(a, env), ScalarExpr(b, env))
         case (Some(x), Some(y)) => Some(RawOp(ScalarOp(op), x, y))
         case _ => None)
      case Call(f, args) =>
        if ReturnsRaw(f, env.sigs) && |args| == |env.sigs[f].params| then
          (match LowerArgs(args, env.sigs[f].params, env) case None => None case Some(xs) => Some(CallRaw(f, xs)))
        else None
      case _ => None
  }

  /** Arguments as the parameters take them. */
  function LowerArgs(es: seq<Expr>, raws: seq<bool>, env: Env): (r: Option<seq<Arg>>)
    ensures r.Some? ==> |r.value| == |es|
    decreases es, 3
  {
    if es == [] then Some([])
    else
      match (LowerArg(es[0], raws != [] && raws[0], env), LowerArgs(es[1..], if raws == [] then [] else raws[1..], env))
      case (Some(x), Some(xs)) => Some([x] + xs)
      case _ => None
  }

  function LowerArg(e: Expr, raw: bool, env: Env): Option<Arg>
    decreases e, 3
  {
    if !raw then (match ValueExpr(e, env) case None => None case Some(v) => Some(RefArg(v)))
    else
      match ScalarExpr(e, env)
      case Some(sc) => Some(RawArg(sc))
      case None => (match ValueExpr(e, env) case None => None case Some(v) => Some(RawArg(UnboxCall(v))))
  }

  /** A comparison of two raw numbers, when both sides are. */
  function ScalarCmp(op: BinOp, a: Option<Raw>, b: Option<Raw>): Option<Raw> {
    match (a, b)
    case (Some(x), Some(y)) => Some(RawOp(Compare(op), x, y))
    case _ => None
  }

  function ConstBox(n: int): Option<Boxed> {
    if !Fits(n) then None
    else if -0x4000_0000 <= n < 0x4000_0000 then Some(RefI31(n)) else Some(NewInt(n))
  }

  /** Code for an operator on boxed operands. */
  function ValueOp(op: BinOp, x: Boxed, y: Boxed): Boxed {
    if IsCompare(op) then BoolCall(CompareOp(op, x, y)) else PyBinary(op, x, y)
  }

  function CompareOp(op: BinOp, x: Boxed, y: Boxed): Raw {
    if op == Ne then Eqz(PyCompare(Eq, x, y)) else PyCompare(op, x, y)
  }

  /** Boxed code; `None` is a compile error. */
  function ValueExpr(e: Expr, env: Env): Option<Boxed>
    decreases e, 1
  {
    if ConstInt(e).Some? then ConstBox(ConstInt(e).value)
    else
      match e.kind
      case Int(_) => None
      case Bool(b) => Some(BoolConst(b))
      case Name(x) =>
        if x in env.typed then Some(BoxCall(GetRawName(x, env)))
        else if env.Owns(x) then (if x in env.vars then Some(GetRef(Var(x))) else None)
        else if x in env.globals then Some(GlobalRef(x)) else None
      case Unary(Neg, i) => (match ValueExpr(i, env) case None => None case Some(v) => Some(Boxed.PyNeg(v)))
      case Unary(Not, i) => (match CondI32(i, env) case None => None case Some(c) => Some(BoolCall(Eqz(c))))
      case Bin(op, a, b) =>
        (match (ValueExpr(a, env), ValueExpr(b, env))
         case (Some(x), Some(y)) => Some(ValueOp(op, x, y))
         case _ => None)
      case Call(f, args) =>
        if f in env.sigs then
          if |args| != |env.sigs[f].params| then None
          else
            (match LowerArgs(args, env.sigs[f].params, env)
             case None => None
             case Some(xs) => Some(if env.sigs[f].raw then BoxCall(CallRaw(f, xs)) else CallRef(f, xs)))
        else if f == "len" && |args| == 1 then
          (match ValueExpr(args[0], env) case None => None case Some(v) => Some(BoxCall(PyLen(v))))
        else None
      case MethodCall(obj, m, args) =>
        (match (ValueExpr(obj, env), LowerArgs(args, [], env))
         case (Some(l), Some(xs)) =>
           Some(if m == "append" && |args| == 1 && xs[0].RefArg? then ListAppend(l, xs[0].r) else CallRef("." + m, [RefArg(l)] + xs))
         case _ => None)
  }

  /** Raw code that is nonzero exactly when `e` is true. */
  function CondI32(e: Expr, env: Env): Option<Raw>
    decreases e, 3
  {
    match e.kind
    case Bool(b) => Some(Const(Flag(b)))
    case Unary(Not, i) => (match CondI32(i, env) case None => None case Some(c) => Some(Eqz(c)))
    case Bin(op, a, b) =>
      if !IsCompare(op) then CondOf(e, env)
      else if ScalarCmp(op, ScalarExpr(a, env), ScalarExpr(b, env)).Some? then ScalarCmp(op, ScalarExpr(a, env), ScalarExpr(b, env))
      else
        (match (ValueExpr(a, env), ValueExpr(b, env))
         case (Some(x), Some(y)) => Some(CompareOp(op, x, y))
         case _ => None)
    case _ => CondOf(e, env)
  }

  function CondOf(e: Expr, env: Env): Option<Raw>
    decreases e, 2
  {
    match ScalarExpr(e, env)
    case Some(sc) => Some(NonZero(sc))
    case None => (match ValueExpr(e, env) case None => None case Some(v) => Some(Truthy(v)))
  }

  /** The raw number of `e`: direct, constant, or unboxed. */
  function I32Expr(e: Expr, env: Env): Option<Raw> {
    if ScalarExpr(e, env).Some? then ScalarExpr(e, env)
    else if ConstInt(e).Some? then (if Fits(ConstInt(e).value) then Some(Const(ConstInt(e).value)) else None)
    else match ValueExpr(e, env) case None => None case Some(v) => Some(UnboxCall(v))
  }

  /** The raw value stored in a typed slot, given its boxed form. */
  function SlotExpr(e: Expr, value: Boxed, env: Env): Raw {
    match ScalarExpr(e, env) case Some(sc) => sc case None => UnboxCall(value)
  }

  // --------------------------------------------------------------- statements

  function StoreTo(x: string, e: Expr, value: Boxed, env: Env): Instr {
    if x in env.typed then SetRaw(Var(x), SlotExpr(e, value, env)) else SetRef(Var(x), value)
  }

  function LowerAssign(x: string, e: Expr, env: Env, s: Supply): Lowered {
    match ValueExpr(e, env)
    case None => Rejected
    case Some(v) => Lowered([StoreTo(x, e, v, env)], s)
  }

  /** Code that prints arguments in turn, a space between them. */
  function PrintCode(args: seq<Expr>, env: Env): Option<seq<Instr>> {
    if args == [] then Some([WriteChar(Newline)])
    else
      match (ValueExpr(args[0], env), PrintCode(args[1..], env))
      case (Some(v), Some(rest)) => Some((if |args| == 1 then [PrintValue(v)] else [PrintValue(v), WriteChar(Space)]) + rest)
      case _ => None
  }

  /** A call for its effects; nothing else is a statement. */
  function LowerCall(e: Expr, env: Env, s: Supply): Lowered {
    if e.kind.Call? && e.kind.func == "print" then
      (match PrintCode(e.kind.args, env) case None => Rejected case Some(code) => Lowered(code, s))
    else if e.kind.Call? || e.kind.MethodCall? then
      (match ValueExpr(e, env) case None => Rejected case Some(v) => Lowered([Drop(v)], s))
    else Rejected
  }

  function LowerReturn(r: Option<Expr>, env: Env, s: Supply): Lowered {
    match r
    case None => Lowered([ReturnRef(NoneConst)], s)
    case Some(e) =>
      if env.scalar && ScalarExpr(e, env).Some? then Lowered([ReturnRaw(ScalarExpr(e, env).value)], s)
      else
        match ValueExpr(e, env)
        case None => Rejected
        case Some(v) => Lowered([if env.scalar then ReturnRaw(UnboxCall(v)) else ReturnRef(v)], s)
  }

  function LowerBlock(b: Block, env: Env, loops: seq<LoopLabels>, s: Supply): Lowered
    decreases BlockSize(b), 1
  {
    if b == [] then Lowered([], s)
    else
      match LowerStmt(b[0], env, loops, s)
      case Rejected => Rejected
      case Lowered(first, s1) =>
        match LowerBlock(b[1..], env, loops, s1)
        case Rejected => Rejected
        case Lowered(rest, s2) => Lowered(first + rest, s2)
  }

  function LowerStmt(st: Stmt, env: Env, loops: seq<LoopLabels>, s: Supply): Lowered
    decreases StmtSize(st), 0
  {
    match st.kind
    case Assign(x, e) => LowerAssign(x, e, env, s)
    case AnnAssign(x, e, _) => LowerAssign(x, e, env, s)
    case ExprStmt(e) => LowerCall(e, env, s)
    case Return(r) => LowerReturn(r, env, s)
    case If(c, body, elifs, orelse) => LowerIf(c, body, elifs, orelse, env, loops, s)
    case While(c, body) => LowerWhile(c, body, env, loops, s)
    case For(x, start, end, step, body, _) => LowerFor(x, start, end, step, body, env, loops, s)
    case ForEach(x, iterable, body) => LowerForEach(x, iterable, body, env, loops, s)
    case Break => if loops == [] then Rejected else Lowered([Br(loops[|loops| - 1].brk)], s)
    case Continue => if loops == [] then Rejected else Lowered([Br(loops[|loops| - 1].cont)], s)
    case Pass => Lowered([], s)
    case Import => Lowered([], s)
    case Def(_, _, _) => Rejected
  }

  function LowerIf(c: Expr, body: Block, elifs: seq<Arm>, orelse: ElseBlock, env: Env, loops: seq<LoopLabels>, s: Supply): Lowered
    decreases BlockSize(body) + ArmsSize(elifs) + BlockSize(ElseOf(orelse)), 3
  {
    match CondI32(c, env)
    case None => Rejected
    case Some(cond) =>
      match LowerBlock(body, env, loops, s)
      case Rejected => Rejected
      case Lowered(thens, s1) =>
        match LowerElse(elifs, orelse, env, loops, s1)
        case Rejected => Rejected
        case Lowered(elses, s2) => Lowered([Instr.If(cond, thens, elses)], s2)
  }

  /** The else side: an `elif` chain is a nested `if`; nothing when there is no else. */
  function LowerElse(elifs: seq<Arm>, orelse: ElseBlock, env: Env, loops: seq<LoopLabels>, s: Supply): Lowered
    decreases ArmsSize(elifs) + BlockSize(ElseOf(orelse)), 2
  {
    if elifs == [] then LowerBlock(ElseOf(orelse), env, loops, s)
    else LowerIf(elifs[0].cond, elifs[0].body, elifs[1..], orelse, env, loops, s)
  }

  function WhileCode(n: nat, cond: Raw, body: seq<Instr>): seq<Instr> {
    [Block(B(n), [Loop(L(n), [BrIf(B(n), Eqz(cond))] + body + [Br(L(n))])])]
  }

  function LowerWhile(c: Expr, body: Block, env: Env, loops: seq<LoopLabels>, s: Supply): Lowered
    decreases BlockSize(body), 2
  {
    match CondI32(c, env)
    case None => Rejected
    case Some(cond) =>
      match LowerBlock(body, env, loops + [LoopLabels(B(s.marks), L(s.marks))], Fresh(s))
      case Rejected => Rejected
      case Lowered(code, s1) => Lowered(WhileCode(s.marks, cond, code), s1)
  }

  /** A counted loop: the hidden counter is tested, copied to the variable, stepped. */
  function CountedCode(n: nat, first: Raw, done: Raw, setVar: Instr, step: int, body: seq<Instr>): seq<Instr> {
    [SetRaw(Counter(n), first), Block(B(n), [Loop(L(n), PassCode(n, done, setVar, step, body))])]
  }

  function PassCode(n: nat, done: Raw, setVar: Instr, step: int, body: seq<Instr>): seq<Instr> {
    [BrIf(B(n), done), setVar, Block(C(n), body), SetRaw(Counter(n), RawOp(I32Add, GetRaw(Counter(n)), Const(step))), Br(L(n))]
  }

  function StepOf(step: Expr): Option<int> {
    match ConstInt(step)
    case Some(n) => if n == 0 || !Fits(n) then None else Some(n)
    case None => None
  }

  function SetCounted(x: string, n: nat, env: Env): Instr {
    if x in env.typed then SetRaw(Var(x), GetRaw(Counter(n))) else SetRef(Var(x), BoxCall(GetRaw(Counter(n))))
  }

  function AtEnd(n: nat, step: int, end: Raw): Raw { RawOp(Compare(if step > 0 then Ge else Le), GetRaw(Counter(n)), end) }

  /** A bound that is not a constant is snapshotted before the loop, ahead of the start. */
  function LowerFor(x: string, start: Expr, end: Expr, step: Expr, body: Block, env: Env, loops: seq<LoopLabels>, s: Supply): Lowered
    decreases BlockSize(body), 2
  {
    match (StepOf(step), I32Expr(start, env), I32Expr(end, env))
    case (Some(stride), Some(first), Some(last)) =>
      var fixed := ConstInt(end).Some?;
      var s0 := if fixed then s else WithScratch(s);
      var n := s0.marks;
      var until := if fixed then last else GetRaw(Scratch(s.temps));
      (match LowerBlock(body, env, loops + [LoopLabels(B(n), C(n))], WithCounter(s0))
       case Rejected => Rejected
       case Lowered(code, s1) =>
         Lowered((if fixed then [] else [SetRaw(Scratch(s.temps), last)])
                 + CountedCode(n, first, AtEnd(n, stride, until), SetCounted(x, n, env), stride, code), s1))
    case _ => Rejected
  }

  function SetItem(x: string, n: nat, t: nat): Instr {
    SetRef(Var(x), PyIndex(GetRef(Scratch(t)), GetRaw(Counter(n))))
  }

  function LowerForEach(x: string, iterable: Expr, body: Block, env: Env, loops: seq<LoopLabels>, s: Supply): Lowered
    decreases BlockSize(body), 2
  {
    match ValueExpr(iterable, env)
    case None => Rejected
    case Some(it) =>
      var n, t := s.marks, s.temps;
      var s0 := WithCounter(WithScratch(s));
      match LowerBlock(body, env, loops + [LoopLabels(B(n), C(n))], s0)
      case Rejected => Rejected
      case Lowered(code, s1) =>
        Lowered([SetRef(Scratch(t), it)]
                + CountedCode(n, Const(0), RawOp(Compare(Ge), GetRaw(Counter(n)), PyIterLen(GetRef(Scratch(t)))), SetItem(x, n, t), 1, code), s1)
  }
}
