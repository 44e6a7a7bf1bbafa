/** Which functions compile, said about their text: the function compiles if and only if
    every name it reads is known, every number fits, calls have the right number of
    arguments, jumps are inside loops and range steps are nonzero constants. */
module Compilable {
  import opened Syntax
  import opened Values
  import opened SlotChoice
  import opened SlotInference
  import opened Machine
  import opened Lowering
  import opened CompiledFunction
  import DefiniteAssignment
  import TopLevel

  // ------------------------------------------------------- the text's demands

  /** Some statement of `b`, at any depth but not in a nested `def`, binds `x`. */
  predicate Binds(b: Block, x: string)
    decreases BlockSize(b), 1
  {
    b != [] && (StmtBinds(b[0], x) || Binds(b[1..], x))
  }

  predicate StmtBinds(s: Stmt, x: string)
    decreases StmtSize(s), 0
  {
    match s.kind
    case Assign(y, _) => y == x
    case AnnAssign(y, _, _) => y == x
    case For(y, _, _, _, body, _) => y == x || Binds(body, x)
    case ForEach(y, _, body) => y == x || Binds(body, x)
    case While(_, body) => Binds(body, x)
    case If(_, body, elifs, orelse) => Binds(body, x) || ArmsBind(elifs, x) || Binds(ElseOf(orelse), x)
    case _ => false
  }

  predicate ArmsBind(elifs: seq<Arm>, x: string)
    decreases ArmsSize(elifs), 1
  {
    elifs != [] && (Binds(elifs[0].body, x) || ArmsBind(elifs[1..], x))
  }

  /** A name the function may read: a parameter, a name it binds, or one of the module's. */
  predicate Named(f: Source, x: string) {
    (exists p :: p in f.params && p.name == x) || Binds(f.body, x) || x in f.globals || x in f.rawGlobals
  }

  /** A literal behind minus signs: what is under them, and how many there are. */
  function Core(e: Expr): Expr {
    match e.kind
    case Unary(Neg, i) => Core(i)
    case _ => e
  }

  function Minuses(e: Expr): nat {
    match e.kind
    case Unary(Neg, i) => 1 + Minuses(i)
    case _ => 0
  }

  predicate IsLiteral(e: Expr) { Core(e).kind.Int? }

  /** The number fits 32 bits; 2^31 only with a minus sign. */
  predicate LiteralFits(e: Expr) requires IsLiteral(e) {
    Core(e).kind.n <= 0x7FFF_FFFF || (Core(e).kind.n == 0x8000_0000 && Minuses(e) % 2 == 1)
  }

  predicate WellRead(e: Expr, f: Source)
    decreases e, 1
  {
    if IsLiteral(e) then LiteralFits(e)
    else
      match e.kind
      case Int(_) => true
      case Bool(_) => true
      case Name(x) => Named(f, x)
      case Unary(_, i) => WellRead(i, f)
      case Bin(_, a, b) => WellRead(a, f) && WellRead(b, f)
      case Call(g, args) =>
        && AllWellRead(args, f)
        && |args| == (if g in f.sigs then |f.sigs[g].params| else 1)
        && (g in f.sigs || g == "len")
      case MethodCall(obj, _, args) => WellRead(obj, f) && AllWellRead(args, f)
  }

  predicate AllWellRead(es: seq<Expr>, f: Source)
    decreases es, 2
  {
    es == [] || (WellRead(es[0], f) && AllWellRead(es[1..], f))
  }

  /** `print` takes any number of arguments; other calls are values that are dropped. */
  predicate StatementCall(e: Expr, f: Source) {
    if e.kind.Call? && e.kind.func == "print" then AllWellRead(e.kind.args, f)
    else (e.kind.Call? || e.kind.MethodCall?) && WellRead(e, f)
  }

  predicate WellFormedBlock(b: Block, inLoop: bool, f: Source)
    decreases BlockSize(b), 1
  {
    b == [] || (WellFormedStmt(b[0], inLoop, f) && WellFormedBlock(b[1..], inLoop, f))
  }

  predicate WellFormedStmt(s: Stmt, inLoop: bool, f: Source)
    decreases StmtSize(s), 0
  {
    match s.kind
    case ExprStmt(e) => StatementCall(e, f)
    case Assign(_, e) => WellRead(e, f)
    case AnnAssign(_, e, _) => WellRead(e, f)
    case Return(r) => r.Some? ==> WellRead(r.value, f)
    case If(c, body, elifs, orelse) =>
      && WellRead(c, f) && WellFormedBlock(body, inLoop, f)
      && WellFormedArms(elifs, inLoop, f) && WellFormedBlock(ElseOf(orelse), inLoop, f)
    case While(c, body) => WellRead(c, f) && WellFormedBlock(body, true, f)
    case For(_, start, end, step, body, _) =>
      && WellRead(start, f) && WellRead(end, f)
      && IsLiteral(step) && LiteralFits(step) && Core(step).kind.n != 0
      && WellFormedBlock(body, true, f)
    case ForEach(_, iterable, body) => WellRead(iterable, f) && WellFormedBlock(body, true, f)
    case Break => inLoop
    case Continue => inLoop
    case Pass => true
    case Import => true
    case Def(_, _, _) => false
  }

  predicate WellFormedArms(elifs: seq<Arm>, inLoop: bool, f: Source)
    decreases ArmsSize(elifs), 1
  {
    elifs == [] ||
    (WellRead(elifs[0].cond, f) && WellFormedBlock(elifs[0].body, inLoop, f) && WellFormedArms(elifs[1..], inLoop, f))
  }

  // -------------------------------------------------------------- what is emitted

  /** An environment that reads the names of `f` and calls its functions. */
  ghost predicate ReadsNames(env: Env, f: Source) {
    && env.sigs == f.sigs
    && forall x :: (x in env.typed || (if env.Owns(x) then x in env.vars else x in env.globals)) <==> Named(f, x)
  }

  lemma {:induction false} LiteralValue(e: Expr)
    ensures ConstInt(e).Some? <==> IsLiteral(e)
    ensures IsLiteral(e) ==> ConstInt(e).value == (if Minuses(e) % 2 == 1 then -1 else 1) * Core(e).kind.n
    decreases e
  {
    match e.kind {
      case Unary(Neg, i) => LiteralValue(i);
      case _ =>
    }
  }

  lemma LiteralFitting(e: Expr)
    requires IsLiteral(e)
    ensures ConstInt(e).Some? && (Fits(ConstInt(e).value) <==> LiteralFits(e))
  {
    LiteralValue(e);
  }

  /** A raw number can always be had as a boxed one. */
  lemma {:induction false} RawThenBoxed(e: Expr, env: Env, f: Source)
    requires ReadsNames(env, f) && ScalarExpr(e, env).Some?
    ensures WellRead(e, f)
    decreases e, 0
  {
    hide ReadsNames, ValueExpr, CondI32, CondOf;
    if IsLiteral(e) {
      RawLiteral(e, env);
    } else {
      match e.kind {
        case Name(x) => assert Named(f, x) by { InTyped(env, f, x); }
        case Unary(_, i) => RawThenBoxed(i, env, f);
        case Bin(_, a, b) =>
          RawThenBoxed(a, env, f);
          RawThenBoxed(b, env, f);
        case Call(g, args) =>
          SameSigs(env, f);
          ArgsExactly(args, env.sigs[g].params, env, f);
        case _ =>
      }
    }
  }

  lemma InTyped(env: Env, f: Source, x: string)
    requires ReadsNames(env, f) && x in env.typed
    ensures Named(f, x)
  {
  }

  lemma SameSigs(env: Env, f: Source)
    requires ReadsNames(env, f)
    ensures env.sigs == f.sigs
  {
  }

  lemma {:induction false} RawLiteral(e: Expr, env: Env)
    requires IsLiteral(e) && ScalarExpr(e, env).Some?
    ensures Core(e).kind.n <= 0x7FFF_FFFF
    decreases e
  {
    match e.kind {
      case Unary(Neg, i) => RawLiteral(i, env);
      case _ =>
    }
  }

  lemma {:induction false} ArgsExactly(es: seq<Expr>, raws: seq<bool>, env: Env, f: Source)
    requires ReadsNames(env, f)
    ensures LowerArgs(es, raws, env).Some? <==> AllWellRead(es, f)
    decreases es, 3
  {
    if es != [] {
      hide ReadsNames, ValueExpr, ScalarExpr, WellRead;
      var raw := raws != [] && raws[0];
      ValueExactly(es[0], env, f);
      if raw && ScalarExpr(es[0], env).Some? { RawThenBoxed(es[0], env, f); }
      ArgsExactly(es[1..], if raws == [] then [] else raws[1..], env, f);
    }
  }

  /** Boxed code exists exactly if the expression is well read. */
  lemma {:induction false} ValueExactly(e: Expr, env: Env, f: Source)
    requires ReadsNames(env, f)
    ensures ValueExpr(e, env).Some? <==> WellRead(e, f)
    decreases e, 2
  {
    hide ScalarExpr, LowerArgs, CondI32, CondOf;
    LiteralValue(e);
    if IsLiteral(e) {
      LiteralFitting(e);
    } else {
      match e.kind {
        case Unary(Neg, i) => ValueExactly(i, env, f);
        case Unary(Not, i) => CondExactly(i, env, f);
        case Bin(_, a, b) =>
          ValueExactly(a, env, f);
          ValueExactly(b, env, f);
        case Call(g, args) =>
          if g in env.sigs {
            ArgsExactly(args, env.sigs[g].params, env, f);
          } else if |args| == 1 {
            ValueExactly(args[0], env, f);
            assert AllWellRead(args[1..], f);
          }
        case MethodCall(obj, _, args) =>
          ValueExactly(obj, env, f);
          ArgsExactly(args, [], env, f);
        case _ =>
      }
    }
  }

  lemma {:induction false} CondExactly(e: Expr, env: Env, f: Source)
    requires ReadsNames(env, f)
    ensures CondI32(e, env).Some? <==> WellRead(e, f)
    decreases e, 4
  {
    hide ScalarExpr, ValueExpr, ReadsNames;
    match e.kind {
      case Unary(Not, i) => CondExactly(i, env, f);
      case Bin(op, a, b) =>
        if IsCompare(op) {
          ValueExactly(a, env, f);
          ValueExactly(b, env, f);
          if ScalarExpr(a, env).Some? { RawThenBoxed(a, env, f); }
          if ScalarExpr(b, env).Some? { RawThenBoxed(b, env, f); }
        } else {
          TruthExactly(e, env, f);
        }
      case Bool(_) =>
      case _ => TruthExactly(e, env, f);
    }
  }

  lemma {:induction false} TruthExactly(e: Expr, env: Env, f: Source)
    requires ReadsNames(env, f)
    ensures CondOf(e, env).Some? <==> WellRead(e, f)
    decreases e, 3
  {
    hide ScalarExpr, ValueExpr, ReadsNames, WellRead;
    ValueExactly(e, env, f);
    if ScalarExpr(e, env).Some? { RawThenBoxed(e, env, f); }
  }

  lemma BoundExactly(e: Expr, env: Env, f: Source)
    requires ReadsNames(env, f)
    ensures I32Expr(e, env).Some? <==> WellRead(e, f)
  {
    hide ScalarExpr, ReadsNames;
    ValueExactly(e, env, f);
    LiteralValue(e);
    if ScalarExpr(e, env).Some? {
      RawThenBoxed(e, env, f);
    } else if IsLiteral(e) {
      LiteralFitting(e);
    }
  }

  lemma {:induction false} PrintExactly(args: seq<Expr>, env: Env, f: Source)
    requires ReadsNames(env, f)
    ensures PrintCode(args, env).Some? <==> AllWellRead(args, f)
    decreases |args|
  {
    if args != [] {
      hide ValueExpr, WellRead, ReadsNames;
      ValueExactly(args[0], env, f);
      PrintExactly(args[1..], env, f);
    }
  }

  lemma {:induction false} BlockExactly(b: Block, env: Env, loops: seq<LoopLabels>, s: Supply, f: Source)
    requires ReadsNames(env, f)
    ensures LowerBlock(b, env, loops, s).Lowered? <==> WellFormedBlock(b, loops != [], f)
    decreases BlockSize(b), 1
  {
    if b != [] {
      hide ReadsNames, LowerStmt, WellFormedStmt;
      StmtExactly(b[0], env, loops, s, f);
      var first := LowerStmt(b[0], env, loops, s);
      if first.Lowered? { BlockExactly(b[1..], env, loops, first.after, f); }
    }
  }

  lemma {:induction false} StmtExactly(st: Stmt, env: Env, loops: seq<LoopLabels>, s: Supply, f: Source)
    requires ReadsNames(env, f)
    ensures LowerStmt(st, env, loops, s).Lowered? <==> WellFormedStmt(st, loops != [], f)
    decreases StmtSize(st), 0
  {
    hide ReadsNames, ValueExpr, ScalarExpr, CondI32, I32Expr, WellRead, LowerBlock, WellFormedBlock, StepOf;
    match st.kind {
      case Assign(_, e) => ValueExactly(e, env, f);
      case AnnAssign(_, e, _) => ValueExactly(e, env, f);
      case ExprStmt(e) => CallExactly(e, env, s, f);
      case Return(r) =>
        if r.Some? {
          ValueExactly(r.value, env, f);
          if ScalarExpr(r.value, env).Some? { RawThenBoxed(r.value, env, f); }
        }
      case If(c, body, elifs, orelse) => IfExactly(c, body, elifs, orelse, env, loops, s, f);
      case While(c, body) =>
        CondExactly(c, env, f);
        BlockExactly(body, env, loops + [LoopLabels(B(s.marks), L(s.marks))], Fresh(s), f);
      case For(_, start, end, step, body, _) =>
        StepExactly(step);
        BoundExactly(start, env, f);
        BoundExactly(end, env, f);
        var s0 := if ConstInt(end).Some? then s else WithScratch(s);
        BlockExactly(body, env, loops + [LoopLabels(B(s0.marks), C(s0.marks))], WithCounter(s0), f);
      case ForEach(_, iterable, body) =>
        ValueExactly(iterable, env, f);
        BlockExactly(body, env, loops + [LoopLabels(B(s.marks), C(s.marks))], WithCounter(WithScratch(s)), f);
      case _ =>
    }
  }

  lemma CallExactly(e: Expr, env: Env, s: Supply, f: Source)
    requires ReadsNames(env, f)
    ensures LowerCall(e, env, s).Lowered? <==> StatementCall(e, f)
  {
    hide ReadsNames, ValueExpr, WellRead;
    if e.kind.Call? && e.kind.func == "print" {
      PrintExactly(e.kind.args, env, f);
    } else {
      ValueExactly(e, env, f);
    }
  }

  /** A range step is a nonzero constant of 32 bits. */
  lemma StepExactly(step: Expr)
    ensures StepOf(step).Some? <==> IsLiteral(step) && LiteralFits(step) && Core(step).kind.n != 0
    ensures StepOf(step).Some? ==> (StepOf(step).value > 0 <==> Minuses(step) % 2 == 0)
  {
    LiteralValue(step);
    if IsLiteral(step) { LiteralFitting(step); }
  }

  lemma {:induction false} IfExactly(c: Expr, body: Block, elifs: seq<Arm>, orelse: ElseBlock, env: Env, loops: seq<LoopLabels>,
                                     s: Supply, f: Source)
    requires ReadsNames(env, f)
    ensures LowerIf(c, body, elifs, orelse, env, loops, s).Lowered? <==>
              && WellRead(c, f) && WellFormedBlock(body, loops != [], f)
              && WellFormedArms(elifs, loops != [], f) && WellFormedBlock(ElseOf(orelse), loops != [], f)
    decreases BlockSize(body) + ArmsSize(elifs) + BlockSize(ElseOf(orelse)), 2
  {
    hide ReadsNames, CondI32, WellRead, LowerBlock, WellFormedBlock;
    CondExactly(c, env, f);
    BlockExactly(body, env, loops, s, f);
    var thens := LowerBlock(body, env, loops, s);
    if thens.Lowered? {
      if elifs == [] {
        BlockExactly(ElseOf(orelse), env, loops, thens.after, f);
      } else {
        IfExactly(elifs[0].cond, elifs[0].body, elifs[1..], orelse, env, loops, thens.after, f);
      }
    }
  }

  // ------------------------------------------------------------ whole functions

  lemma {:induction false} AssignedExactly(b: Block, x: string)
    ensures x in Assigned(b) <==> Binds(b, x)
    decreases BlockSize(b), 1
  {
    if b != [] {
      hide AssignedBy, StmtBinds;
      AssignedByExactly(b[0], x);
      AssignedExactly(b[1..], x);
    }
  }

  lemma {:induction false} AssignedByExactly(s: Stmt, x: string)
    ensures x in AssignedBy(s) <==> StmtBinds(s, x)
    decreases StmtSize(s), 0
  {
    hide Assigned, Binds, AssignedInArms, ArmsBind;
    match s.kind {
      case For(_, _, _, _, body, _) => AssignedExactly(body, x);
      case ForEach(_, _, body) => AssignedExactly(body, x);
      case While(_, body) => AssignedExactly(body, x);
      case If(_, body, elifs, orelse) =>
        AssignedExactly(body, x);
        ArmsExactly(elifs, x);
        AssignedExactly(ElseOf(orelse), x);
      case _ =>
    }
  }

  lemma {:induction false} ArmsExactly(elifs: seq<Arm>, x: string)
    ensures x in AssignedInArms(elifs) <==> ArmsBind(elifs, x)
    decreases ArmsSize(elifs), 1
  {
    if elifs != [] {
      hide Assigned, Binds;
      AssignedExactly(elifs[0].body, x);
      ArmsExactly(elifs[1..], x);
    }
  }

  /** The environment of a function reads exactly the names its text gives it. */
  lemma NamesExactly(f: Source)
    ensures ReadsNames(EnvOf(f), f)
  {
    var env := EnvOf(f);
    forall x ensures (x in env.typed || (if env.Owns(x) then x in env.vars else x in env.globals)) <==> Named(f, x) {
      AssignedExactly(f.body, x);
      TypedNamed(f, x);
    }
  }

  lemma TypedNamed(f: Source, x: string)
    ensures x in EnvOf(f).typed ==> x in Locals(f) || x in f.rawGlobals
    ensures x in f.rawGlobals && x !in Locals(f) ==> x in EnvOf(f).typed
    ensures EnvOf(f).sigs == f.sigs && EnvOf(f).vars == Locals(f) && EnvOf(f).globals == f.globals && !EnvOf(f).top
  {
    hide Inferred, Ints, Assigned, TopLevel.EachVars, DefiniteAssignment.Demoted;
    SettledExactly(f.body, GivenBy(f), f.sigs);
  }

  /** Main result: a function compiles exactly if its text is in order. */
  lemma CompilesExactly(f: Source)
    ensures Emitted(f).Lowered? <==> WellFormedBlock(f.body, false, f)
  {
    hide ReadsNames, LowerBlock, WellFormedBlock, EnvOf;
    NamesExactly(f);
    BlockExactly(f.body, EnvOf(f), [], Supply(0, 0, []), f);
  }
}
