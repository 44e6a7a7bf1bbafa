/** The meaning-preservation theorem for statement lowering (src/codegen.rs): nested
    branches and loops, by induction over the program and the fuel. */
module Simulation {
  import opened Syntax
  import opened Values
  import opened MachineIntegers
  import opened SlotChoice
  import opened PythonSemantics
  import opened Machine
  import opened Lowering
  import opened ExpressionSimulation
  import opened StatementSimulation

  // -------------------------------------------------------- supplies only grow

  ghost predicate Grows(s: Supply, r: Lowered) {
    r.Lowered? ==> s.marks <= r.after.marks && s.temps <= r.after.temps
  }

  lemma {:induction false} BlockGrows(b: Block, env: Env, loops: seq<LoopLabels>, s: Supply)
    ensures Grows(s, LowerBlock(b, env, loops, s))
    decreases BlockSize(b), 1
  {
    if b != [] {
      StmtGrows(b[0], env, loops, s);
      var first := LowerStmt(b[0], env, loops, s);
      if first.Lowered? { BlockGrows(b[1..], env, loops, first.after); }
    }
  }

  lemma {:induction false} StmtGrows(st: Stmt, env: Env, loops: seq<LoopLabels>, s: Supply)
    ensures Grows(s, LowerStmt(st, env, loops, s))
    decreases StmtSize(st), 0
  {
    hide I32Expr, ValueExpr, CondI32, LowerBlock, LowerIf, StepOf, CountedCode, WhileCode;
    match st.kind
    case If(c, body, elifs, orelse) => IfGrows(c, body, elifs, orelse, env, loops, s);
    case While(c, body) => BlockGrows(body, env, loops + [LoopLabels(B(s.marks), L(s.marks))], Fresh(s));
    case For(x, start, end, step, body, _) =>
      var s0 := if ConstInt(end).Some? then s else WithScratch(s);
      BlockGrows(body, env, loops + [LoopLabels(B(s0.marks), C(s0.marks))], WithCounter(s0));
    case ForEach(x, iterable, body) =>
      BlockGrows(body, env, loops + [LoopLabels(B(s.marks), C(s.marks))], WithCounter(WithScratch(s)));
    case _ =>
  }

  lemma {:induction false} IfGrows(c: Expr, body: Block, elifs: seq<Arm>, orelse: ElseBlock, env: Env, loops: seq<LoopLabels>, s: Supply)
    ensures Grows(s, LowerIf(c, body, elifs, orelse, env, loops, s))
    decreases BlockSize(body) + ArmsSize(elifs) + BlockSize(ElseOf(orelse)), 3
  {
    hide CondI32, LowerBlock;
    BlockGrows(body, env, loops, s);
    var thens := LowerBlock(body, env, loops, s);
    if thens.Lowered? { ElseGrows(elifs, orelse, env, loops, thens.after); }
  }

  lemma {:induction false} ElseGrows(elifs: seq<Arm>, orelse: ElseBlock, env: Env, loops: seq<LoopLabels>, s: Supply)
    ensures Grows(s, LowerElse(elifs, orelse, env, loops, s))
    decreases ArmsSize(elifs) + BlockSize(ElseOf(orelse)), 2
  {
    if elifs == [] { BlockGrows(ElseOf(orelse), env, loops, s); }
    else { IfGrows(elifs[0].cond, elifs[0].body, elifs[1..], orelse, env, loops, s); }
  }

  // ------------------------------------------------------------ the induction

  lemma KeptAll(m: Machine, s: Supply)
    ensures Kept(m, m, s)
  {
  }

  lemma CounterKept(m: Machine, n: nat, c: int, s: Supply)
    requires n >= s.marks
    ensures Kept(m, m.(raws := m.raws[Counter(n) := c]), s)
  {
  }

  /** A later supply keeps less. */
  lemma FollowsEarlier(y: Outcome, x: Exit, env: Env, loops: seq<LoopLabels>, m: Machine, v: Machine, s: Supply, t: Supply)
    requires Follows(y, x, env, loops, v, t) && Kept(m, v, s) && s.marks <= t.marks && s.temps <= t.temps
    ensures Follows(y, x, env, loops, m, s)
  {
    hide Agrees;
  }

  /** With equal fuel a block's code does exactly what the rules of compiled code say. */
  lemma {:induction false} BlockSim(b: Block, env: Env, loops: seq<LoopLabels>, s: Supply, w: World, m: Machine, o: Oracle, fuel: nat)
    requires LowerBlock(b, env, loops, s).Lowered? && Fitting(b, env) && Agrees(env, w, m)
    ensures Follows(ExecBlock(b, w, o, Code(env, false), fuel), Run(LowerBlock(b, env, loops, s).code, m, o, fuel), env, loops, m, s)
    decreases fuel, BlockSize(b), 1
  {
    KeptAll(m, s);
    if b != [] {
      hide Agrees, Kept, StmtFitting, LowerStmt, ResultFollows;
      var first := LowerStmt(b[0], env, loops, s);
      var rest := LowerBlock(b[1..], env, loops, first.after);
      StmtSim(b[0], env, loops, s, w, m, o, fuel);
      RunAppend(first.code, rest.code, m, o, fuel);
      var y, x := ExecStmt(b[0], w, o, Code(env, false), fuel), Run(first.code, m, o, fuel);
      if y.Next? {
        StmtGrows(b[0], env, loops, s);
        BlockSim(b[1..], env, loops, first.after, y.world, x.m, o, fuel);
        FollowsEarlier(ExecBlock(b[1..], y.world, o, Code(env, false), fuel), Run(rest.code, x.m, o, fuel), env, loops, m, x.m, s, first.after);
      } else {
        StopsEarly(y, x, rest.code, o, fuel, env, loops, m, s);
      }
    }
  }

  /** What ends a statement abruptly ends the sequence. */
  lemma StopsEarly(y: Outcome, x: Exit, rest: seq<Instr>, o: Oracle, fuel: nat, env: Env, loops: seq<LoopLabels>, m: Machine, s: Supply)
    requires Follows(y, x, env, loops, m, s) && !y.Next?
    ensures Follows(y, Then(x, rest, o, fuel), env, loops, m, s)
  {
    hide Reaches, Run;
  }

  lemma {:induction false} StmtSim(st: Stmt, env: Env, loops: seq<LoopLabels>, s: Supply, w: World, m: Machine, o: Oracle, fuel: nat)
    requires LowerStmt(st, env, loops, s).Lowered? && StmtFitting(st, env) && Agrees(env, w, m)
    ensures Follows(ExecStmt(st, w, o, Code(env, false), fuel), Run(LowerStmt(st, env, loops, s).code, m, o, fuel), env, loops, m, s)
    decreases fuel, StmtSize(st), 0
  {
    hide Agrees, LowerIf, LowerWhile, LowerFor, LowerForEach, LowerBlock, LowerElse, Eval, Follows, ExecBlock, ExecElse, ExecWhile, Test,
      Range, ValueExpr, ExecExpr, LowerCall, ExecReturn, ExecAssign, StoreTo, Fitting, ArmsFitting, InferInt, Run, RunInstr, LowerReturn;
    match st.kind
    case Assign(x, e) =>
      AssignSim(x, e, env, loops, s, w, m, o, fuel);
      RunOne(StoreTo(x, e, ValueExpr(e, env).value, env), m, o, fuel);
    case AnnAssign(x, e, _) =>
      AssignSim(x, e, env, loops, s, w, m, o, fuel);
      RunOne(StoreTo(x, e, ValueExpr(e, env).value, env), m, o, fuel);
    case ExprStmt(e) => ExprSim(e, env, loops, s, w, m, o, fuel);
    case Return(Some(e)) =>
      ReturnSim(e, env, loops, s, w, m, o, fuel);
      OneReturn(e, env, s);
      RunOne(LowerReturn(Some(e), env, s).code[0], m, o, fuel);
    case If(c, body, elifs, orelse) =>
      IfSim(c, body, elifs, orelse, env, loops, s, w, m, o, fuel);
      assert ExecStmt(st, w, o, Code(env, false), fuel) == Branching(c, body, elifs, ElseOf(orelse), w, o, Code(env, false), fuel);
    case While(c, body) => WhileStmtSim(c, body, env, loops, s, w, m, o, fuel);
    case For(x, start, end, step, body, _) => ForSim(st, env, loops, s, w, m, o, fuel);
    case ForEach(x, iterable, body) => ForEachSim(st, env, loops, s, w, m, o, fuel);
    case _ => JumpSim(st, env, loops, s, w, m, o, fuel);
  }

  lemma OneReturn(e: Expr, env: Env, s: Supply)
    requires LowerReturn(Some(e), env, s).Lowered?
    ensures LowerReturn(Some(e), env, s).code == [LowerReturn(Some(e), env, s).code[0]]
  {
  }

  lemma JumpSim(st: Stmt, env: Env, loops: seq<LoopLabels>, s: Supply, w: World, m: Machine, o: Oracle, fuel: nat)
    requires LowerStmt(st, env, loops, s).Lowered? && Agrees(env, w, m)
    requires st.kind.Break? || st.kind.Continue? || st.kind.Pass? || st.kind.Import? || st.kind == Return(None) || st.kind.Def?
    ensures Follows(ExecStmt(st, w, o, Code(env, false), fuel), Run(LowerStmt(st, env, loops, s).code, m, o, fuel), env, loops, m, s)
  {
    hide Agrees, EvalRaw, ExecBlock, LowerBlock;
    KeptAll(m, s);
    var code := LowerStmt(st, env, loops, s).code;
    if code != [] { RunOne(code[0], m, o, fuel); assert code == [code[0]]; }
  }

  /** An `if`, or an `elif` with what follows it. */
  function Branching(c: Expr, body: Block, elifs: seq<Arm>, orelse: Block, w: World, o: Oracle, r: Rules, fuel: nat): Outcome {
    match Test(c, w, o, r)
    case Breaks(k, out) => Stopped(k, out)
    case Holds(yes, u) => if yes then ExecBlock(body, u, o, r, fuel) else ExecElse(elifs, orelse, u, o, r, fuel)
  }

  lemma {:induction false} IfSim(c: Expr, body: Block, elifs: seq<Arm>, orelse: ElseBlock, env: Env, loops: seq<LoopLabels>,
                                 s: Supply, w: World, m: Machine, o: Oracle, fuel: nat)
    requires LowerIf(c, body, elifs, orelse, env, loops, s).Lowered? && Agrees(env, w, m)
    requires Fitting(body, env) && ArmsFitting(elifs, env) && Fitting(ElseOf(orelse), env)
    ensures Follows(Branching(c, body, elifs, ElseOf(orelse), w, o, Code(env, false), fuel),
                    Run(LowerIf(c, body, elifs, orelse, env, loops, s).code, m, o, fuel), env, loops, m, s)
    decreases fuel, BlockSize(body) + ArmsSize(elifs) + BlockSize(ElseOf(orelse)), 3
  {
    hide Agrees, CondI32, Test, ExecBlock, ExecElse, Fitting, ArmsFitting, LowerBlock, LowerElse, Run, EvalRaw, Reaches, ResultFollows, Kept;
    var thens := LowerBlock(body, env, loops, s);
    var elses := LowerElse(elifs, orelse, env, loops, thens.after);
    CondSim(c, env, w, m, o);
    var t, g := Test(c, w, o, Code(env, false)), EvalRaw(CondI32(c, env).value, m, o);
    RunOne(Instr.If(CondI32(c, env).value, thens.code, elses.code), m, o, fuel);
    if t.Holds? {
      KeptSlots(m, g.m, s);
      if t.b {
        BlockSim(body, env, loops, s, t.world, g.m, o, fuel);
        FollowsEarlier(ExecBlock(body, t.world, o, Code(env, false), fuel), Run(thens.code, g.m, o, fuel), env, loops, m, g.m, s, s);
      } else {
        ElseSim(elifs, orelse, env, loops, thens.after, t.world, g.m, o, fuel);
        BlockGrows(body, env, loops, s);
        FollowsEarlier(ExecElse(elifs, ElseOf(orelse), t.world, o, Code(env, false), fuel), Run(elses.code, g.m, o, fuel), env, loops, m,
          g.m, s, thens.after);
      }
    }
  }

  lemma {:induction false} ElseSim(elifs: seq<Arm>, orelse: ElseBlock, env: Env, loops: seq<LoopLabels>, s: Supply, w: World, m: Machine,
                                   o: Oracle, fuel: nat)
    requires LowerElse(elifs, orelse, env, loops, s).Lowered? && Agrees(env, w, m)
    requires ArmsFitting(elifs, env) && Fitting(ElseOf(orelse), env)
    ensures Follows(ExecElse(elifs, ElseOf(orelse), w, o, Code(env, false), fuel), Run(LowerElse(elifs, orelse, env, loops, s).code, m, o,
      fuel), env, loops, m, s)
    decreases fuel, ArmsSize(elifs) + BlockSize(ElseOf(orelse)), 2
  {
    hide Agrees, Test, Follows, ExecBlock, Fitting, LowerBlock, LowerIf, Run;
    if elifs == [] {
      BlockSim(ElseOf(orelse), env, loops, s, w, m, o, fuel);
    } else {
      IfSim(elifs[0].cond, elifs[0].body, elifs[1..], orelse, env, loops, s, w, m, o, fuel);
    }
  }

  // -------------------------------------------------------------------- while

  function WhileLoop(n: nat, cond: Raw, body: seq<Instr>): Instr {
    Loop(L(n), [BrIf(B(n), Eqz(cond))] + body + [Br(L(n))])
  }

  /** One pass of a `while` loop's code. */
  function WhilePass(n: nat, cond: Raw, body: seq<Instr>, m: Machine, o: Oracle, fuel: nat): Exit {
    match EvalRaw(cond, m, o)
    case Trap(k, out) => Trapped(k, out)
    case Got(c, u) =>
      if c == 0 then Jump(B(n), u)
      else
        var x := Run(body, u, o, fuel);
        if x.Fall? then Jump(L(n), x.m) else x
  }

  lemma WhilePassRuns(n: nat, cond: Raw, body: seq<Instr>, m: Machine, o: Oracle, fuel: nat)
    ensures Run([BrIf(B(n), Eqz(cond))] + body + [Br(L(n))], m, o, fuel) == WhilePass(n, cond, body, m, o, fuel)
  {
    hide Run;
    var test, back := BrIf(B(n), Eqz(cond)), Br(L(n));
    assert [test] + body + [back] == [test] + (body + [back]);
    RunCons(test, body + [back], m, o, fuel);
    EqzRuns(cond, m, o);
    var g := EvalRaw(cond, m, o);
    if g.Got? {
      RunAppend(body, [back], g.m, o, fuel);
      var x := Run(body, g.m, o, fuel);
      if x.Fall? { RunOne(back, x.m, o, fuel); }
    }
  }

  lemma EqzRuns(a: Raw, m: Machine, o: Oracle)
    ensures var g := EvalRaw(a, m, o); EvalRaw(Eqz(a), m, o) == if g.Got? then Got(Flag(g.value == 0), g.m) else g
  {
  }

  /** A loop runs its passes until one does not branch back to its head. */
  function Looped(n: nat, x: Exit, i: Instr, o: Oracle, fuel: nat): Exit {
    if x.Jump? && x.name == L(n) then (if fuel == 0 then Exhaustion(x.m.out) else RunInstr(i, x.m, o, fuel - 1)) else x
  }

  lemma WhileRuns(n: nat, cond: Raw, body: seq<Instr>, m: Machine, o: Oracle, fuel: nat)
    ensures RunInstr(WhileLoop(n, cond, body), m, o, fuel) == Looped(n, WhilePass(n, cond, body, m, o, fuel), WhileLoop(n, cond, body), o, fuel)
  {
    hide WhilePass;
    WhilePassRuns(n, cond, body, m, o, fuel);
  }

  lemma {:induction false} WhileStmtSim(c: Expr, body: Block, env: Env, loops: seq<LoopLabels>, s: Supply, w: World, m: Machine, o: Oracle, fuel: nat)
    requires LowerWhile(c, body, env, loops, s).Lowered? && Fitting(body, env) && Agrees(env, w, m)
    ensures Follows(ExecWhile(c, body, w, o, Code(env, false), fuel), Run(LowerWhile(c, body, env, loops, s).code, m, o, fuel), env, loops, m, s)
    decreases fuel, BlockSize(body), 3
  {
    hide Agrees, CondI32, ExecWhile, LowerBlock, Follows, Fitting, LoopFollows;
    var n := s.marks;
    var inner := loops + [LoopLabels(B(n), L(n))];
    var code := LowerBlock(body, env, inner, Fresh(s)).code;
    var cond := CondI32(c, env).value;
    WhileSim(c, body, env, inner, s, w, m, o, fuel);
    var x := RunInstr(WhileLoop(n, cond, code), m, o, fuel);
    LoopLands(ExecWhile(c, body, w, o, Code(env, false), fuel), x, n, env, loops, m, s);
    RunOne(WhileLoop(n, cond, code), m, o, fuel);
    RunOne(Instr.Block(B(n), [WhileLoop(n, cond, code)]), m, o, fuel);
  }

  lemma {:induction false} WhileSim(c: Expr, body: Block, env: Env, inner: seq<LoopLabels>, s: Supply, w: World, m: Machine, o: Oracle, fuel: nat)
    requires inner != [] && inner[|inner| - 1] == LoopLabels(B(s.marks), L(s.marks))
    requires CondI32(c, env).Some? && LowerBlock(body, env, inner, Fresh(s)).Lowered? && Fitting(body, env) && Agrees(env, w, m)
    ensures LoopFollows(ExecWhile(c, body, w, o, Code(env, false), fuel),
                        RunInstr(WhileLoop(s.marks, CondI32(c, env).value, LowerBlock(body, env, inner, Fresh(s)).code), m, o, fuel),
                        s.marks, env, m, s)
    decreases fuel, BlockSize(body), 2
  {
    hide CondI32, LowerBlock, Fitting, ExecBlock, Run, RunInstr, Test, EvalRaw, Agrees, Kept, WhileLoop, ResultFollows;
    var n := s.marks;
    var cond, code := CondI32(c, env).value, LowerBlock(body, env, inner, Fresh(s)).code;
    WhileRuns(n, cond, code, m, o, fuel);
    CondSim(c, env, w, m, o);
    var t, g := Test(c, w, o, Code(env, false)), EvalRaw(cond, m, o);
    if t.Holds? {
      KeptSlots(m, g.m, s);
      if t.b {
        BlockSim(body, env, inner, Fresh(s), t.world, g.m, o, fuel);
        var y := ExecBlock(body, t.world, o, Code(env, false), fuel);
        var x := WhilePass(n, cond, code, m, o, fuel);
        FollowsEarlier(y, Run(code, g.m, o, fuel), env, inner, m, g.m, s, Fresh(s));
        WhilePassEnds(y, Run(code, g.m, o, fuel), x, inner, env, m, s);
        var p := PassOf(y);
        if p.Again? && fuel > 0 {
          WhileSim(c, body, env, inner, s, p.world, x.m, o, fuel - 1);
          LoopFollowsOn(ExecWhile(c, body, p.world, o, Code(env, false), fuel - 1), RunInstr(WhileLoop(n, cond, code), x.m, o, fuel - 1),
            n, env, m, x.m, s);
        } else if p.Again? {
          AgreedOut(env, p.world, x.m);
        }
      }
    }
  }

  /** The end of a pass: another one, or the loop's own end. */
  ghost predicate PassFollows(p: Pass, x: Exit, n: nat, env: Env, m: Machine, s: Supply) {
    match p
    case Again(u) => x.Jump? && x.name == L(n) && Reaches(env, u, m, x.m, s)
    case Done(y) => LoopFollows(y, x, n, env, m, s) && (x.Jump? && x.name == L(n) ==> y.Stopped? && y.error.NameError?)
  }

  lemma WhilePassEnds(y: Outcome, x: Exit, z: Exit, inner: seq<LoopLabels>, env: Env, m: Machine, s: Supply)
    requires inner != [] && inner[|inner| - 1] == LoopLabels(B(s.marks), L(s.marks))
    requires Follows(y, x, env, inner, m, s) && z == (if x.Fall? then Jump(L(s.marks), x.m) else x)
    ensures PassFollows(PassOf(y), z, s.marks, env, m, s)
  {
    hide Agrees;
  }

  lemma LoopFollowsOn(y: Outcome, x: Exit, n: nat, env: Env, m: Machine, v: Machine, s: Supply)
    requires LoopFollows(y, x, n, env, v, s) && Kept(m, v, s)
    ensures LoopFollows(y, x, n, env, m, s)
  {
    hide Agrees;
  }

  // ------------------------------------------------------------ counted loops

  function CountedLoop(n: nat, done: Raw, setVar: Instr, step: int, body: seq<Instr>): Instr {
    Loop(L(n), PassCode(n, done, setVar, step, body))
  }

  function Advanced(n: nat, step: int, m: Machine): Machine {
    m.(raws := m.raws[Counter(n) := Wrap32(RawAt(m, Counter(n)) + step)])
  }

  /** The end of one pass: `continue` lands here, then the counter steps. */
  function PassEnd(n: nat, step: int, x: Exit): Exit {
    var z := Landed(C(n), x);
    if z.Fall? then Jump(L(n), Advanced(n, step, z.m)) else z
  }

  /** One pass of a counted loop's code. */
  function CountedPass(n: nat, done: Raw, setVar: Instr, step: int, body: seq<Instr>, m: Machine, o: Oracle, fuel: nat): Exit {
    match EvalRaw(done, m, o)
    case Trap(k, out) => Trapped(k, out)
    case Got(c, u) =>
      if c != 0 then Jump(B(n), u)
      else
        var x := RunInstr(setVar, u, o, fuel);
        if x.Fall? then PassEnd(n, step, Run(body, x.m, o, fuel)) else x
  }

  lemma StepRuns(n: nat, step: int, m: Machine, o: Oracle, fuel: nat)
    ensures Run([SetRaw(Counter(n), RawOp(I32Add, GetRaw(Counter(n)), Const(step))), Br(L(n))], m, o, fuel) == Jump(L(n), Advanced(n, step, m))
  {
    hide Wrap;
    var add, back := SetRaw(Counter(n), RawOp(I32Add, GetRaw(Counter(n)), Const(step))), Br(L(n));
    assert EvalRaw(Const(step), m, o) == Got(step, m) && EvalRaw(GetRaw(Counter(n)), m, o) == Got(RawAt(m, Counter(n)), m);
    assert EvalRaw(RawOp(I32Add, GetRaw(Counter(n)), Const(step)), m, o) == Got(Wrap32(RawAt(m, Counter(n)) + step), m);
    assert [add, back] == [add] + [back];
    RunCons(add, [back], m, o, fuel);
    RunOne(back, Advanced(n, step, m), o, fuel);
  }

  lemma CountedPassRuns(n: nat, done: Raw, setVar: Instr, step: int, body: seq<Instr>, m: Machine, o: Oracle, fuel: nat)
    ensures Run(PassCode(n, done, setVar, step, body), m, o, fuel) == CountedPass(n, done, setVar, step, body, m, o, fuel)
  {
    hide Advanced, EvalRaw;
    var test, inner := BrIf(B(n), done), Instr.Block(C(n), body);
    var tail := [SetRaw(Counter(n), RawOp(I32Add, GetRaw(Counter(n)), Const(step))), Br(L(n))];
    assert PassCode(n, done, setVar, step, body) == [test] + ([setVar] + ([inner] + tail));
    RunCons(test, [setVar] + ([inner] + tail), m, o, fuel);
    var g := EvalRaw(done, m, o);
    if g.Got? {
      RunCons(setVar, [inner] + tail, g.m, o, fuel);
      var x := RunInstr(setVar, g.m, o, fuel);
      if x.Fall? {
        RunCons(inner, tail, x.m, o, fuel);
        var z := Landed(C(n), Run(body, x.m, o, fuel));
        if z.Fall? { StepRuns(n, step, z.m, o, fuel); }
      }
    }
  }

  lemma CountedRuns(n: nat, done: Raw, setVar: Instr, step: int, body: seq<Instr>, m: Machine, o: Oracle, fuel: nat)
    ensures RunInstr(CountedLoop(n, done, setVar, step, body), m, o, fuel)
         == Looped(n, CountedPass(n, done, setVar, step, body, m, o, fuel), CountedLoop(n, done, setVar, step, body), o, fuel)
  {
    hide CountedPass, PassCode;
    CountedPassRuns(n, done, setVar, step, body, m, o, fuel);
  }

  /** Where the body of counted loop `n` starts, and what it leaves of the counter. */
  lemma CountedPassEnds(y: Outcome, x: Exit, n: nat, step: int, inner: seq<LoopLabels>, env: Env, m: Machine, v: Machine, s: Supply, t: Supply)
    requires inner != [] && inner[|inner| - 1] == LoopLabels(B(n), C(n)) && s.marks <= n < t.marks && s.temps <= t.temps
    requires Follows(y, x, env, inner, v, t) && Kept(m, v, t)
    ensures PassFollows(PassOf(y), PassEnd(n, step, x), n, env, m, s)
    ensures PassOf(y).Again? ==>
      var z := PassEnd(n, step, x).m;
      && RawAt(z, Counter(n)) == Wrap32(RawAt(m, Counter(n)) + step)
      && (forall k :: 0 <= k < t.temps ==> RawAt(z, Scratch(k)) == RawAt(m, Scratch(k)) && RefAt(z, Scratch(k)) == RefAt(m, Scratch(k)))
  {
    hide Agrees, Wrap;
    var p, z := PassOf(y), Landed(C(n), x);
    if p.Again? {
      HiddenRaw(Counter(n), Wrap32(RawAt(z.m, Counter(n)) + step), env, p.world, z.m);
    }
  }

  // ---------------------------------------------------------------- for range

  /** The end of a range: a snapshot the body keeps, or a constant. */
  ghost predicate Until(until: Raw, end: int, e: Expr, env: Env, m: Machine, temps: nat) {
    || (exists t: nat :: t < temps && until == GetRaw(Scratch(t)) && RawAt(m, Scratch(t)) == end)
    || (ConstInt(e) == Some(end) && I32Expr(e, env) == Some(until))
  }

  lemma UntilKept(until: Raw, end: int, e: Expr, env: Env, m: Machine, v: Machine, temps: nat)
    requires Until(until, end, e, env, m, temps)
    requires forall t: nat :: t < temps ==> RawAt(v, Scratch(t)) == RawAt(m, Scratch(t))
    ensures Until(until, end, e, env, v, temps)
  {
  }

  lemma UntilConstant(until: Raw, end: int, e: Expr, env: Env, m: Machine, temps: nat)
    requires ConstInt(e) == Some(end) && I32Expr(e, env) == Some(until)
    ensures Until(until, end, e, env, m, temps)
  {
  }

  lemma UntilStored(t: nat, end: int, e: Expr, env: Env, m: Machine, temps: nat)
    requires t < temps && RawAt(m, Scratch(t)) == end
    ensures Until(GetRaw(Scratch(t)), end, e, env, m, temps)
  {
  }

  /** Raw code of a literal leaves the literal and changes nothing. */
  lemma {:induction false} LiteralRuns(e: Expr, env: Env, m: Machine, o: Oracle)
    requires ConstInt(e).Some? && ScalarExpr(e, env).Some?
    ensures EvalRaw(ScalarExpr(e, env).value, m, o) == Got(ConstInt(e).value, m)
    decreases e
  {
    hide Ck32, Wrap;
    if e.kind.Unary? {
      LiteralRuns(e.kind.operand, env, m, o);
      ScalarLiteral(e.kind.operand, env);
      INegExact(ConstInt(e.kind.operand).value);
    }
  }

  lemma UntilHolds(until: Raw, end: int, e: Expr, env: Env, m: Machine, temps: nat, o: Oracle)
    requires Until(until, end, e, env, m, temps)
    ensures EvalRaw(until, m, o) == Got(end, m)
  {
    hide ScalarExpr;
    if ConstInt(e) == Some(end) && I32Expr(e, env) == Some(until) && ScalarExpr(e, env).Some? { LiteralRuns(e, env, m, o); }
  }

  lemma DoneEvals(n: nat, step: int, until: Raw, end: int, m: Machine, o: Oracle)
    requires EvalRaw(until, m, o) == Got(end, m)
    ensures EvalRaw(AtEnd(n, step, until), m, o) == Got(Flag(Exhausted(RawAt(m, Counter(n)), end, step)), m)
  {
    assert EvalRaw(GetRaw(Counter(n)), m, o) == Got(RawAt(m, Counter(n)), m);
  }

  /** Copying the counter to the loop variable binds it as Python does. */
  lemma SetCountedSim(x: string, n: nat, env: Env, w: World, m: Machine, s: Supply, o: Oracle, fuel: nat)
    requires Agrees(env, w, m) && Fits(RawAt(m, Counter(n))) && x in env.vars
    ensures var z := RunInstr(SetCounted(x, n, env), m, o, fuel);
      z.Fall? && Reaches(env, Bind(w, x, VInt(RawAt(m, Counter(n)))), m, z.m, s)
  {
    hide Agrees, Box, Kept;
    var c := RawAt(m, Counter(n));
    assert EvalRaw(GetRaw(Counter(n)), m, o) == Got(c, m);
    if x in env.typed {
      StoreRaw(x, c, env, w, m, s);
    } else {
      BoxGood(c);
      StoreRef(x, Box(c), env, w, m, s);
      assert EvalBoxed(BoxCall(GetRaw(Counter(n))), m, o) == Got(Box(c), m);
    }
  }

  lemma {:induction false} RangeSim(x: string, end: int, step: int, body: Block, e: Expr, until: Raw, n: nat, env: Env,
                                    inner: seq<LoopLabels>, s: Supply, t: Supply, w: World, m: Machine, o: Oracle, fuel: nat)
    requires inner != [] && inner[|inner| - 1] == LoopLabels(B(n), C(n)) && s.marks <= n < t.marks && s.temps <= t.temps && x in env.vars
    requires LowerBlock(body, env, inner, t).Lowered? && Fitting(body, env) && Agrees(env, w, m)
    requires Until(until, end, e, env, m, t.temps) && Fits(RawAt(m, Counter(n)))
    ensures LoopFollows(ExecRange(x, RawAt(m, Counter(n)), end, step, body, w, o, Code(env, false), fuel),
                        RunInstr(CountedLoop(n, AtEnd(n, step, until), SetCounted(x, n, env), step, LowerBlock(body, env, inner, t).code),
                          m, o, fuel),
                        n, env, m, s)
    decreases fuel, BlockSize(body), 2
  {
    hide LowerBlock, Fitting, ExecBlock, Run, RunInstr, EvalRaw, Agrees, Kept, CountedLoop, ResultFollows, Until, Wrap, PassEnd, SetCounted,
      AtEnd, Exhausted;
    var c := RawAt(m, Counter(n));
    var done, bind, code := AtEnd(n, step, until), SetCounted(x, n, env), LowerBlock(body, env, inner, t).code;
    CountedRuns(n, done, bind, step, code, m, o, fuel);
    UntilHolds(until, end, e, env, m, t.temps, o);
    DoneEvals(n, step, until, end, m, o);
    KeptAll(m, s);
    if !Exhausted(c, end, step) {
      SetCountedSim(x, n, env, w, m, t, o, fuel);
      var u, v := Bind(w, x, VInt(c)), RunInstr(bind, m, o, fuel).m;
      BlockSim(body, env, inner, t, u, v, o, fuel);
      var y := ExecBlock(body, u, o, Code(env, false), fuel);
      var z := CountedPass(n, done, bind, step, code, m, o, fuel);
      assert z == PassEnd(n, step, Run(code, v, o, fuel));
      CountedPassEnds(y, Run(code, v, o, fuel), n, step, inner, env, m, v, s, t);
      var p := PassOf(y);
      if p.Again? && fuel > 0 {
        WrapExact(c + step, 0x8000_0000);
        UntilKept(until, end, e, env, m, z.m, t.temps);
        RangeSim(x, end, step, body, e, until, n, env, inner, s, t, p.world, z.m, o, fuel - 1);
        LoopFollowsOn(ExecRange(x, Wrap32(c + step), end, step, body, p.world, o, Code(env, false), fuel - 1),
                      RunInstr(CountedLoop(n, done, bind, step, code), z.m, o, fuel - 1), n, env, m, z.m, s);
      } else if p.Again? {
        AgreedOut(env, p.world, z.m);
      }
    }
  }

  lemma CountedCodeRuns(n: nat, first: Raw, done: Raw, setVar: Instr, step: int, body: seq<Instr>, m: Machine, o: Oracle, fuel: nat)
    ensures var g := EvalRaw(first, m, o);
      Run(CountedCode(n, first, done, setVar, step, body), m, o, fuel) ==
        if g.Trap? then Trapped(g.error, g.out)
        else Landed(B(n), RunInstr(CountedLoop(n, done, setVar, step, body), g.m.(raws := g.m.raws[Counter(n) := g.value]), o, fuel))
  {
    hide EvalRaw, PassCode;
    var init, block := SetRaw(Counter(n), first), Instr.Block(B(n), [CountedLoop(n, done, setVar, step, body)]);
    assert CountedCode(n, first, done, setVar, step, body) == [init] + [block];
    RunCons(init, [block], m, o, fuel);
    SetRawRuns(Counter(n), first, m, o, fuel);
    var x := RunInstr(init, m, o, fuel);
    if x.Fall? {
      RunOne(block, x.m, o, fuel);
      RunOne(CountedLoop(n, done, setVar, step, body), x.m, o, fuel);
    }
  }

  lemma StartFails(start: Evaluated, g: Got<int>, x: Exit, m: Machine, env: Env, loops: seq<LoopLabels>, s: Supply)
    requires start.Fail? && RawMatches(start, g, env) && (g.Trap? ==> x == Trapped(g.error, g.out))
    ensures Follows(Stopped(start.error, start.out), x, env, loops, m, s)
  {
  }

  /** Passing over the items from the start at hand. */
  function RangeFrom(x: string, start: Evaluated, end: int, step: int, body: Block, o: Oracle, r: Rules, fuel: nat): Outcome {
    match start
    case Fail(k, out) => Stopped(k, out)
    case Ok(v, u) => if v.VInt? then ExecRange(x, v.n, end, step, body, u, o, r, fuel) else Stopped(TypeError, u.out)
  }

  /** A range loop whose end is at hand: the start, then the passes. */
  lemma {:induction false} FromStart(x: string, start: Evaluated, first: Raw, end: int, step: int, body: Block, e: Expr, until: Raw,
                                     env: Env, loops: seq<LoopLabels>, s: Supply, s0: Supply, m: Machine, o: Oracle, fuel: nat)
    requires s0.marks == s.marks && s.temps <= s0.temps && x in env.vars
    requires var inner := loops + [LoopLabels(B(s.marks), C(s.marks))];
      LowerBlock(body, env, inner, WithCounter(s0)).Lowered? && Fitting(body, env)
    requires Until(until, end, e, env, m, s0.temps) && RawMatches(start, EvalRaw(first, m, o), env)
    ensures var code := LowerBlock(body, env, loops + [LoopLabels(B(s.marks), C(s.marks))], WithCounter(s0)).code;
      Follows(RangeFrom(x, start, end, step, body, o, Code(env, false), fuel),
              Run(CountedCode(s.marks, first, AtEnd(s.marks, step, until), SetCounted(x, s.marks, env), step, code), m, o, fuel),
              env, loops, m, s)
    decreases fuel, BlockSize(body), 3
  {
    hide LowerBlock, Fitting, Agrees, ResultFollows, Kept, ExecRange, RunInstr, CountedCode, CountedLoop, Run, EvalRaw, AtEnd, SetCounted, Until,
      Follows, LoopFollows;
    var n := s.marks;
    var inner := loops + [LoopLabels(B(n), C(n))];
    var code := LowerBlock(body, env, inner, WithCounter(s0)).code;
    var done, bind := AtEnd(n, step, until), SetCounted(x, n, env);
    CountedCodeRuns(n, first, done, bind, step, code, m, o, fuel);
    var g := EvalRaw(first, m, o);
    if start.Ok? {
      var c, w := start.value.n, start.world;
      var v := g.m.(raws := g.m.raws[Counter(n) := c]);
      HiddenRaw(Counter(n), c, env, w, g.m);
      UntilKept(until, end, e, env, m, v, s0.temps);
      CounterKept(g.m, n, c, s);
      KeptOn(m, g.m, v, s);
      RangeSim(x, end, step, body, e, until, n, env, inner, s, WithCounter(s0), w, v, o, fuel);
      var y := RunInstr(CountedLoop(n, done, bind, step, code), v, o, fuel);
      LoopFollowsOn(ExecRange(x, c, end, step, body, w, o, Code(env, false), fuel), y, n, env, m, v, s);
      LoopLands(ExecRange(x, c, end, step, body, w, o, Code(env, false), fuel), y, n, env, loops, m, s);
    } else {
      StartFails(start, g, Run(CountedCode(n, first, done, bind, step, code), m, o, fuel), m, env, loops, s);
    }
  }

  /** A range loop with a constant end, and one whose end is computed first. */
  lemma RangeRuns(st: Stmt, env: Env, w: World, o: Oracle, fuel: nat)
    requires st.kind.For? && StepOf(st.kind.step).Some?
    ensures var For(x, start, end, step, body, _) := st.kind;
      var last := Numeral(end, w, o, Code(env, false));
      ExecStmt(st, w, o, Code(env, false), fuel) ==
        if ConstInt(end).Some? then
          RangeFrom(x, Numeral(start, w, o, Code(env, false)), ConstInt(end).value, StepOf(step).value, body, o, Code(env, false), fuel)
        else if last.Fail? then Stopped(last.error, last.out)
        else RangeFrom(x, Numeral(start, last.world, o, Code(env, false)), last.value.n, StepOf(step).value, body, o, Code(env, false), fuel)
  {
    hide Numeral, ExecRange;
  }

  lemma {:induction false} ForSim(st: Stmt, env: Env, loops: seq<LoopLabels>, s: Supply, w: World, m: Machine, o: Oracle, fuel: nat)
    requires st.kind.For? && LowerStmt(st, env, loops, s).Lowered? && StmtFitting(st, env) && Agrees(env, w, m)
    ensures Follows(ExecStmt(st, w, o, Code(env, false), fuel), Run(LowerStmt(st, env, loops, s).code, m, o, fuel), env, loops, m, s)
    decreases fuel, BlockSize(st.kind.body), 5
  {
    hide LowerBlock, Fitting, Agrees, ExecStmt, CountedCode, Run, EvalRaw, AtEnd, SetCounted, Until, Numeral, I32Expr, Follows, RunInstr, RangeFrom;
    var For(x, start, end, step, body, _) := st.kind;
    var stride, first, last := StepOf(step).value, I32Expr(start, env).value, I32Expr(end, env).value;
    RangeRuns(st, env, w, o, fuel);
    if ConstInt(end).Some? {
      BoundSim(start, env, w, m, o);
      UntilConstant(last, ConstInt(end).value, end, env, m, s.temps);
      FromStart(x, Numeral(start, w, o, Code(env, false)), first, ConstInt(end).value, stride, body, end, last, env, loops, s, s, m, o, fuel);
      var code := LowerBlock(body, env, loops + [LoopLabels(B(s.marks), C(s.marks))], WithCounter(s)).code;
      var counted := CountedCode(s.marks, first, AtEnd(s.marks, stride, last), SetCounted(x, s.marks, env), stride, code);
      assert [] + counted == counted;
    } else {
      SnapshotSim(st, env, loops, s, w, m, o, fuel);
    }
  }

  /** The end that is not a constant is stored first, in a temporary of its own. */
  lemma {:induction false} SnapshotSim(st: Stmt, env: Env, loops: seq<LoopLabels>, s: Supply, w: World, m: Machine, o: Oracle, fuel: nat)
    requires st.kind.For? && LowerStmt(st, env, loops, s).Lowered? && StmtFitting(st, env) && Agrees(env, w, m)
    requires ConstInt(st.kind.end).None?
    ensures Follows(ExecStmt(st, w, o, Code(env, false), fuel), Run(LowerStmt(st, env, loops, s).code, m, o, fuel), env, loops, m, s)
    decreases fuel, BlockSize(st.kind.body), 4
  {
    hide LowerBlock, Fitting, Agrees, ExecStmt, CountedCode, Run, EvalRaw, AtEnd, SetCounted, Until, Numeral, I32Expr, ResultFollows, RunInstr,
      Reaches, RangeFrom, Kept;
    var For(x, start, end, step, body, _) := st.kind;
    var stride, first, last := StepOf(step).value, I32Expr(start, env).value, I32Expr(end, env).value;
    var t, s0 := s.temps, WithScratch(s);
    var until := GetRaw(Scratch(t));
    var code := LowerBlock(body, env, loops + [LoopLabels(B(s.marks), C(s.marks))], WithCounter(s0)).code;
    var counted := CountedCode(s.marks, first, AtEnd(s.marks, stride, until), SetCounted(x, s.marks, env), stride, code);
    var e, g := Numeral(end, w, o, Code(env, false)), EvalRaw(last, m, o);
    RangeRuns(st, env, w, o, fuel);
    BoundSim(end, env, w, m, o);
    RunCons(SetRaw(Scratch(t), last), counted, m, o, fuel);
    SetRawRuns(Scratch(t), last, m, o, fuel);
    if e.Ok? {
      var v := g.m.(raws := g.m.raws[Scratch(t) := e.value.n]);
      HiddenRaw(Scratch(t), e.value.n, env, e.world, g.m);
      BoundSim(start, env, e.world, v, o);
      UntilStored(t, e.value.n, end, env, v, s0.temps);
      FromStart(x, Numeral(start, e.world, o, Code(env, false)), first, e.value.n, stride, body, end, until, env, loops, s, s0, v, o, fuel);
      ScratchKept(g.m, t, e.value.n, Null, s);
      KeptOn(m, g.m, v, s);
      FollowsEarlier(ExecStmt(st, w, o, Code(env, false), fuel), Run(counted, v, o, fuel), env, loops, m, v, s, s);
    }
  }

  lemma ScratchKept(m: Machine, t: nat, n: int, r: Ref, s: Supply)
    requires t >= s.temps
    ensures Kept(m, m.(raws := m.raws[Scratch(t) := n]), s)
    ensures Kept(m, m.(refs := m.refs[Scratch(t) := r]), s)
  {
  }

  // ----------------------------------------------------------------- for each

  function EachDone(n: nat, t: nat): Raw { RawOp(Compare(Ge), GetRaw(Counter(n)), PyIterLen(GetRef(Scratch(t)))) }

  lemma EachDoneEvals(n: nat, t: nat, m: Machine, o: Oracle)
    ensures var len := LenRef(RefAt(m, Scratch(t)), m.store);
      EvalRaw(EachDone(n, t), m, o) ==
        if len.Num? then Got(Flag(RawAt(m, Counter(n)) >= len.n), m) else Trap(len.error, m.out)
  {
    assert EvalRaw(GetRaw(Counter(n)), m, o) == Got(RawAt(m, Counter(n)), m);
    assert EvalBoxed(GetRef(Scratch(t)), m, o) == Got(RefAt(m, Scratch(t)), m);
    assert EvalRaw(PyIterLen(GetRef(Scratch(t))), m, o) == Numbered(LenRef(RefAt(m, Scratch(t)), m.store), m);
  }

  lemma SetItemSim(x: string, n: nat, t: nat, at: nat, env: Env, w: World, m: Machine, s: Supply, o: Oracle, fuel: nat)
    requires Agrees(env, w, m) && x in env.vars && x !in env.typed && RefAt(m, Scratch(t)) == ListRef(at)
    requires 0 <= RawAt(m, Counter(n)) < |Items(w.heap, at)|
    ensures var y := RunInstr(SetItem(x, n, t), m, o, fuel);
      y.Fall? && Reaches(env, Bind(w, x, Items(w.heap, at)[RawAt(m, Counter(n))]), m, y.m, s)
      && RawAt(y.m, Counter(n)) == RawAt(m, Counter(n)) && RefAt(y.m, Scratch(t)) == ListRef(at)
  {
    var i := RawAt(m, Counter(n));
    assert EvalRaw(GetRaw(Counter(n)), m, o) == Got(i, m);
    assert EvalBoxed(GetRef(Scratch(t)), m, o) == Got(ListRef(at), m);
    var r := RefsAt(m.store, at)[i];
    assert EvalBoxed(PyIndex(GetRef(Scratch(t)), GetRaw(Counter(n))), m, o) == Got(r, m);
    StoreRef(x, r, env, w, m, s);
  }

  lemma {:induction false} EachSim(x: string, at: nat, body: Block, t: nat, n: nat, env: Env, inner: seq<LoopLabels>, s: Supply, s0: Supply,
                                   w: World, m: Machine, o: Oracle, fuel: nat)
    requires inner != [] && inner[|inner| - 1] == LoopLabels(B(n), C(n)) && s.marks <= n < s0.marks && s.temps <= t < s0.temps
    requires LowerBlock(body, env, inner, s0).Lowered? && Fitting(body, env) && Agrees(env, w, m) && x in env.vars && x !in env.typed
    requires RefAt(m, Scratch(t)) == ListRef(at) && 0 <= RawAt(m, Counter(n)) <= LIST_MAX
    ensures LoopFollows(ExecEach(x, at, RawAt(m, Counter(n)), body, w, o, Code(env, false), fuel),
                        RunInstr(CountedLoop(n, EachDone(n, t), SetItem(x, n, t), 1, LowerBlock(body, env, inner, s0).code), m, o, fuel),
                          n, env, m, s)
    decreases fuel, BlockSize(body), 2
  {
    hide LowerBlock, Fitting, ExecBlock, Run, RunInstr, EvalRaw, Agrees, Kept, CountedLoop, ResultFollows, Wrap, PassEnd, SetItem, EachDone, HeapOf;
    var i := RawAt(m, Counter(n));
    var done, bind, code := EachDone(n, t), SetItem(x, n, t), LowerBlock(body, env, inner, s0).code;
    CountedRuns(n, done, bind, 1, code, m, o, fuel);
    EachDoneEvals(n, t, m, o);
    ListLength(at, env, w, m);
    KeptAll(m, s);
    if i < |Items(w.heap, at)| {
      SetItemSim(x, n, t, at, env, w, m, s0, o, fuel);
      var u, v := Bind(w, x, Items(w.heap, at)[i]), RunInstr(bind, m, o, fuel).m;
      BlockSim(body, env, inner, s0, u, v, o, fuel);
      var y := ExecBlock(body, u, o, Code(env, false), fuel);
      var z := CountedPass(n, done, bind, 1, code, m, o, fuel);
      assert z == PassEnd(n, 1, Run(code, v, o, fuel));
      CountedPassEnds(y, Run(code, v, o, fuel), n, 1, inner, env, m, v, s, s0);
      var p := PassOf(y);
      if p.Again? && fuel > 0 {
        WrapExact(i + 1, 0x8000_0000);
        EachSim(x, at, body, t, n, env, inner, s, s0, p.world, z.m, o, fuel - 1);
        LoopFollowsOn(ExecEach(x, at, i + 1, body, p.world, o, Code(env, false), fuel - 1),
                      RunInstr(CountedLoop(n, done, bind, 1, code), z.m, o, fuel - 1), n, env, m, z.m, s);
      } else if p.Again? {
        AgreedOut(env, p.world, z.m);
      }
    }
  }

  lemma ListLength(at: nat, env: Env, w: World, m: Machine)
    requires Agrees(env, w, m)
    ensures LenRef(ListRef(at), m.store) == Num(|Items(w.heap, at)|) && |Items(w.heap, at)| <= LIST_MAX
  {
  }

  lemma {:induction false} ForEachSim(st: Stmt, env: Env, loops: seq<LoopLabels>, s: Supply, w: World, m: Machine, o: Oracle, fuel: nat)
    requires st.kind.ForEach? && LowerStmt(st, env, loops, s).Lowered? && StmtFitting(st, env) && Agrees(env, w, m)
    ensures Follows(ExecStmt(st, w, o, Code(env, false), fuel), Run(LowerStmt(st, env, loops, s).code, m, o, fuel), env, loops, m, s)
    decreases fuel, BlockSize(st.kind.body), 4
  {
    hide LowerBlock, Fitting, Agrees, ExecEach, CountedCode, Run, EvalBoxed, Eval, ValueExpr, ResultFollows, RunInstr, Reaches, SetItem, Good, Kept;
    var ForEach(x, iterable, body) := st.kind;
    var it := ValueExpr(iterable, env).value;
    var n, t, s0 := s.marks, s.temps, WithCounter(WithScratch(s));
    var inner := loops + [LoopLabels(B(n), C(n))];
    var code := LowerBlock(body, env, inner, s0).code;
    var counted := CountedCode(n, Const(0), EachDone(n, t), SetItem(x, n, t), 1, code);
    ValueSim(iterable, env, w, m, o);
    RunCons(SetRef(Scratch(t), it), counted, m, o, fuel);
    SetRefRuns(Scratch(t), it, m, o, fuel);
    var v, g := Eval(iterable, w, o, Code(env, false)), EvalBoxed(it, m, o);
    if v.Ok? {
      var r := g.value;
      var m1 := g.m.(refs := g.m.refs[Scratch(t) := r]);
      HiddenRef(Scratch(t), r, env, v.world, g.m);
      EachFromStart(x, r, body, env, loops, s, v.world, m1, o, fuel);
      ScratchKept(g.m, t, 0, r, s);
      KeptOn(m, g.m, m1, s);
      FollowsEarlier(ExecStmt(st, w, o, Code(env, false), fuel), Run(counted, m1, o, fuel), env, loops, m, m1, s, s);
    }
  }

  /** Iterating over a value at hand: its items, or a type error on the first test. */
  function ExecItems(x: string, v: Value, body: Block, w: World, o: Oracle, r: Rules, fuel: nat): Outcome {
    if v.VList? then ExecEach(x, v.at, 0, body, w, o, r, fuel) else Stopped(TypeError, w.out)
  }

  lemma {:induction false} EachFromStart(x: string, r: Ref, body: Block, env: Env, loops: seq<LoopLabels>, s: Supply, w: World, m: Machine,
                                         o: Oracle, fuel: nat)
    requires var inner := loops + [LoopLabels(B(s.marks), C(s.marks))];
      LowerBlock(body, env, inner, WithCounter(WithScratch(s))).Lowered? && Fitting(body, env) && Agrees(env, w, m)
    requires RefAt(m, Scratch(s.temps)) == r && Good(r) && x in env.vars && x !in env.typed
    ensures var code := LowerBlock(body, env, loops + [LoopLabels(B(s.marks), C(s.marks))], WithCounter(WithScratch(s))).code;
      Follows(ExecItems(x, ValueOf(r), body, w, o, Code(env, false), fuel),
              Run(CountedCode(s.marks, Const(0), EachDone(s.marks, s.temps), SetItem(x, s.marks, s.temps), 1, code), m, o, fuel), env, loops, m, s)
    decreases fuel, BlockSize(body), 3
  {
    hide LowerBlock, Fitting, Agrees, ExecEach, CountedCode, CountedLoop, Run, EvalRaw, ResultFollows, RunInstr, Kept, SetItem, EachDone;
    var n, t, s0 := s.marks, s.temps, WithCounter(WithScratch(s));
    var inner := loops + [LoopLabels(B(n), C(n))];
    var code := LowerBlock(body, env, inner, s0).code;
    var loop := CountedLoop(n, EachDone(n, t), SetItem(x, n, t), 1, code);
    CountedCodeRuns(n, Const(0), EachDone(n, t), SetItem(x, n, t), 1, code, m, o, fuel);
    ConstRuns(0, m, o);
    var v := m.(raws := m.raws[Counter(n) := 0]);
    HiddenRaw(Counter(n), 0, env, w, m);
    AgreedOut(env, w, m);
    CounterKept(m, n, 0, s);
    assert RefAt(v, Scratch(t)) == r && RawAt(v, Counter(n)) == 0;
    if r.ListRef? {
      EachSim(x, r.at, body, t, n, env, inner, s, s0, w, v, o, fuel);
      var y := RunInstr(loop, v, o, fuel);
      LoopFollowsOn(ExecEach(x, r.at, 0, body, w, o, Code(env, false), fuel), y, n, env, m, v, s);
      LoopLands(ExecEach(x, r.at, 0, body, w, o, Code(env, false), fuel), y, n, env, loops, m, s);
    } else {
      CountedRuns(n, EachDone(n, t), SetItem(x, n, t), 1, code, v, o, fuel);
      EachDoneEvals(n, t, v, o);
    }
  }

  lemma ConstRuns(n: int, m: Machine, o: Oracle)
    ensures EvalRaw(Const(n), m, o) == Got(n, m)
  {
  }
}
