/** Lowered statements follow the rules of compiled code (src/codegen.rs): with equal fuel
    the emitted `block`/`loop`/`br` code ends the same way, in a machine that agrees with the
    program, and no loop touches the hidden counters and snapshots of another. */
module StatementSimulation {
  import opened Syntax
  import opened Values
  import opened SlotChoice
  import opened PythonSemantics
  import opened Machine
  import opened Lowering
  import opened ExpressionSimulation

  // ------------------------------------------------------------- assumptions

  /** A body assigns names of its own only, and binds list items to boxed ones. */
  predicate Fitting(b: Syntax.Block, env: Env)
    decreases BlockSize(b), 1
  {
    b == [] || (StmtFitting(b[0], env) && Fitting(b[1..], env))
  }

  predicate StmtFitting(s: Stmt, env: Env)
    decreases StmtSize(s), 0
  {
    match s.kind
    case Assign(x, _) => x in env.vars
    case AnnAssign(x, _, _) => x in env.vars
    case If(_, body, elifs, orelse) => Fitting(body, env) && ArmsFitting(elifs, env) && Fitting(ElseOf(orelse), env)
    case While(_, body) => Fitting(body, env)
    case For(x, _, _, _, body, _) => x in env.vars && Fitting(body, env)
    case ForEach(x, _, body) => x in env.vars && x !in env.typed && Fitting(body, env)
    case _ => true
  }

  predicate ArmsFitting(elifs: seq<Arm>, env: Env)
    decreases ArmsSize(elifs), 1
  {
    elifs == [] || (Fitting(elifs[0].body, env) && ArmsFitting(elifs[1..], env))
  }

  // --------------------------------------------------------------- relations

  /** The counters and temporaries handed out before `s` are untouched. */
  ghost predicate Kept(m: Machine, v: Machine, s: Supply) {
    && (forall n :: 0 <= n < s.marks ==> RawAt(v, Counter(n)) == RawAt(m, Counter(n)))
    && (forall n :: 0 <= n < s.temps ==> RawAt(v, Scratch(n)) == RawAt(m, Scratch(n)) && RefAt(v, Scratch(n)) == RefAt(m, Scratch(n)))
  }

  ghost predicate Reaches(env: Env, w: World, m: Machine, v: Machine, s: Supply) {
    Agrees(env, w, v) && Kept(m, v, s)
  }

  /** The result slot holds what is returned; a raw slot holds numbers. */
  ghost predicate ResultFollows(r: Option<Value>, w: World, x: Exit, env: Env) {
    && x.Left? && Agrees(env, w, x.m)
    && if env.scalar && r.Some? then x.slot.RawSlot? && r.value == VInt(x.slot.n) && Fits(x.slot.n)
       else x.slot.RefSlot? && Good(x.slot.r) && ValueOf(x.slot.r) == (if r.None? then VNone else r.value)
  }

  /** The machine's exit is the program's outcome. */
  ghost predicate Follows(y: Outcome, x: Exit, env: Env, loops: seq<LoopLabels>, m: Machine, s: Supply) {
    match y
    case Next(w) => x.Fall? && Reaches(env, w, m, x.m, s)
    case Broke(w) => loops != [] && x.Jump? && x.name == loops[|loops| - 1].brk && Reaches(env, w, m, x.m, s)
    case Continued(w) => loops != [] && x.Jump? && x.name == loops[|loops| - 1].cont && Reaches(env, w, m, x.m, s)
    case Returned(r, w) => ResultFollows(r, w, x, env)
    case Stopped(k, out) => k.NameError? || x == Trapped(k, out)
    case Timeout(out) => x == Exhaustion(out)
  }

  /** The same for a loop's code, which leaves by a branch to the end of its block. */
  ghost predicate LoopFollows(y: Outcome, x: Exit, n: nat, env: Env, m: Machine, s: Supply) {
    if y.Next? then x.Jump? && x.name == B(n) && Reaches(env, y.world, m, x.m, s)
    else !y.Broke? && !y.Continued? && Follows(y, x, env, [], m, s)
  }

  lemma LoopLands(y: Outcome, x: Exit, n: nat, env: Env, loops: seq<LoopLabels>, m: Machine, s: Supply)
    requires LoopFollows(y, x, n, env, m, s)
    ensures Follows(y, Landed(B(n), x), env, loops, m, s)
  {
    hide Reaches, ResultFollows;
    assert y.Returned? ==> x.Left? by { if y.Returned? { ResultLeaves(y.result, y.world, x, env); } }
  }

  lemma ResultLeaves(r: Option<Value>, w: World, x: Exit, env: Env)
    requires ResultFollows(r, w, x, env)
    ensures x.Left?
  {
  }

  // --------------------------------------------------------- running sequences

  /** Carrying on after an instruction that falls through. */
  function Then(x: Exit, rest: seq<Instr>, o: Oracle, fuel: nat): Exit {
    if x.Fall? then Run(rest, x.m, o, fuel) else x
  }

  lemma RunCons(i: Instr, rest: seq<Instr>, m: Machine, o: Oracle, fuel: nat)
    ensures Run([i] + rest, m, o, fuel) == Then(RunInstr(i, m, o, fuel), rest, o, fuel)
  {
    assert ([i] + rest)[0] == i && ([i] + rest)[1..] == rest;
  }

  lemma {:induction false} RunAppend(a: seq<Instr>, b: seq<Instr>, m: Machine, o: Oracle, fuel: nat)
    ensures Run(a + b, m, o, fuel) == Then(Run(a, m, o, fuel), b, o, fuel)
    decreases |a|
  {
    if a == [] {
      assert a + b == b;
    } else {
      assert (a + b)[0] == a[0] && (a + b)[1..] == a[1..] + b;
      var x := RunInstr(a[0], m, o, fuel);
      if x.Fall? { RunAppend(a[1..], b, x.m, o, fuel); }
    }
  }

  lemma RunOne(i: Instr, m: Machine, o: Oracle, fuel: nat)
    ensures Run([i], m, o, fuel) == RunInstr(i, m, o, fuel)
  {
    assert [i][1..] == [];
  }

  // ------------------------------------------------------------ simple updates

  /** Computing an expression touches no counter and no temporary. */
  lemma KeptSlots(m: Machine, v: Machine, s: Supply)
    requires SameSlots(m, v)
    ensures Kept(m, v, s)
  {
  }

  /** Storing a whole number in a typed variable. */
  lemma StoreRaw(x: string, n: int, env: Env, w: World, m: Machine, s: Supply)
    requires Agrees(env, w, m) && x in env.typed && x in env.vars && Fits(n)
    ensures Reaches(env, Bind(w, x, VInt(n)), m, m.(raws := m.raws[Var(x) := n]), s)
  {
    var v, u := m.(raws := m.raws[Var(x) := n]), Bind(w, x, VInt(n));
    forall y ensures SlotAgrees(y, env, u, v) { assert SlotAgrees(y, env, w, m); }
  }

  /** Storing a value in a boxed variable. */
  lemma StoreRef(x: string, r: Ref, env: Env, w: World, m: Machine, s: Supply)
    requires Agrees(env, w, m) && x in env.vars && x !in env.typed && Good(r)
    ensures Reaches(env, Bind(w, x, ValueOf(r)), m, m.(refs := m.refs[Var(x) := r]), s)
  {
    var v, u := m.(refs := m.refs[Var(x) := r]), Bind(w, x, ValueOf(r));
    forall y ensures SlotAgrees(y, env, u, v) { assert SlotAgrees(y, env, w, m); }
  }

  /** Compiler bookkeeping is invisible to the program. */
  lemma HiddenRaw(y: Local, n: int, env: Env, w: World, m: Machine)
    requires Agrees(env, w, m) && !y.Var?
    ensures Agrees(env, w, m.(raws := m.raws[y := n]))
  {
    var v := m.(raws := m.raws[y := n]);
    forall x ensures SlotAgrees(x, env, w, v) { assert SlotAgrees(x, env, w, m); }
  }

  lemma HiddenRef(y: Local, r: Ref, env: Env, w: World, m: Machine)
    requires Agrees(env, w, m) && !y.Var?
    ensures Agrees(env, w, m.(refs := m.refs[y := r]))
  {
    var v := m.(refs := m.refs[y := r]);
    forall x ensures SlotAgrees(x, env, w, v) { assert SlotAgrees(x, env, w, m); }
  }

  /** Keeping through two steps, the second of which starts with at least as much. */
  lemma KeptOn(m: Machine, u: Machine, v: Machine, s: Supply)
    requires SameSlots(m, u) && Kept(u, v, s)
    ensures Kept(m, v, s)
  {
  }

  // ------------------------------------------------------- simple statements

  lemma SetRawRuns(y: Local, a: Raw, m: Machine, o: Oracle, fuel: nat)
    ensures var g := EvalRaw(a, m, o);
      RunInstr(SetRaw(y, a), m, o, fuel) == if g.Trap? then Trapped(g.error, g.out) else Fall(g.m.(raws := g.m.raws[y := g.value]))
  {
    hide EvalRaw;
  }

  lemma SetRefRuns(y: Local, r: Boxed, m: Machine, o: Oracle, fuel: nat)
    ensures var g := EvalBoxed(r, m, o);
      RunInstr(SetRef(y, r), m, o, fuel) == if g.Trap? then Trapped(g.error, g.out) else Fall(g.m.(refs := g.m.refs[y := g.value]))
  {
    hide EvalBoxed;
  }

  lemma AssignSim(x: string, e: Expr, env: Env, loops: seq<LoopLabels>, s: Supply, w: World, m: Machine, o: Oracle, fuel: nat)
    requires Agrees(env, w, m) && x in env.vars && ValueExpr(e, env).Some?
    ensures Follows(ExecAssign(x, e, w, o, Code(env, false)), RunInstr(StoreTo(x, e, ValueExpr(e, env).value, env), m, o, fuel), env, loops, m, s)
  {
    hide Agrees, Eval, EvalRaw, EvalBoxed, ValueExpr, SlotExpr, Good, ValueOf, Kept, Scalar, Unboxed;
    if x in env.typed {
      SlotSim(e, env, w, m, o);
      var g := EvalRaw(SlotExpr(e, ValueExpr(e, env).value, env), m, o);
      SetRawRuns(Var(x), SlotExpr(e, ValueExpr(e, env).value, env), m, o, fuel);
      var v := Eval(e, w, o, Code(env, Scalar(e, env)));
      if v.Ok? && Unboxed(v.value).Num? {
        StoreRaw(x, g.value, env, v.world, g.m, s);
        KeptOn(m, g.m, g.m.(raws := g.m.raws[Var(x) := g.value]), s);
      }
    } else {
      ValueSim(e, env, w, m, o);
      var g := EvalBoxed(ValueExpr(e, env).value, m, o);
      SetRefRuns(Var(x), ValueExpr(e, env).value, m, o, fuel);
      var v := Eval(e, w, o, Code(env, false));
      if v.Ok? {
        StoreRef(x, g.value, env, v.world, g.m, s);
        KeptOn(m, g.m, g.m.(refs := g.m.refs[Var(x) := g.value]), s);
      }
    }
  }

  lemma ReturnSim(e: Expr, env: Env, loops: seq<LoopLabels>, s: Supply, w: World, m: Machine, o: Oracle, fuel: nat)
    requires Agrees(env, w, m) && LowerReturn(Some(e), env, s).Lowered?
    ensures Follows(ExecReturn(e, w, o, Code(env, false)), RunInstr(LowerReturn(Some(e), env, s).code[0], m, o, fuel), env, loops, m, s)
  {
    hide Eval, ValueExpr, ScalarExpr, EvalBoxed, EvalRaw, Good, Agrees, ValueOf, Scalar, Unboxed;
    ScalarCovered(e, env);
    if env.scalar && ScalarExpr(e, env).Some? {
      ScalarSim(e, env, w, m, o);
      CoercedNumber(e, Misfit("return"), env, w, o);
    } else {
      ValueSim(e, env, w, m, o);
      if env.scalar { UnboxSim(e, env, w, m, o); }
    }
  }

  lemma {:induction false} PrintSim(args: seq<Expr>, env: Env, loops: seq<LoopLabels>, s: Supply, w: World, m: Machine, o: Oracle, fuel: nat)
    requires Agrees(env, w, m) && PrintCode(args, env).Some?
    ensures Follows(PrintEach(args, w, o, Code(env, false)), Run(PrintCode(args, env).value, m, o, fuel), env, loops, m, s)
    decreases |args|
  {
    hide Agrees, Eval, ValueExpr, EvalBoxed, Run, RunInstr;
    if args == [] {
      Written(Newline, env, w, m, o, fuel);
      RunOne(WriteChar(Newline), m, o, fuel);
      KeptSlots(m, m.(out := m.out + [Newline]), s);
    } else {
      var v, rest := ValueExpr(args[0], env).value, PrintCode(args[1..], env).value;
      ItemSim(args[0], env, w, m, o, fuel);
      RunCons(PrintValue(v), (if |args| == 1 then [] else [WriteChar(Space)]) + rest, m, o, fuel);
      PrintSplit(args, env);
      var y := PrintItem(args[0], w, o, Code(env, false));
      if y.Ok? {
        var x := RunInstr(PrintValue(v), m, o, fuel).m;
        var (w1, m1) := if |args| == 1 then (y.world, x) else (Put(y.world, Space), x.(out := x.out + [Space]));
        if |args| > 1 {
          Written(Space, env, y.world, x, o, fuel);
          RunCons(WriteChar(Space), rest, x, o, fuel);
        }
        assert [] + rest == rest;
        PrintSim(args[1..], env, loops, s, w1, m1, o, fuel);
        FollowsOn(PrintEach(args[1..], w1, o, Code(env, false)), Run(rest, m1, o, fuel), env, loops, m, m1, s);
      }
    }
  }

  /** One argument printed. */
  function PrintItem(e: Expr, w: World, o: Oracle, r: Rules): Evaluated {
    match Eval(e, w, o, r.At(false)) case Ok(v, u) => Printed(v, u) case f => f
  }

  lemma PrintSplit(args: seq<Expr>, env: Env)
    requires args != [] && PrintCode(args, env).Some?
    ensures ValueExpr(args[0], env).Some? && PrintCode(args[1..], env).Some?
    ensures PrintCode(args, env).value ==
            [PrintValue(ValueExpr(args[0], env).value)] + ((if |args| == 1 then [] else [WriteChar(Space)]) + PrintCode(args[1..], env).value)
  {
    hide ValueExpr;
  }

  lemma Written(t: Token, env: Env, w: World, m: Machine, o: Oracle, fuel: nat)
    requires Agrees(env, w, m)
    ensures RunInstr(WriteChar(t), m, o, fuel) == Fall(m.(out := m.out + [t]))
    ensures Agrees(env, Put(w, t), m.(out := m.out + [t]))
  {
    NewHeap(env, w, m, Put(w, t), m.(out := m.out + [t]));
  }

  lemma ItemSim(e: Expr, env: Env, w: World, m: Machine, o: Oracle, fuel: nat)
    requires Agrees(env, w, m) && ValueExpr(e, env).Some?
    ensures var y, x := PrintItem(e, w, o, Code(env, false)), RunInstr(PrintValue(ValueExpr(e, env).value), m, o, fuel);
      if y.Ok? then x.Fall? && Agrees(env, y.world, x.m) && SameSlots(m, x.m) else y.error.NameError? || x == Trapped(y.error, y.out)
  {
    hide Agrees, Eval, ValueExpr, EvalBoxed, HeapOf;
    ValueSim(e, env, w, m, o);
    var v, g := Eval(e, w, o, Code(env, false)), EvalBoxed(ValueExpr(e, env).value, m, o);
    if v.Ok? {
      SameQuestion(env, v.world, g.m);
      if v.value != VNull {
        var shown := Shown(v.value, v.world.heap);
        Written(shown, env, v.world, g.m, o, fuel);
      }
    }
  }

  /** What follows from `v` follows from `m`, if nothing in between touched a slot. */
  lemma FollowsOn(y: Outcome, x: Exit, env: Env, loops: seq<LoopLabels>, m: Machine, v: Machine, s: Supply)
    requires Follows(y, x, env, loops, v, s) && SameSlots(m, v)
    ensures Follows(y, x, env, loops, m, s)
  {
    hide Agrees;
  }

  lemma ExprSim(e: Expr, env: Env, loops: seq<LoopLabels>, s: Supply, w: World, m: Machine, o: Oracle, fuel: nat)
    requires Agrees(env, w, m) && LowerCall(e, env, s).Lowered?
    ensures Follows(ExecExpr(e, w, o, Code(env, false)), Run(LowerCall(e, env, s).code, m, o, fuel), env, loops, m, s)
  {
    hide Eval, ValueExpr, EvalBoxed, Agrees, Good, ValueOf, PrintCode, PrintEach, Kept;
    if e.kind.Call? && e.kind.func == "print" {
      PrintSim(e.kind.args, env, loops, s, w, m, o, fuel);
    } else {
      ValueSim(e, env, w, m, o);
      var v := ValueExpr(e, env).value;
      RunOne(Drop(v), m, o, fuel);
      if EvalBoxed(v, m, o).Got? { KeptSlots(m, EvalBoxed(v, m, o).m, s); }
    }
  }
}
