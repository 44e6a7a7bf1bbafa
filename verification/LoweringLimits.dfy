/** Where the compiled code departs from Python (src/codegen.rs, src/repr.rs) and exactly
    when it does not: range counters that pass 2^31, and names taken for whole numbers. */
module LoweringLimits {
  import opened Syntax
  import opened Values
  import opened SlotChoice
  import opened SlotInference
  import opened PythonSemantics
  import opened DefiniteAssignment
  import opened Machine
  import opened Lowering
  import opened RangeCounters
  import opened InferenceLimits
  import opened CompiledFunction
  import Gate

  // ------------------------------------------------------ a range that never ends

  /** `for i in range(0, 2147483647, 2): pass` */
  function EvenRange(): Source {
    Source([], false, [AsStmt(For("i", AsExpr(Int(0)), AsExpr(Int(0x7fff_ffff)), AsExpr(Int(2)), [AsStmt(Pass)], (0, 0)))], {}, {}, map[])
  }

  lemma {:induction false} PassGoesOn(x: string, c: int, end: int, step: int, w: World, o: Oracle, r: Rules, fuel: nat)
    ensures GoesOn(x, c, end, step, [AsStmt(Pass)], w, o, r, fuel)
    decreases fuel
  {
    var u := Bind(w, x, VInt(c));
    assert [AsStmt(Pass)][1..] == [];
    assert ExecStmt(AsStmt(Pass), u, o, r, fuel) == Next(u);
    assert ExecBlock([AsStmt(Pass)][1..], u, o, r, fuel) == Next(u);
    hide Exhausted, Stepped;
    assert PassOf(ExecBlock([AsStmt(Pass)], u, o, r, fuel)) == Again(u);
    var d := Stepped(c, step, r);
    if fuel > 0 && d.Num? { PassGoesOn(x, d.n, end, step, u, o, r, fuel - 1); }
  }

  lemma EvenRangeLowered()
    ensures Emitted(EvenRange()).Lowered? && !EnvOf(EvenRange()).scalar
  {
    hide Inferred, Ints, SurveyBlock, TopLevel.EachVars, Assigned;
    var f := EvenRange();
    var env, st := EnvOf(f), f.body[0];
    LiteralLowered(0, env);
    LiteralLowered(0x7fff_ffff, env);
    assert StepOf(AsExpr(Int(2))) == Some(2);
    PassLowered(env, [LoopLabels(B(0), C(0))], WithCounter(Supply(0, 0, [])));
    assert [] + [LoopLabels(B(0), C(0))] == [LoopLabels(B(0), C(0))];
    assert LowerStmt(st, env, [], Supply(0, 0, [])).Lowered?;
    var first := LowerStmt(st, env, [], Supply(0, 0, []));
    assert f.body[1..] == [];
    assert LowerBlock(f.body[1..], env, [], first.after) == Lowered([], first.after);
  }

  lemma LiteralLowered(n: nat, env: Env)
    requires Fits(n)
    ensures I32Expr(AsExpr(Int(n)), env).Some?
  {
  }

  lemma PassLowered(env: Env, loops: seq<LoopLabels>, s: Supply)
    ensures LowerBlock([AsStmt(Pass)], env, loops, s).Lowered?
  {
    assert [AsStmt(Pass)][1..] == [];
    assert LowerBlock([], env, loops, s) == Lowered([], s);
  }

  /** Python ends; the compiled function runs for ever, its counter going round. */
  lemma CounterWraps(w: World, m: Machine, o: Oracle)
    requires Entered(EvenRange(), w, m)
    ensures !Stays(0, I32_MAX, 2) && !ComesOut(0, I32_MAX, 2) && Emitted(EvenRange()).Lowered?
    ensures Invoked(EvenRange(), w, o, Python, 0x8000_0000).Returned?
    ensures forall fuel :: Invoke(Compilation(EvenRange()), m, o, fuel).Exhaustion?
  {
    hide EnvOf, Entered, Emitted, Invoke;
    var f := EvenRange();
    assert Last(0, I32_MAX, 2) == 0x8000_0000;
    assert PowerIn(2) == 2;
    EvenRangeLowered();
    var env := EnvOf(f);
    PassGoesOn("i", 0, I32_MAX, 2, w, o, Rules(Python, env, false), 0x8000_0000);
    PythonEnds("i", 0, I32_MAX, 2, [AsStmt(Pass)], w, o, env, 0x8000_0000);
    EvenRuns(w, o, Rules(Python, env, false), 0x8000_0000);
    forall fuel ensures Invoke(Compilation(f), m, o, fuel).Exhaustion? {
      PassGoesOn("i", 0, I32_MAX, 2, w, o, Rules(Compiled, env, false), fuel);
      CodeEndsExactly("i", 0, I32_MAX, 2, [AsStmt(Pass)], w, o, env, fuel);
      EvenRuns(w, o, Rules(Compiled, env, false), fuel);
      FunctionExact(f, w, m, o, fuel);
      TimesOutAlike(Invoked(f, w, o, Compiled, fuel), Invoke(Compilation(f), m, o, fuel), env);
    }
  }

  lemma EvenRuns(w: World, o: Oracle, r: Rules, fuel: nat)
    requires !r.how.Watched?
    ensures var y := ExecRange("i", 0, I32_MAX, 2, [AsStmt(Pass)], w, o, r, fuel);
      ExecBlock(EvenRange().body, w, o, r, fuel) == y
  {
    hide ExecRange, Scalar;
    var y := ExecRange("i", 0, I32_MAX, 2, [AsStmt(Pass)], w, o, r, fuel);
    forall n: nat, raw | Fits(n) ensures Eval(AsExpr(Int(n)), w, o, r.At(raw)) == Ok(VInt(n), w) {}
    hide Eval;
    assert Range(AsExpr(Int(0)), AsExpr(Int(0x7fff_ffff)), AsExpr(Int(2)), w, o, r) == From(0, I32_MAX, 2, w);
    assert ExecStmt(EvenRange().body[0], w, o, r, fuel) == y;
    assert EvenRange().body[1..] == [];
    if y.Next? { assert ExecBlock(EvenRange().body[1..], y.world, o, r, fuel) == y; }
  }

  // --------------------------------------------------- a name taken for a number

  /** A function whose body is the relay of nine names. */
  function RelayFunction(): Source { Source([], false, Relay(9), {}, {}, map[]) }

  lemma ZeroSurvey(x: string, rest: Block, defined: set<string>)
    ensures var b := [Set(x, Int(0))] + rest;
      && SurveyBlock(b, defined) == SurveyBlock(rest, defined + {x})
      && Assigned(b) == {x} + Assigned(rest) && TopLevel.EachVars(b) == TopLevel.EachVars(rest)
  {
    var b := [Set(x, Int(0))] + rest;
    assert b[0] == Set(x, Int(0)) && b[1..] == rest;
    assert Reads(AsExpr(Int(0))) == {};
    assert SurveyStmt(b[0], defined) == Survey(defined + {x}, {});
  }

  lemma {:induction false} InitsSurvey(j: nat, rest: Block, defined: set<string>)
    requires j <= 9
    ensures SurveyBlock(Inits(j, 9) + rest, defined) == SurveyBlock(rest, defined + (set i: nat | j <= i < 9 :: N(i)))
    ensures Assigned(Inits(j, 9) + rest) == (set i: nat | j <= i < 9 :: N(i)) + Assigned(rest)
    ensures TopLevel.EachVars(Inits(j, 9) + rest) == TopLevel.EachVars(rest)
    decreases 9 - j
  {
    hide SurveyBlock, Assigned, TopLevel.EachVars;
    var b := Inits(j, 9) + rest;
    if j < 9 {
      var more := set i: nat | j + 1 <= i < 9 :: N(i);
      assert b == [Set(N(j), Int(0))] + (Inits(j + 1, 9) + rest);
      ZeroSurvey(N(j), Inits(j + 1, 9) + rest, defined);
      InitsSurvey(j + 1, rest, defined + {N(j)});
      assert {N(j)} + more == (set i: nat | j <= i < 9 :: N(i));
      assert defined + {N(j)} + more == defined + ({N(j)} + more);
      assert {N(j)} + (more + Assigned(rest)) == ({N(j)} + more) + Assigned(rest);
    } else {
      assert b == rest;
      assert (set i: nat | j <= i < 9 :: N(i)) == {};
      assert defined + {} == defined && {} + Assigned(rest) == Assigned(rest);
    }
  }

  lemma {:induction false} CopiesSurvey(j: nat, defined: set<string>)
    requires 0 < j <= 9 && Names(9) <= defined
    ensures SurveyBlock(Copies(j, 9), defined).demoted == {} && Assigned(Copies(j, 9)) <= Names(9) && TopLevel.EachVars(Copies(j, 9)) == {}
    decreases 9 - j
  {
    if j < 9 {
      NameIn(j - 1, 9);
      NameIn(j, 9);
      assert Reads(AsExpr(Name(N(j - 1)))) == {N(j - 1)};
      CopiesSurvey(j + 1, defined + {N(j)});
    }
  }

  lemma BranchSurvey(defined: set<string>)
    requires Names(9) <= defined
    ensures SurveyBlock(Branch(9), defined).demoted == {} && Assigned(Branch(9)) <= Names(9) && TopLevel.EachVars(Branch(9)) == {}
  {
    hide Copies;
    var b, s := Branch(9), Set(N(0), Bool(true));
    assert b[0] == s && b[1..] == Copies(1, 9);
    NameIn(0, 9);
    assert Reads(AsExpr(Bool(true))) == {};
    CopiesSurvey(1, defined + {N(0)});
    assert SurveyStmt(s, defined) == Survey(defined + {N(0)}, {}) && AssignedBy(s) == {N(0)} && TopLevel.EachVarsOf(s) == {};
    hide SurveyStmt, AssignedBy, TopLevel.EachVarsOf, Names;
  }

  lemma TailSurvey(defined: set<string>)
    requires Names(9) <= defined
    ensures SurveyBlock(Tail(9), defined).demoted == {} && Assigned(Tail(9)) <= Names(9) && TopLevel.EachVars(Tail(9)) == {}
  {
    hide Branch;
    var b := Tail(9);
    var last := PrintOf(N(8));
    assert b[0] == Guarded(9) && b[1..] == [last] && b[1..][0] == last && b[1..][1..] == [];
    BranchSurvey(defined);
    NameIn(8, 9);
    ReadsOfPrint();
    assert SurveyStmt(last, defined) == Survey(defined, {});
    assert SurveyBlock(b[1..], defined).demoted == {};
    assert SurveyBlock([], defined).demoted == {} && Assigned([]) == {} && TopLevel.EachVars([]) == {};
    assert Reads(AsExpr(Bool(true))) == {} && SurveyArms([], defined) == {} && AssignedInArms([]) == {} && TopLevel.EachVarsInArms([]) == {};
    assert SurveyStmt(Guarded(9), defined) == Survey(defined, {});
    assert AssignedBy(Guarded(9)) == Assigned(Branch(9)) && TopLevel.EachVarsOf(Guarded(9)) == {};
    assert Assigned(b[1..]) == {} && TopLevel.EachVars(b[1..]) == {};
  }

  lemma ReadsOfPrint()
    ensures Reads(PrintOf(N(8)).kind.expr) == {N(8)}
  {
    var args := [AsExpr(Name(N(8)))];
    assert args[1..] == [];
    assert ReadsAll(args) == Reads(args[0]) + ReadsAll([]);
  }

  /** The compiler keeps the ninth name raw. */
  lemma RelaySlots()
    ensures NineNames(EnvOf(RelayFunction())) && !EnvOf(RelayFunction()).scalar
  {
    hide Inferred, SurveyBlock, Assigned, Inits, Tail, TopLevel.EachVars;
    var f := RelayFunction();
    var all := set i: nat | 0 <= i < 9 :: N(i);
    assert all == Names(9);
    InitsSurvey(0, Tail(9), {});
    assert {} + all == all;
    TailSurvey(all);
    assert Locals(f) == Names(9);
    assert GivenBy(f) == map[];
    StopsTooEarly(9);
    assert (set j: nat | 8 <= j < 9 :: N(j)) == {N(8)} by { assert N(8) in (set j: nat | 8 <= j < 9 :: N(j)); }
    assert RawNames(f) == {};
  }

  lemma {:induction false} AssignsLowered(b: Block, rest: Block, env: Env, s: Supply)
    requires forall st :: st in b ==> st.kind.Assign? && ValueExpr(st.kind.value, env).Some?
    requires LowerBlock(rest, env, [], s).Lowered?
    ensures LowerBlock(b + rest, env, [], s).Lowered?
    decreases |b|
  {
    hide ValueExpr;
    if b == [] {
      assert b + rest == rest;
    } else {
      var all := b + rest;
      assert all[0] == b[0] && all[1..] == b[1..] + rest;
      AssignsLowered(b[1..], rest, env, s);
      assert LowerStmt(all[0], env, [], s).Lowered? && LowerStmt(all[0], env, [], s).after == s;
    }
  }

  lemma {:induction false} InitsPlain(j: nat, env: Env)
    ensures forall st :: st in Inits(j, 9) ==> st.kind.Assign? && ValueExpr(st.kind.value, env).Some?
    decreases 9 - j
  {
    if j < 9 {
      assert ValueExpr(AsExpr(Int(0)), env) == Some(RefI31(0));
      InitsPlain(j + 1, env);
    }
  }

  lemma {:induction false} CopiesPlain(j: nat, env: Env)
    requires 0 < j && NineNames(env)
    ensures forall st :: st in Copies(j, 9) ==> st.kind.Assign? && ValueExpr(st.kind.value, env).Some?
    decreases 9 - j
  {
    if j < 9 {
      NameIn(j - 1, 9);
      assert ValueExpr(AsExpr(Name(N(j - 1))), env).Some?;
      CopiesPlain(j + 1, env);
    }
  }

  lemma RelayLowered()
    ensures Emitted(RelayFunction()).Lowered?
  {
    hide EnvOf, LowerBlock, Tail, Inits, NineNames, ValueExpr;
    RelaySlots();
    var env, s := EnvOf(RelayFunction()), Supply(0, 0, []);
    BranchLowered(env, s);
    GuardedLowered(env, s);
    InitsPlain(0, env);
    AssignsLowered(Inits(0, 9), Tail(9), env, s);
  }

  lemma BranchLowered(env: Env, s: Supply)
    requires NineNames(env)
    ensures LowerBlock(Branch(9), env, [], s).Lowered?
  {
    CopiesPlain(1, env);
    assert ValueExpr(AsExpr(Bool(true)), env) == Some(BoolConst(true));
    EmptyLowered(env, s);
    hide ValueExpr, LowerBlock, Copies, NineNames;
    AssignsLowered(Branch(9), [], env, s);
    assert Branch(9) + [] == Branch(9);
  }

  lemma EmptyLowered(env: Env, s: Supply)
    ensures LowerBlock([], env, [], s) == Lowered([], s)
  {
  }

  lemma GuardedLowered(env: Env, s: Supply)
    requires NineNames(env) && LowerBlock(Branch(9), env, [], s).Lowered?
    ensures LowerBlock(Tail(9), env, [], s).Lowered?
  {
    hide Branch, ValueExpr;
    EmptyLowered(env, LowerBlock(Branch(9), env, [], s).after);
    assert CondI32(AsExpr(Bool(true)), env) == Some(Const(1));
    var first := LowerStmt(Guarded(9), env, [], s);
    assert first.Lowered?;
    PrintLowered(env);
    var last := PrintOf(N(8));
    assert LowerStmt(last, env, [], first.after).Lowered?;
    EmptyLowered(env, LowerStmt(last, env, [], first.after).after);
    var b := Tail(9);
    assert b[0] == Guarded(9) && b[1..] == [last] && b[1..][0] == last && b[1..][1..] == [];
    assert LowerBlock(b[1..], env, [], first.after).Lowered?;
  }

  lemma PrintLowered(env: Env)
    requires NineNames(env)
    ensures PrintCode([AsExpr(Name(N(8)))], env).Some?
  {
    NameIn(8, 9);
    assert [AsExpr(Name(N(8)))][1..] == [];
  }

  /** Where Python prints `True` the compiled function prints `1`. */
  lemma RelayMisprints(w: World, m: Machine, o: Oracle, fuel: nat)
    requires Entered(RelayFunction(), w, m)
    ensures Emitted(RelayFunction()).Lowered?
    ensures Out(Invoked(RelayFunction(), w, o, Python, fuel)) == w.out + [Shown(VBool(true), w.heap), Newline]
    ensures OutOfExit(Invoke(Compilation(RelayFunction()), m, o, fuel)) == w.out + [Shown(VInt(1), w.heap), Newline]
  {
    hide EnvOf, Entered, Emitted, Invoke, ExecBlock, Relay, Compilation;
    var f := RelayFunction();
    RelayLowered();
    RelaySlots();
    EightRoundsTooFew(EnvOf(f), w, o, fuel);
    FunctionExact(f, w, m, o, fuel);
    SameOut(Invoked(f, w, o, Compiled, fuel), Invoke(Compilation(f), m, o, fuel), EnvOf(f));
  }

  // ------------------------------------------------------------- past the gate

  /** The checker lets both functions through, in any program that leaves `print` alone. */
  lemma BothAccepted(sigs: map<string, Gate.Surface>)
    requires "print" !in sigs
    ensures Gate.Accepts(EvenRange().params, EvenRange().returnsInt, EvenRange().body, sigs)
    ensures Gate.Accepts(RelayFunction().params, RelayFunction().returnsInt, RelayFunction().body, sigs)
  {
    hide Gate.Accepts, Gate.Unremarkable, Relay;
    RelayUnremarkable();
    EvenUnremarkable();
    Gate.UnremarkableReaches([], EvenRange().body, sigs);
    Gate.UnremarkableReaches([], Relay(9), sigs);
  }

  /** Nor is there anything to find in `def f(): return b` with `a = f(); b = 1`, the program
      that calls f too early. */
  lemma TooEarlyAccepted()
    ensures var sigs := map["f" := Gate.Surface([], Gate.TyDyn)];
      var p := TopLevel.Defs(["f"], TopLevel.Reader("b")) + [Set("a", Call("f", [])), Set("b", Int(1))];
      Gate.Checked(p, map[], sigs, Gate.TyDyn).found == [] && Gate.Accepts([], false, TopLevel.Reader("b"), sigs)
  {
    var sigs: map<string, Gate.Surface> := map["f" := Gate.Surface([], Gate.TyDyn)];
    var d, a, b := AsStmt(Def("f", [], TopLevel.Reader("b"))), Set("a", Call("f", [])), Set("b", Int(1));
    var p := TopLevel.Defs(["f"], TopLevel.Reader("b")) + [a, b];
    assert ["f"][1..] == [] && TopLevel.Defs([], TopLevel.Reader("b")) == [];
    assert p == [d, a, b] && p[1..] == [a, b] && p[1..][1..] == [b] && p[1..][1..][1..] == [];
    var env0: Gate.Facts := map[];
    var env1 := env0["f" := Gate.TyFunc];
    var env2 := env1["a" := Gate.TyDyn];
    var env3 := env2["b" := Gate.TyInt];
    assert Gate.CheckedStmt(d, env0, sigs, Gate.TyDyn) == Gate.Walk(env1, []);
    assert Gate.CheckedStmt(a, env1, sigs, Gate.TyDyn) == Gate.Walk(env2, []);
    assert Gate.CheckedStmt(b, env2, sigs, Gate.TyDyn) == Gate.Walk(env3, []);
    assert Gate.Checked([], env3, sigs, Gate.TyDyn).found == [];
    assert Gate.Checked([b], env2, sigs, Gate.TyDyn).found == [];
    assert Gate.Checked([a, b], env1, sigs, Gate.TyDyn).found == [];
    ReaderAccepted(sigs);
  }

  lemma ReaderAccepted(sigs: map<string, Gate.Surface>)
    requires sigs.Keys == {"f"}
    ensures Gate.Accepts([], false, TopLevel.Reader("b"), sigs)
  {
    var b, none: Gate.Facts := TopLevel.Reader("b"), map[];
    assert b[1..] == [] && b[|b| - 1] == b[0] && MissingReturn.ChildBlocks(b[0]) == [];
    assert MissingReturn.FirstReturn([], false) == None && MissingReturn.FirstIn([], false) == None;
    assert MissingReturn.FirstReturn(b, false) == None;
    assert Gate.CheckedStmt(b[0], none, sigs, Gate.TyDyn) == Gate.Walk(none, []);
    assert Gate.Checked([], none, sigs, Gate.TyDyn).found == [];
  }

  lemma EvenUnremarkable()
    ensures Gate.Unremarkable(EvenRange().body)
  {
    assert [AsStmt(Pass)][1..] == [] && EvenRange().body[1..] == [];
    assert Gate.Unremarkable([AsStmt(Pass)]);
  }

  lemma {:induction false} AllUnremarkable(b: Block)
    requires forall s :: s in b ==> Gate.UnremarkableStmt(s)
    ensures Gate.Unremarkable(b)
    decreases |b|
  {
    hide Gate.UnremarkableStmt;
    if b != [] { AllUnremarkable(b[1..]); }
  }

  lemma {:induction false} InitsUnremarkable(j: nat, n: nat)
    ensures forall s :: s in Inits(j, n) ==> Gate.UnremarkableStmt(s)
    decreases n - j
  {
    if j < n {
      assert N(j)[0] == 'x' && "print"[0] == 'p';
      InitsUnremarkable(j + 1, n);
    }
  }

  lemma {:induction false} CopiesUnremarkable(j: nat, n: nat)
    requires j > 0
    ensures forall s :: s in Copies(j, n) ==> Gate.UnremarkableStmt(s)
    decreases n - j
  {
    if j < n {
      assert N(j)[0] == 'x' && "print"[0] == 'p';
      CopiesUnremarkable(j + 1, n);
    }
  }

  lemma {:induction false} UnremarkableSum(a: Block, b: Block)
    requires Gate.Unremarkable(a) && Gate.Unremarkable(b)
    ensures Gate.Unremarkable(a + b)
    decreases |a|
  {
    hide Gate.UnremarkableStmt;
    if a == [] {
      assert a + b == b;
    } else {
      assert (a + b)[0] == a[0] && (a + b)[1..] == a[1..] + b;
      UnremarkableSum(a[1..], b);
    }
  }

  lemma PairUnremarkable(a: Stmt, b: Stmt)
    requires Gate.UnremarkableStmt(a) && Gate.UnremarkableStmt(b)
    ensures Gate.Unremarkable([a] + [b])
  {
    hide Gate.UnremarkableStmt, Gate.Unremarkable;
    AllUnremarkable([a] + [b]);
  }

  lemma RelayUnremarkable()
    ensures Gate.Unremarkable(Relay(9))
  {
    InitsUnremarkable(0, 9);
    BranchUnremarkable();
    PrintUnremarkable(N(8));
    hide Inits, Guarded, PrintOf, N, Gate.UnremarkableStmt, Gate.Unremarkable;
    AllUnremarkable(Inits(0, 9));
    PairUnremarkable(Guarded(9), PrintOf(N(8)));
    UnremarkableSum(Inits(0, 9), Tail(9));
  }

  lemma BranchUnremarkable()
    ensures Gate.UnremarkableStmt(Guarded(9))
  {
    CopiesUnremarkable(1, 9);
    FirstUnremarkable();
    NoneUnremarkable();
    hide Copies, Gate.Unremarkable, Gate.UnremarkableArms, Gate.UnremarkableStmt;
    var first := Set(N(0), Bool(true));
    forall s | s in Branch(9) ensures Gate.UnremarkableStmt(s) { assert s == first || s in Copies(1, 9); }
    AllUnremarkable(Branch(9));
    GuardUnremarkable();
  }

  lemma FirstUnremarkable()
    ensures Gate.UnremarkableStmt(Set(N(0), Bool(true)))
  {
    assert N(0)[0] == 'x' && "print"[0] == 'p';
  }

  lemma GuardUnremarkable()
    requires Gate.Unremarkable(Branch(9)) && Gate.UnremarkableArms([]) && Gate.Unremarkable([])
    ensures Gate.UnremarkableStmt(Guarded(9))
  {
    hide Branch, Gate.Unremarkable, Gate.UnremarkableArms;
    assert Gate.CallFree(AsExpr(Bool(true)));
  }

  lemma PrintUnremarkable(x: string)
    ensures Gate.UnremarkableStmt(PrintOf(x))
  {
    assert Gate.AllCallFree([AsExpr(Name(x))]);
  }

  lemma NoneUnremarkable()
    ensures Gate.UnremarkableArms([]) && Gate.Unremarkable([])
  {
  }
}
