/** Annotations that the compiled code takes at their word (src/codegen.rs, src/repr.rs): a
    name annotated `int`, a result declared `int`, and a `len` of the program's own. */
module TrustedAnnotations {
  import opened Syntax
  import opened Values
  import opened SlotChoice
  import opened SlotInference
  import opened PythonSemantics
  import opened DefiniteAssignment
  import opened Machine
  import opened Lowering
  import opened ExpressionSimulation
  import opened ProperRuns
  import opened Departures
  import opened InferenceLimits
  import opened CompiledFunction
  import opened LoweringLimits

  // ----------------------------------------------------------- annotated names

  /** `def f(...): n: int = e; t = n; print(t)` */
  function Believer(params: seq<Param>, e: Expr, sigs: map<string, Sig>): Source {
    Source(params, false, [AsStmt(AnnAssign("n", e, true)), Set("t", Name("n")), PrintOf("t")], {}, {}, sigs)
  }

  /** `e` reads parameters only, and they have other names. */
  predicate OverParams(params: seq<Param>, e: Expr) {
    "n" !in ParamNames(params) && "t" !in ParamNames(params) && Reads(e) <= ParamNames(params)
  }

  lemma Three(a: Stmt, b: Stmt, c: Stmt)
    ensures var all := [a, b, c];
      all[0] == a && all[1..] == [b, c] && all[1..][0] == b && all[1..][1..] == [c] && all[1..][1..][0] == c && all[1..][1..][1..] == []
  {
  }

  /** The annotation is not checked, and it makes `t` a whole number. */
  lemma BelieverSlots(params: seq<Param>, e: Expr, sigs: map<string, Sig>)
    requires OverParams(params, e)
    ensures var env := EnvOf(Believer(params, e, sigs));
      env.typed == {"t"} + RawNames(Believer(params, e, sigs)) && env.vars == ParamNames(params) + {"n", "t"} && !env.scalar && !env.top
  {
    var f := Believer(params, e, sigs);
    var b := f.body;
    Three(b[0], b[1], b[2]);
    BelieverAssigns(e);
    BelieverInferred(params, e, sigs);
    BelieverSurvey(e);
    BelieverFallsOff(e);
    hide Inferred, Ints, SurveyBlock, TopLevel.EachVars, Assigned, MissingReturn.AllPathsReturn;
    assert RawNames(f) <= ParamNames(params);
  }

  function BodyOf(e: Expr): Block { Believer([], e, map[]).body }

  lemma BelieverAssigns(e: Expr)
    ensures Assigned(BodyOf(e)) == {"n", "t"} && TopLevel.EachVars(BodyOf(e)) == {}
  {
    var b := BodyOf(e);
    Three(b[0], b[1], b[2]);
    assert Assigned([]) == {} && Assigned(b[1..][1..]) == {} && Assigned(b[1..]) == {"t"};
    assert TopLevel.EachVars([]) == {} && TopLevel.EachVars(b[1..][1..]) == {} && TopLevel.EachVars(b[1..]) == {};
  }

  lemma BelieverFallsOff(e: Expr)
    ensures !MissingReturn.AllPathsReturn(BodyOf(e))
  {
  }

  lemma BelieverDeclares(e: Expr, given: Given)
    requires "n" !in given
    ensures Declared(BodyOf(e), given) == given["n" := true]
  {
    var b, more := BodyOf(e), given["n" := true];
    Three(b[0], b[1], b[2]);
    assert DeclaredBy(b[0], given) == more && DeclaredBy(b[1], more) == more && DeclaredBy(b[2], more) == more;
    assert Declared([], more) == more && Declared(b[1..][1..], more) == more && Declared(b[1..], more) == more;
  }

  lemma BelieverInferred(params: seq<Param>, e: Expr, sigs: map<string, Sig>)
    requires OverParams(params, e)
    ensures InferredIn(Believer(params, e, sigs)) == {"t"}
  {
    var f := Believer(params, e, sigs);
    var b, given := f.body, GivenBy(f);
    BelieverDeclares(e, given);
    BelieverAssigns(e);
    var all := given["n" := true];
    assert "n" in Known(map[], all);
    assert AllWhole(b, "t", Known(map[], all), sigs);
    hide Declared, Assigned, Inferred, Known, AllWhole;
    forall x ensures x in Inferred(b, given, sigs) <==> x == "t" { StraightExactly(b, given, sigs, x); }
  }

  lemma BelieverSurvey(e: Expr)
    ensures Demoted(BodyOf(e)) == Reads(e)
  {
    var b := BodyOf(e);
    Three(b[0], b[1], b[2]);
    var args := [AsExpr(Name("t"))];
    assert args[1..] == [] && ReadsAll(args) == Reads(args[0]) + ReadsAll([]);
    assert Reads(b[2].kind.expr) == {"t"} && Reads(b[1].kind.value) == {"n"};
    assert SurveyStmt(b[0], {}) == Survey({"n"}, Reads(e));
    assert SurveyStmt(b[1], {"n"}) == Survey({"n", "t"}, {});
    assert SurveyStmt(b[2], {"n", "t"}) == Survey({"n", "t"}, {});
    assert SurveyBlock([], {"n", "t"}).demoted == {};
    assert SurveyBlock(b[1..][1..], {"n", "t"}).demoted == {} && SurveyBlock(b[1..], {"n"}).demoted == {};
  }

  /** What `t` is bound to. */
  function Taken(v: Value, how: How): Num { if how.Python? then Num(0) else Unboxed(v) }

  function Shows(v: Value, how: How): Value { if how.Python? || Unboxed(v).NoNum? then v else VInt(Unboxed(v).n) }

  lemma BelieverBinds(env: Env, e: Expr, v: Value, u: World, w: World, o: Oracle, how: How, fuel: nat)
    requires !how.Watched? && !env.top && "n" in env.vars && "t" in env.vars && "n" !in env.typed && "t" in env.typed
    requires Eval(e, w, o, Rules(how, env, false)) == Ok(v, u)
    ensures var r, b := Rules(how, env, false), BodyOf(e);
      var w1 := Bind(u, "n", v);
      && ExecStmt(b[0], w, o, r, fuel) == Next(w1)
      && ExecStmt(b[1], w1, o, r, fuel) == if Taken(v, how).NoNum? then Stopped(Unboxed(v).error, u.out) else Next(Bind(w1, "t", Shows(v, how)))
  {
    var r, w1 := Rules(how, env, false), Bind(u, "n", v);
    assert r.At(false) == r;
    assert Eval(AsExpr(Name("n")), w1, o, r) == Ok(v, w1);
    hide Eval;
  }

  lemma TPrinted(v: Value, w: World, o: Oracle, r: Rules, fuel: nat)
    requires !r.how.Watched? && v != VNull && r.env.Owns("t") && "t" in w.vars && w.vars["t"] == v
    ensures var y := ExecStmt(PrintOf("t"), w, o, r, fuel); y.Next? && y.world == w.(out := w.out + [Shown(v, w.heap), Newline])
  {
    var e := AsExpr(Name("t"));
    assert Eval(e, w, o, r.At(false)) == Ok(v, w);
    hide Eval;
    var u := w.(out := w.out + [Shown(v, w.heap)]);
    assert (w.out + [Shown(v, w.heap)]) + [Newline] == w.out + [Shown(v, w.heap), Newline];
    OneArgument([e], "print", w, o, r);
    assert [e][1..] == [] && [v][1..] == [];
    assert PrintEach([], u, o, r) == Next(Put(u, Newline)) == PrintValues([], u);
    hide EvalAll;
    assert ExecStmt(PrintOf("t"), w, o, r, fuel) == ExecPrint([e], w, o, r);
  }

  /** A run of the body, for any `e` that can be computed. */
  lemma BelieverRuns(env: Env, e: Expr, v: Value, u: World, w: World, o: Oracle, how: How, fuel: nat)
    requires !how.Watched? && !env.top && "n" in env.vars && "t" in env.vars && "n" !in env.typed && "t" in env.typed && v != VNull
    requires Eval(e, w, o, Rules(how, env, false)) == Ok(v, u)
    ensures ExecBlock(BodyOf(e), w, o, Rules(how, env, false), fuel) ==
      if Taken(v, how).NoNum? then Stopped(Unboxed(v).error, u.out)
      else Next(Bind(Bind(u, "n", v), "t", Shows(v, how)).(out := u.out + [Shown(Shows(v, how), u.heap), Newline]))
  {
    var r, b := Rules(how, env, false), BodyOf(e);
    Three(b[0], b[1], b[2]);
    BelieverBinds(env, e, v, u, w, o, how, fuel);
    hide ExecStmt, Eval;
    if Taken(v, how).Num? {
      var w2 := Bind(Bind(u, "n", v), "t", Shows(v, how));
      TPrinted(Shows(v, how), w2, o, r, fuel);
      var y := ExecStmt(b[2], w2, o, r, fuel);
      assert ExecBlock(b[1..][1..], w2, o, r, fuel) == y;
      assert ExecBlock(b[1..], Bind(u, "n", v), o, r, fuel) == y;
    }
  }

  /** A call of such a function is Python's exactly when the value annotated `int` is a whole
      number.  If it is a truth value, Python prints it and the code 1 or 0. */
  lemma AnnotationsExactly(f: Source, e: Expr, w: World, m: Machine, o: Oracle, fuel: nat)
    requires f == Believer(f.params, e, f.sigs) && OverParams(f.params, e) && Emitted(f).Lowered? && Entered(f, w, m)
    requires Eval(e, w, o, Watching(EnvOf(f), false)).Ok?
    ensures var a, y, x := Eval(e, w, o, Watching(EnvOf(f), false)), Invoked(f, w, o, Python, fuel), Invoke(Compilation(f), m, o, fuel);
      && (CallFollows(y, x, EnvOf(f)) <==> a.value.VInt?)
      && y.Returned? && Out(y) == a.world.out + [Shown(a.value, a.world.heap), Newline]
      && (a.value.VBool? ==> OutOfExit(x) == a.world.out + [Shown(VInt(if a.value.b then 1 else 0), a.world.heap), Newline])
      && (!a.value.VBool? && !a.value.VInt? ==> x == Trapped(TypeError, a.world.out))
  {
    BelieverSlots(f.params, e, f.sigs);
    EntryProper(f, w, m);
    hide EnvOf, Entered, Emitted, Invoke, Compilation;
    var env := EnvOf(f);
    var a := Eval(e, w, o, Watching(env, false));
    EvalLeads(e, w, o, env, false, Python);
    EvalLeads(e, w, o, env, false, Compiled);
    EvalProper(e, w, o, Watching(env, false));
    hide Eval, ExecBlock;
    BelieverRuns(env, e, a.value, a.world, w, o, Python, fuel);
    BelieverRuns(env, e, a.value, a.world, w, o, Compiled, fuel);
    FunctionExact(f, w, m, o, fuel);
    hide CallFollows;
    BelieverEnds(a.value, a.world, Invoke(Compilation(f), m, o, fuel), env);
  }

  /** How a call ends. */
  function Ending(v: Value, u: World, how: How): Outcome {
    if Taken(v, how).NoNum? then Stopped(Unboxed(v).error, u.out)
    else Returned(None, Bind(Bind(u, "n", v), "t", Shows(v, how)).(out := u.out + [Shown(Shows(v, how), u.heap), Newline]))
  }

  /** The two endings are told apart by what is printed. */
  lemma BelieverEnds(v: Value, u: World, x: Exit, env: Env)
    requires v != VNull && CallFollows(Ending(v, u, Compiled), x, env)
    ensures CallFollows(Ending(v, u, Python), x, env) <==> v.VInt?
    ensures v.VBool? ==> OutOfExit(x) == u.out + [Shown(VInt(if v.b then 1 else 0), u.heap), Newline]
    ensures !v.VBool? && !v.VInt? ==> x == Trapped(TypeError, u.out)
  {
    hide Agrees;
    SameOut(Ending(v, u, Compiled), x, env);
    if CallFollows(Ending(v, u, Python), x, env) {
      SameOut(Ending(v, u, Python), x, env);
      if v.VBool? { Distinguished(u.out, v, u.heap, Shows(v, Compiled)); }
    }
  }

  lemma Distinguished(out: seq<Token>, v: Value, heap: Heap, u: Value)
    requires out + [Shown(v, heap), Newline] == out + [Shown(u, heap), Newline]
    ensures v == u
  {
    assert (out + [Shown(v, heap), Newline])[|out|] == (out + [Shown(u, heap), Newline])[|out|];
  }

  // ---------------------------------------------------------- declared results

  /** `def f(...) -> int: return e` */
  function Echo(params: seq<Param>, e: Expr, sigs: map<string, Sig>): Source { Source(params, true, [AsStmt(Return(Some(e)))], {}, {}, sigs) }

  lemma EchoSlots(params: seq<Param>, e: Expr, sigs: map<string, Sig>)
    ensures EnvOf(Echo(params, e, sigs)).scalar && !MissingReturn.Owes(Echo(params, e, sigs).body)
  {
    var b := Echo(params, e, sigs).body;
    assert b[1..] == [] && b[|b| - 1] == b[0] && MissingReturn.ChildBlocks(b[0]) == [];
    assert MissingReturn.FirstReturn([], false) == None && MissingReturn.FirstIn([], false) == None;
    assert MissingReturn.FirstReturn(b, false) == None;
    hide Inferred, Ints, SurveyBlock, TopLevel.EachVars, Assigned;
  }

  lemma EchoRuns(params: seq<Param>, e: Expr, sigs: map<string, Sig>, v: Value, u: World, w: World, o: Oracle, how: How, fuel: nat)
    requires !how.Watched?
    requires var env := EnvOf(Echo(params, e, sigs)); env.scalar && Eval(e, w, o, Rules(how, env, Scalar(e, env))) == Ok(v, u)
    ensures Invoked(Echo(params, e, sigs), w, o, how, fuel) ==
      if Taken(v, how).NoNum? then Stopped(Unboxed(v).error, u.out) else Returned(Some(Shows(v, how)), u)
  {
    hide EnvOf, Eval, Scalar;
    var f := Echo(params, e, sigs);
    var r := Rules(how, EnvOf(f), false);
    assert r.At(Scalar(e, r.env)) == Rules(how, EnvOf(f), Scalar(e, r.env));
    assert ExecStmt(f.body[0], w, o, r, fuel) == ExecReturn(e, w, o, r);
  }

  /** A call of such a function is Python's exactly when what it gives back is a whole number;
      a truth value comes back as 1 or 0, and only what is no number traps. */
  lemma ResultsExactly(f: Source, e: Expr, w: World, m: Machine, o: Oracle, fuel: nat)
    requires f == Echo(f.params, e, f.sigs) && Emitted(f).Lowered? && Entered(f, w, m)
    requires Eval(e, w, o, Watching(EnvOf(f), Scalar(e, EnvOf(f)))).Ok?
    ensures var a, y, x := Eval(e, w, o, Watching(EnvOf(f), Scalar(e, EnvOf(f)))), Invoked(f, w, o, Python, fuel), Invoke(Compilation(f), m, o, fuel);
      && (CallFollows(y, x, EnvOf(f)) <==> a.value.VInt?)
      && y == Returned(Some(a.value), a.world)
      && (a.value.VBool? ==> x.Left? && x.slot == RawSlot(if a.value.b then 1 else 0))
      && (!a.value.VBool? && !a.value.VInt? ==> x == Trapped(TypeError, a.world.out))
  {
    EchoSlots(f.params, e, f.sigs);
    EntryProper(f, w, m);
    hide EnvOf, Entered, Emitted, Invoke, Compilation, MissingReturn.Owes;
    var env := EnvOf(f);
    var raw := Scalar(e, env);
    var a := Eval(e, w, o, Watching(env, raw));
    EvalLeads(e, w, o, env, raw, Python);
    EvalLeads(e, w, o, env, raw, Compiled);
    EvalProper(e, w, o, Watching(env, raw));
    hide Eval, Invoked;
    EchoRuns(f.params, e, f.sigs, a.value, a.world, w, o, Python, fuel);
    EchoRuns(f.params, e, f.sigs, a.value, a.world, w, o, Compiled, fuel);
    FunctionExact(f, w, m, o, fuel);
    hide CallFollows;
    EchoEnds(a.value, a.world, Invoke(Compilation(f), m, o, fuel), env);
  }

  lemma EchoEnds(v: Value, u: World, x: Exit, env: Env)
    requires v != VNull && env.scalar
    requires CallFollows(if Unboxed(v).NoNum? then Stopped(Unboxed(v).error, u.out) else Returned(Some(VInt(Unboxed(v).n)), u), x, env)
    ensures CallFollows(Returned(Some(v), u), x, env) <==> v.VInt?
    ensures v.VBool? ==> x.Left? && x.slot == RawSlot(if v.b then 1 else 0)
    ensures !v.VBool? && !v.VInt? ==> x == Trapped(TypeError, u.out)
  {
    hide Agrees;
  }

  // ---------------------------------------------------------- called with `True`

  function Untyped(): seq<Param> { [Param("b", false)] }

  function B(): Expr { AsExpr(Name("b")) }

  lemma UntypedParams()
    ensures ParamNames(Untyped()) == {"b"} && OverParams(Untyped(), B())
  {
    var p := Param("b", false);
    assert Untyped() == [p] && forall q :: q in [p] <==> q == p;
    assert "b" in ParamNames([p]) by { assert p in [p]; }
  }

  lemma BelieverLowered(env: Env, s: Supply)
    requires {"b", "n", "t"} <= env.vars
    ensures LowerBlock(BodyOf(B()), env, [], s).Lowered?
  {
    var b := BodyOf(B());
    Three(b[0], b[1], b[2]);
    assert ValueExpr(B(), env).Some? && ValueExpr(AsExpr(Name("n")), env).Some? && ValueExpr(AsExpr(Name("t")), env).Some?;
    assert [AsExpr(Name("t"))][1..] == [] && PrintCode([AsExpr(Name("t"))], env).Some?;
    hide ValueExpr, PrintCode;
    EmptyLowered(env, s);
    assert LowerStmt(b[2], env, [], s).Lowered? && LowerStmt(b[2], env, [], s).after == s;
    assert LowerBlock(b[1..][1..], env, [], s).Lowered?;
    assert LowerStmt(b[1], env, [], s).Lowered? && LowerStmt(b[1], env, [], s).after == s;
    assert LowerBlock(b[1..], env, [], s).Lowered?;
    assert LowerStmt(b[0], env, [], s).Lowered? && LowerStmt(b[0], env, [], s).after == s;
  }

  /** `def f(b): n: int = b; t = n; print(t)`: Python prints `True`, the compiled function
      `1`. */
  lemma AnnotationBelieved(w: World, m: Machine, o: Oracle, fuel: nat)
    requires Entered(Believer(Untyped(), B(), map[]), w, m) && "b" in w.vars && w.vars["b"] == VBool(true)
    ensures var f := Believer(Untyped(), B(), map[]);
      && Emitted(f).Lowered?
      && Out(Invoked(f, w, o, Python, fuel)) == w.out + [Shown(VBool(true), w.heap), Newline]
      && OutOfExit(Invoke(Compilation(f), m, o, fuel)) == w.out + [Shown(VInt(1), w.heap), Newline]
  {
    var f := Believer(Untyped(), B(), map[]);
    UntypedParams();
    BelieverSlots(Untyped(), B(), map[]);
    BelieverLowered(EnvOf(f), Supply(0, 0, []));
    hide EnvOf, Entered, LowerBlock, Invoke, Invoked, Compilation, OverParams;
    assert Eval(B(), w, o, Watching(EnvOf(f), false)) == Ok(VBool(true), w);
    AnnotationsExactly(f, B(), w, m, o, fuel);
  }

  /** `def f(b) -> int: return b`: Python gives back `True`, the compiled function 1. */
  lemma EchoGivesOne(w: World, m: Machine, o: Oracle, fuel: nat)
    requires Entered(Echo(Untyped(), B(), map[]), w, m) && "b" in w.vars && w.vars["b"] == VBool(true)
    ensures var f := Echo(Untyped(), B(), map[]);
      && Emitted(f).Lowered?
      && Invoked(f, w, o, Python, fuel) == Returned(Some(VBool(true)), w)
      && (var x := Invoke(Compilation(f), m, o, fuel); x.Left? && x.slot == RawSlot(1))
  {
    var f := Echo(Untyped(), B(), map[]);
    UntypedParams();
    assert "b" in EnvOf(f).vars;
    EchoLowered(EnvOf(f), Supply(0, 0, []));
    hide EnvOf, Entered, LowerBlock, Invoke, Invoked, Compilation;
    assert Eval(B(), w, o, Watching(EnvOf(f), Scalar(B(), EnvOf(f)))) == Ok(VBool(true), w);
    ResultsExactly(f, B(), w, m, o, fuel);
  }

  lemma EchoLowered(env: Env, s: Supply)
    requires "b" in env.vars
    ensures LowerBlock(Echo(Untyped(), B(), map[]).body, env, [], s).Lowered?
  {
    var b := Echo(Untyped(), B(), map[]).body;
    assert b[1..] == [] && ValueExpr(B(), env).Some?;
    EmptyLowered(env, s);
    assert LowerStmt(b[0], env, [], s).Lowered? && LowerStmt(b[0], env, [], s).after == s;
  }

  // ---------------------------------------------------- the program's own `len`

  /** A `len` of the program's own that gives back a boxed value. */
  function OwnLen(): map<string, Sig> { map["len" := Sig([false], false)] }

  /** `n = len(b)` makes `n` a whole number whatever `len` is. */
  lemma OwnLenBelieved()
    ensures var b := [Set("n", Call("len", [AsExpr(Name("b"))]))];
      Inferred(b, map["b" := false], OwnLen()) == {"n"} && Settled(b, map["b" := false], OwnLen())
  {
    var b := [Set("n", Call("len", [AsExpr(Name("b"))]))];
    var given: Given := map["b" := false];
    var none: Kinds := map[];
    var whole: Kinds := map["n" := Whole];
    assert b[1..] == [];
    assert Declared(b, given) == given;
    assert Joined(none, "n", true, given) == whole && Joined(whole, "n", true, given) == whole;
    assert Walked(b, given, OwnLen(), none) == whole && Walked(b, given, OwnLen(), whole) == whole;
    hide Walked, Declared, Rounds;
    AtRest(b, given, OwnLen(), none, ROUNDS);
    AtRest(b, given, OwnLen(), whole, 7);
    assert Final(b, given, OwnLen()) == whole;
    assert Wholes(whole) == {"n"};
  }

  function Yes(q: Query): Reply { Gives(VBool(true), map[], []) }

  /** If that `len` answers `True`, Python binds `True` and the code 1. */
  lemma OwnLenMisbinds(w: World, env: Env, fuel: nat)
    requires env.sigs == OwnLen() && "n" in env.typed && Lookup("b", w, env).Some? && Lookup("b", w, env).value != VNull
    ensures var s := Set("n", Call("len", [AsExpr(Name("b"))]));
      var u := w.(heap := map[], calls := w.calls + 1);
      && ExecStmt(s, w, Yes, Rules(Python, env, false), fuel) == Next(Bind(u, "n", VBool(true)))
      && ExecStmt(s, w, Yes, Rules(Compiled, env, false), fuel) == Next(Bind(u, "n", VInt(1)))
  {
    var e, u := AsExpr(Call("len", [AsExpr(Name("b"))])), w.(heap := map[], calls := w.calls + 1);
    forall r: Rules | r.env == env && !r.how.Watched? ensures Eval(e, w, Yes, r) == Ok(VBool(true), u) { OwnLenAnswers(w, r); }
    hide Eval;
  }

  lemma OwnLenAnswers(w: World, r: Rules)
    requires !r.how.Watched? && r.env.sigs == OwnLen() && Lookup("b", w, r.env).Some?
    ensures Eval(AsExpr(Call("len", [AsExpr(Name("b"))])), w, Yes, r) == Ok(VBool(true), w.(heap := map[], calls := w.calls + 1))
  {
    var arg, v := AsExpr(Name("b")), Lookup("b", w, r.env).value;
    var e, u := AsExpr(Call("len", [arg])), w.(heap := map[], calls := w.calls + 1);
    assert w.out + [] == w.out && ConstInt(e).None?;
    assert EvalAll([arg], [false], "len", w, Yes, r) == Oks([v], w) by {
      assert Eval(arg, w, Yes, r.At(false)) == Ok(v, w);
      assert [arg][1..] == [] && [false][1..] == [];
      hide Eval;
      assert EvalAll([], [], "len", w, Yes, r) == Oks([], w);
      assert Slot(arg, false, "len", w, Yes, r) == Ok(v, w);
    }
    hide EvalAll;
    assert Called("len", Oks([v], w), Yes, r) == Ok(VBool(true), u);
  }

  // ------------------------------------------------------------- past the gate

  function OneParam(): Gate.Facts { map["b" := Gate.TyDyn] }

  lemma OneOpening()
    ensures Gate.Opening(Untyped()) == OneParam()
  {
    var ps := Untyped();
    assert ps[..|ps| - 1] == [];
  }

  /** The checker lets both functions through when `e` is a parameter without annotation, and
      refuses the first when `e` is `True` itself. */
  lemma UntypedAccepted(sigs: map<string, Gate.Surface>)
    requires "print" !in sigs
    ensures Gate.Accepts(Untyped(), false, Believer(Untyped(), B(), map[]).body, sigs)
    ensures Gate.Accepts(Untyped(), true, Echo(Untyped(), B(), map[]).body, sigs)
    ensures !Gate.Accepts(Untyped(), false, Believer(Untyped(), AsExpr(Bool(true)), map[]).body, sigs)
  {
    hide Gate.Accepts;
    BelieverAccepted(sigs);
    EchoAccepted(sigs);
    BelieverRefused(sigs);
  }

  lemma BelieverRefused(sigs: map<string, Gate.Surface>)
    ensures !Gate.Accepts(Untyped(), false, Believer(Untyped(), AsExpr(Bool(true)), map[]).body, sigs)
  {
    hide Gate.Checked, Gate.Opening;
    Gate.BlatantRefused(BodyOf(AsExpr(Bool(true))), Gate.Opening(Untyped()), sigs, Gate.TyDyn);
  }

  lemma BelieverAccepted(sigs: map<string, Gate.Surface>)
    requires "print" !in sigs
    ensures Gate.Accepts(Untyped(), false, BodyOf(B()), sigs)
  {
    var b, env, d := BodyOf(B()), OneParam(), Gate.TyDyn;
    OneOpening();
    var b1, b2 := b[1..], b[2..];
    assert b1[0] == b[1] && b1[1..] == b2 && b2[0] == b[2] && b2[1..] == [];
    var args := [AsExpr(Name("t"))];
    var env1 := env["n" := Gate.TyInt];
    var env2 := env1["t" := Gate.TyInt];
    assert args[1..] == [] && Gate.TypedAll(args, [], 1, env2, sigs) == [];
    assert Gate.CheckedStmt(b[0], env, sigs, d) == Gate.Walk(env1, []);
    assert Gate.CheckedStmt(b[1], env1, sigs, d) == Gate.Walk(env2, []);
    assert Gate.CheckedStmt(b[2], env2, sigs, d) == Gate.Walk(env2, []);
    hide Gate.CheckedStmt;
    assert Gate.Checked([], env2, sigs, d) == Gate.Walk(env2, []);
    assert Gate.Checked(b2, env2, sigs, d) == Gate.Walk(env2, []);
    assert Gate.Checked(b1, env1, sigs, d) == Gate.Walk(env2, []);
    hide Gate.Checked;
    BelieverOwesNothing();
  }

  lemma BelieverOwesNothing()
    ensures !MissingReturn.Owes(BodyOf(B()))
  {
    var b := BodyOf(B());
    var b1, b2 := b[1..], b[2..];
    assert b1[0] == b[1] && b1[1..] == b2 && b2[0] == b[2] && b2[1..] == [];
    assert MissingReturn.FirstReturn([], true) == None && MissingReturn.FirstIn([], true) == None;
    assert MissingReturn.FirstReturn(b2, true) == None && MissingReturn.FirstReturn(b1, true) == None;
  }

  lemma EchoAccepted(sigs: map<string, Gate.Surface>)
    ensures Gate.Accepts(Untyped(), true, Echo(Untyped(), B(), map[]).body, sigs)
  {
    OneOpening();
    EchoSlots(Untyped(), B(), map[]);
    var b, env := Echo(Untyped(), B(), map[]).body, OneParam();
    assert b[1..] == [];
    assert Gate.CheckedStmt(b[0], env, sigs, Gate.TyInt) == Gate.Walk(env, []);
    hide Gate.CheckedStmt, MissingReturn.Owes;
    assert Gate.Checked([], env, sigs, Gate.TyInt) == Gate.Walk(env, []);
  }
}
