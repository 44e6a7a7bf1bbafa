/** The places where the compiled code (src/codegen.rs) does something else than Python, each
    with an input and with the exact condition under which the two agree. */
module DepartureCases {
  import opened Syntax
  import opened Values
  import opened MachineIntegers
  import opened SlotChoice
  import opened PythonSemantics
  import opened DefiniteAssignment
  import opened ProperRuns
  import opened Departures
  import opened ValueShapes
  import opened Risks
  import Gate

  function Running(env: Env): Rules { Rules(Python, env, false) }

  function Emitting(env: Env): Rules { Rules(Compiled, env, false) }

  function Lit(n: nat): Expr { AsExpr(Int(n)) }

  function Op(op: BinOp, a: Expr, b: Expr): Expr { AsExpr(Bin(op, a, b)) }

  // -------------------------------------------------------------------- print

  /** Python evaluates all arguments before it prints any, the code prints each before the
      next.  If the later arguments are quiet, that makes a difference exactly when the first
      one can be computed and a later one cannot; then both stop, the code having printed
      more. */
  lemma PrintsAgreeExactly(args: seq<Expr>, w: World, o: Oracle, env: Env)
    requires |args| > 0 && AllQuiet(args[1..], env) && Ready(ReadsAll(args), w, env) && !Departed(Eval(args[0], w, o, Watching(env, false)))
    ensures var first, all, each := Eval(args[0], w, o, Running(env)), PrintAll(args, w, o, Running(env)), PrintEach(args, w, o, Emitting(env));
      && (all == each <==> first.Fail? || EvalAll(args[1..], [], "print", first.world, o, Running(env)).Oks?)
      && (all != each ==> all.Stopped? && each.Stopped? && Out(all) < Out(each))
  {
    hide Eval, EvalAll, Ready, PrintAll, PrintEach, PrintValues, Quiet, Reads;
    var rw := Watching(env, false);
    EvalLeads(args[0], w, o, env, false, Python);
    PrintAllTracks(args, w, o, env, Python);
    PrintEachTracks(args, w, o, env, Compiled);
    FirstArgument(args, w, o, rw);
    var v := Eval(args[0], w, o, rw);
    if v.Ok? {
      ReadyAfter(args[0], ReadsAll(args[1..]), ReadsAll(args), w, o, rw);
      assert ProperValue(v.value) by { ReadyProper(ReadsAll(args), w, env); EvalProper(args[0], w, o, rw); }
      var u := v.world;
      var z := u.(out := u.out + [Shown(v.value, u.heap)]);
      var next := if |args| == 1 then z else Put(z, Space);
      QuietPrints(args[1..], u, next, o, rw);
      AllLeads(args[1..], [], "print", u, o, env, false, Python);
      var vs := EvalAll(args[1..], [], "print", u, o, rw);
      if vs.Oks? { HeadPrinted(v.value, vs.values, u); PrintedPrinted(args, vs, v, w, o, rw); }
      else {
        assert PrintAll(args, w, o, rw) == Stopped(vs.error, vs.out) by { PrintFailed(args, vs, v, w, o, rw); }
        assert next.out <= Out(PrintEach(args[1..], next, o, rw)) && |u.out| < |next.out|;
      }
    }
  }

  lemma PrintedPrinted(args: seq<Expr>, vs: EvaluatedAll, v: Evaluated, w: World, o: Oracle, r: Rules)
    requires |args| > 0 && v.Ok? && vs.Oks? && EvalAll(args, [], "print", w, o, r) == Oks([v.value] + vs.values, vs.world)
    ensures PrintAll(args, w, o, r) == PrintValues([v.value] + vs.values, vs.world)
  {
    hide EvalAll, PrintValues;
  }

  lemma PrintFailed(args: seq<Expr>, vs: EvaluatedAll, v: Evaluated, w: World, o: Oracle, r: Rules)
    requires vs.Fails? && EvalAll(args, [], "print", w, o, r) == vs
    ensures PrintAll(args, w, o, r) == Stopped(vs.error, vs.out)
  {
    hide EvalAll;
  }

  lemma FailingRuns(z: World, o: Oracle, r: Rules)
    ensures Eval(Lit(1), z, o, r) == Ok(VInt(1), z) && Eval(Op(FloorDiv, Lit(1), Lit(0)), z, o, r) == Fail(ZeroDivision, z.out)
  {
    assert Eval(Lit(1), z, o, r) == Ok(VInt(1), z) && Eval(Lit(0), z, o, r) == Ok(VInt(0), z);
  }

  /** `print(1, 1 // 0)`: Python prints nothing, the code `1` and a space. */
  lemma PrintCutShort(w: World, o: Oracle, env: Env)
    ensures var args := [Lit(1), Op(FloorDiv, Lit(1), Lit(0))];
      && ExecPrint(args, w, o, Running(env)) == Stopped(ZeroDivision, w.out)
      && ExecPrint(args, w, o, Emitting(env)) == Stopped(ZeroDivision, w.out + [Shown(VInt(1), w.heap), Space])
  {
    hide PrintAll, PrintEach;
    AllCutShort(w, o, Running(env));
    EachCutShort(w, o, Emitting(env));
  }

  lemma AllCutShort(w: World, o: Oracle, r: Rules)
    ensures PrintAll([Lit(1), Op(FloorDiv, Lit(1), Lit(0))], w, o, r) == Stopped(ZeroDivision, w.out)
  {
    var a, b := Lit(1), Op(FloorDiv, Lit(1), Lit(0));
    FailingRuns(w, o, r.At(false));
    hide Eval;
    assert [a, b][1..] == [b];
    assert Slot(a, false, "print", w, o, r) == Ok(VInt(1), w) && Slot(b, false, "print", w, o, r) == Fail(ZeroDivision, w.out);
    hide Slot;
    assert EvalAll([b], [], "print", w, o, r) == EvaluatedAll.Fails(ZeroDivision, w.out);
  }

  lemma EachCutShort(w: World, o: Oracle, r: Rules)
    ensures PrintEach([Lit(1), Op(FloorDiv, Lit(1), Lit(0))], w, o, r) == Stopped(ZeroDivision, w.out + [Shown(VInt(1), w.heap), Space])
  {
    var a, b := Lit(1), Op(FloorDiv, Lit(1), Lit(0));
    var z := w.(out := w.out + [Shown(VInt(1), w.heap)]);
    var u := Put(z, Space);
    FailingRuns(w, o, r.At(false));
    FailingRuns(u, o, r.At(false));
    hide Eval;
    assert [a, b][1..] == [b];
    assert u.out == w.out + [Shown(VInt(1), w.heap), Space];
    assert PrintEach([b], u, o, r) == Stopped(ZeroDivision, u.out);
  }

  // -------------------------------------------------------------------- range

  /** The code computes an end that is no constant before the start.  If both are quiet, that
      makes a difference exactly when both cannot be had, for different reasons. */
  lemma BoundsAgreeExactly(start: Expr, end: Expr, step: Expr, w: World, o: Oracle, env: Env)
    requires GoodStep(step) && ConstInt(end).None? && Quiet(start, env) && Quiet(end, env) && Ready(Reads(start) + Reads(end), w, env)
    ensures var a, b := Eval(start, w, o, Running(env).At(Scalar(start, env))), Numeral(end, w, o, Running(env));
      PythonRange(start, end, step, w, o, Running(env)) == CodeRange(start, end, step, w, o, Emitting(env))
      <==> !(a.Fail? && b.Fail? && a.error != b.error)
  {
    hide Eval, Ready, Reads, ConstInt, Quiet, Certain, Scalarish, Scalar, Unboxed, ProperWorld, Rules.At;
    var all, rw := Reads(start) + Reads(end), Watching(env, false);
    Unraw(env, false, Python);
    Unraw(env, false, Compiled);
    var ra, rb := Watching(env, Scalar(start, env)), Watching(env, Scalar(end, env));
    ReadyProper(all, w, env);
    ReadyLess(Reads(start), all, w, env);
    ReadyLess(Reads(end), all, w, env);
    QuietRuns(start, w, w, o, ra);
    QuietRuns(end, w, w, o, rb);
    EvalProper(start, w, o, ra);
    EvalProper(end, w, o, rb);
    var a, b := Eval(start, w, o, ra), Eval(end, w, o, rb);
    if a.Ok? { NotANumber(a.value); }
    if b.Ok? { NotANumber(b.value); }
    EvalLeads(start, w, o, env, Scalar(start, env), Python);
    EvalLeads(start, w, o, env, Scalar(start, env), Compiled);
    EvalLeads(end, w, o, env, Scalar(end, env), Python);
    EvalLeads(end, w, o, env, Scalar(end, env), Compiled);
    ConstRuns(step, w, o, Rules(Python, env, false));
    UnboxedInt(ConstInt(step).value);
  }

  lemma OverflowRuns(z: World, o: Oracle, r: Rules)
    ensures Eval(Op(Add, Lit(0x7fff_ffff), Lit(1)), z, o, r) == Fail(Overflow, z.out)
  {
    assert Eval(Lit(0x7fff_ffff), z, o, r) == Ok(VInt(0x7fff_ffff), z) && Eval(Lit(1), z, o, r) == Ok(VInt(1), z);
  }

  /** `range(1 // 0, 2147483647 + 1)`: Python reports the division, the code the overflow. */
  lemma RangeMisreports(w: World, o: Oracle, env: Env)
    ensures var start, end := Op(FloorDiv, Lit(1), Lit(0)), Op(Add, Lit(0x7fff_ffff), Lit(1));
      && Range(start, end, Lit(1), w, o, Running(env)) == Unbounded(ZeroDivision, w.out)
      && Range(start, end, Lit(1), w, o, Emitting(env)) == Unbounded(Overflow, w.out)
  {
    var start, end := Op(FloorDiv, Lit(1), Lit(0)), Op(Add, Lit(0x7fff_ffff), Lit(1));
    FailingRuns(w, o, Running(env).At(Scalar(start, env)));
    OverflowRuns(w, o, Emitting(env).At(Scalar(end, env)));
    assert ConstInt(end).None? && ConstInt(Lit(1)) == Some(1);
    hide Eval, Scalar, ConstInt, PythonRange, CodeRange;
    StartFails(start, end, Lit(1), w, o, Running(env));
    EndFails(start, end, Lit(1), w, o, Emitting(env));
  }

  lemma StartFails(start: Expr, end: Expr, step: Expr, w: World, o: Oracle, r: Rules)
    requires Eval(start, w, o, r.At(Scalar(start, r.env))).Fail?
    ensures var v := Eval(start, w, o, r.At(Scalar(start, r.env))); PythonRange(start, end, step, w, o, r) == Unbounded(v.error, v.out)
  {
    hide Eval, Scalar;
  }

  lemma EndFails(start: Expr, end: Expr, step: Expr, w: World, o: Oracle, r: Rules)
    requires ConstInt(step) == Some(1) && ConstInt(end).None? && Eval(end, w, o, r.At(Scalar(end, r.env))).Fail?
    ensures var v := Eval(end, w, o, r.At(Scalar(end, r.env))); CodeRange(start, end, step, w, o, r) == Unbounded(v.error, v.out)
  {
    hide Eval, Scalar, ConstInt;
  }

  /** A function that answers 0 and prints its first letter's token. */
  function Talker(q: Query): Reply { Gives(VInt(0), map[], [if q.callee == "f" then Space else Newline]) }

  function Ring(f: string): Expr { AsExpr(Call(f, [])) }

  lemma Rung(f: string, w: World, r: Rules)
    requires f !in r.env.sigs && f != "len"
    ensures var v := Eval(Ring(f), w, Talker, r);
      v.Ok? && v.value == VInt(0) && v.world.out == w.out + [if f == "f" then Space else Newline]
  {
    assert ConstInt(Ring(f)).None?;
    assert EvalAll([], [], f, w, Talker, r) == Oks([], w);
  }

  /** `range(f(), g())`: what the two print comes in another order. */
  lemma RangeReorders(w: World, env: Env)
    requires "f" !in env.sigs && "g" !in env.sigs
    ensures OutOfBounds(Range(Ring("f"), Ring("g"), Lit(1), w, Talker, Running(env))) == w.out + [Space, Newline]
    ensures OutOfBounds(Range(Ring("f"), Ring("g"), Lit(1), w, Talker, Emitting(env))) == w.out + [Newline, Space]
  {
    forall f: string, z: World, r: Rules | f in {"f", "g"} && r.env == env
      ensures var v := Eval(Ring(f), z, Talker, r);
        v.Ok? && v.value == VInt(0) && v.world.out == z.out + [if f == "f" then Space else Newline] { Rung(f, z, r); }
    forall z: World, r: Rules ensures Eval(Lit(1), z, Talker, r) == Ok(VInt(1), z) {}
    hide Eval;
    var u := Eval(Ring("f"), w, Talker, Running(env).At(Scalar(Ring("f"), env))).world;
    var v := Eval(Ring("g"), w, Talker, Emitting(env).At(Scalar(Ring("g"), env))).world;
    assert (w.out + [Space]) + [Newline] == w.out + [Space, Newline] && (w.out + [Newline]) + [Space] == w.out + [Newline, Space];
  }

  // ------------------------------------------------------------------- append

  /** Python looks `append` up before it computes the argument, the code after.  That makes
      no difference exactly when the receiver is a list, or the argument is had in silence, or
      fails just as the lookup would. */
  lemma LookupsAgreeExactly(l: Value, v: Evaluated, before: World, w: World, o: Oracle, env: Env)
    ensures var args := if v.Ok? then Oks([v.value], v.world) else EvaluatedAll.Fails(v.error, v.out);
      Sent(l, "append", 1, args, before, w, o, Running(env)) == Sent(l, "append", 1, args, before, w, o, Emitting(env))
      <==> l.VList? || (v.Ok? && v.world.out == w.out) || v == Fail(NoAttribute, w.out)
  {
  }

  lemma AppendEvals(x: string, n: int, w: World, o: Oracle, r: Rules)
    requires Lookup(x, w, r.env) == Some(VInt(n)) && r.At(false) == r
    ensures var v := Eval(Ring("f"), w, o, r);
      v.Ok? ==>
        Eval(AsExpr(MethodCall(AsExpr(Name(x)), "append", [Ring("f")])), w, o, r) == LookedUp(VInt(n), Fail(NoAttribute, v.world.out), w, w, r)
  {
    var e := AsExpr(MethodCall(AsExpr(Name(x)), "append", [Ring("f")]));
    assert ConstInt(e).None?;
    assert Eval(AsExpr(Name(x)), w, o, r) == Ok(VInt(n), w);
    OneArgument([Ring("f")], "append", w, o, r);
    hide EvalAll, LookedUp;
  }

  /** `x.append(f())` with x a number: f prints only in the code. */
  lemma AppendTalks(x: string, n: int, w: World, env: Env)
    requires "f" !in env.sigs && Lookup(x, w, env) == Some(VInt(n))
    ensures var e := AsExpr(MethodCall(AsExpr(Name(x)), "append", [Ring("f")]));
      && Eval(e, w, Talker, Running(env)) == Fail(NoAttribute, w.out)
      && Eval(e, w, Talker, Emitting(env)) == Fail(NoAttribute, w.out + [Space])
  {
    Rung("f", w, Running(env));
    Rung("f", w, Emitting(env));
    AppendEvals(x, n, w, Talker, Running(env));
    AppendEvals(x, n, w, Talker, Emitting(env));
    hide Eval;
  }

  // -------------------------------------------------------------------- lists

  /** The code neither repeats a list by a truth value nor orders lists; in everything else
      its operators are Python's. */
  lemma OperatorsAgreeExactly(op: BinOp, a: Value, b: Value, w: World, o: Oracle, env: Env, raw: bool)
    ensures Binary(op, a, b, w, o, Rules(Python, env, raw)) == Binary(op, a, b, w, o, Rules(Compiled, env, raw))
      <==> !(op == Mul && ((a.VList? && b.VBool?) || (a.VBool? && b.VList?))) && !(op in {Lt, Le, Gt, Ge} && a.VList? && b.VList?)
  {
    hide Arithmetic;
  }

  /** `xs * True` and `xs < xs`: the runtime's business in Python, type errors in the code. */
  lemma ListsRefused(xs: string, at: nat, w: World, o: Oracle, env: Env)
    requires Lookup(xs, w, env) == Some(VList(at))
    ensures var e := AsExpr(Name(xs));
      && Eval(Op(Mul, e, AsExpr(Bool(true))), w, o, Emitting(env)) == Fail(TypeError, w.out)
      && Eval(Op(Lt, e, e), w, o, Emitting(env)) == Fail(TypeError, w.out)
      && Eval(Op(Mul, e, AsExpr(Bool(true))), w, o, Running(env)) == Ask("*", [VList(at), VBool(true)], w, o, Running(env))
      && Eval(Op(Lt, e, e), w, o, Running(env)) == AskTruth("<", [VList(at), VList(at)], true, w, o, Running(env))
  {
    hide Ask;
    forall how ensures Eval(AsExpr(Name(xs)), w, o, Rules(how, env, false)) == Ok(VList(at), w) {}
  }

  // ------------------------------------------------------------ whole numbers

  /** A raw parameter, result or slot keeps exactly whole numbers as they are. */
  lemma SlotsAgreeExactly(x: string, v: Value, lapse: Departure, w: World, env: Env)
    ensures Coerced(v, lapse, w, Running(env)) == Coerced(v, lapse, w, Emitting(env)) <==> v.VInt?
    ensures Bound(x, v, w, Running(env)) == Bound(x, v, w, Emitting(env)) <==> x !in env.typed || v.VInt?
  {
  }

  /** The same for negation: right exactly on numbers other than -2^31, or unboxed. */
  lemma NegationsAgreeExactly(v: Value, env: Env, raw: bool)
    requires ProperValue(v)
    ensures Negate(v, Rules(Python, env, raw)) == Negate(v, Rules(Compiled, env, raw)) <==> raw || v != VInt(I32_MIN)
  {
    hide Wrap;
    if v.VInt? { WrapExact(-v.n, 0x8000_0000); }
  }

  /** A name or a literal. */
  predicate Atom(e: Expr) { e.kind.Name? || e.kind.Bool? || (e.kind.Int? && Fits(e.kind.n)) }

  /** At most one operator over names and literals, and no square. */
  predicate Flat(e: Expr) {
    match e.kind
    case Unary(op, i) => op == Not && Atom(i)
    case Bin(op, a, b) => Atom(a) && Atom(b) && (op == Mul ==> a.kind != b.kind)
    case _ => Atom(e)
  }

  /** Lists where they can be added or repeated, truth values elsewhere. */
  function Filler(x: string, e: Expr, env: Env): Value {
    if x in env.ints then VInt(0)
    else if !e.kind.Bin? || e.kind.bop !in {Add, Mul} then VBool(false)
    else if e.kind.bop == Mul && e.kind.right.kind == Name(x) && !Scalarish(e.kind.left, env) then VInt(0)
    else VList(0)
  }

  function Lister(q: Query): Reply { Gives(VList(0), map[], []) }

  /** An expression that is not surely a whole number is none in some world: bound to a name
      that counts as whole, returned as a raw result or passed to a raw parameter, it makes
      the code part from Python there. */
  lemma OddValue(e: Expr, env: Env) returns (w: World)
    requires Flat(e) && !SurelyInt(e, env)
    ensures Ready(Reads(e), w, env)
    ensures var v := Eval(e, w, Lister, Running(env)); v.Ok? && !v.value.VInt?
  {
    hide Binary, ProperHeap;
    var m := map x | x in Reads(e) :: Filler(x, e, env);
    w := World(m, m, map[], [], 0);
    NoLists();
    if e.kind.Bin? {
      var a, b := e.kind.left, e.kind.right;
      AtomRuns(a, e, w, env);
      AtomRuns(b, e, w, env);
      OddBinary(e, AtomValue(a, e, env), AtomValue(b, e, env), w, env);
    } else if e.kind.Unary? {
      AtomRuns(e.kind.operand, e, w, env);
    }
  }

  lemma NoLists()
    ensures ProperHeap(map[])
  {
  }

  function AtomValue(e: Expr, whole: Expr, env: Env): Value {
    match e.kind
    case Int(n) => VInt(n)
    case Bool(b) => VBool(b)
    case Name(x) => Filler(x, whole, env)
    case _ => VNone
  }

  lemma AtomRuns(e: Expr, whole: Expr, w: World, env: Env)
    requires Atom(e) && Reads(e) <= Reads(whole)
    requires w.vars == w.globals == (map x | x in Reads(whole) :: Filler(x, whole, env))
    ensures forall raw :: Eval(e, w, Lister, Rules(Python, env, raw)) == Ok(AtomValue(e, whole, env), w)
  {
    hide Filler;
    if e.kind.Name? { assert e.kind.name in Reads(e); }
  }

  lemma OddBinary(e: Expr, x: Value, y: Value, w: World, env: Env)
    requires Flat(e) && e.kind.Bin? && !SurelyInt(e, env)
    requires x == AtomValue(e.kind.left, e, env) && y == AtomValue(e.kind.right, e, env)
    ensures var v := Binary(e.kind.bop, x, y, w, Lister, Running(env)); v.Ok? && !v.value.VInt?
  {
    var a, b := e.kind.left, e.kind.right;
    assert !Scalarish(a, env) <==> a.kind.Name? && a.kind.name !in env.ints;
    assert !Scalarish(b, env) <==> b.kind.Name? && b.kind.name !in env.ints;
    hide Arithmetic;
  }

  ghost predicate AlwaysWhole(e: Expr, env: Env) {
    forall w, o :: Ready(Reads(e), w, env) ==> var v := Eval(e, w, o, Running(env)); v.Ok? ==> v.value.VInt?
  }

  /** So on such expressions the text says exactly which are whole numbers in Python. */
  lemma WholeExactly(e: Expr, env: Env)
    requires Flat(e)
    ensures SurelyInt(e, env) <==> AlwaysWhole(e, env)
  {
    hide Eval, Ready, SurelyInt, Reads;
    if SurelyInt(e, env) {
      FlatRisksNothing(e, env);
      forall w, o | Ready(Reads(e), w, env) ensures var v := Eval(e, w, o, Running(env)); v.Ok? ==> v.value.VInt? {
        var rw := Watching(env, false);
        EvalTold(e, w, o, rw);
        ReadyProper(Reads(e), w, env);
        SureValue(e, w, o, rw);
        EvalLeads(e, w, o, env, false, Python);
      }
    } else {
      var w := OddValue(e, env);
      assert !AlwaysWhole(e, env);
    }
  }

  lemma FlatRisksNothing(e: Expr, env: Env)
    requires Flat(e) && SurelyInt(e, env)
    ensures ExprRisks(e, false, env) == {}
  {
    if e.kind.Bin? { assert ExprRisks(e.kind.left, false, env) == {} && ExprRisks(e.kind.right, false, env) == {}; }
  }

  // ----------------------------------------------------------------- no risks

  /** What the text says of common bounds: a step of two between constants risks nothing, a
      sum as the start of a range risks another error. */
  lemma CommonBounds(x: string, y: string, env: Env)
    ensures RangeRisks(Lit(0), Lit(10), Lit(2), env) == {} && CounterRisks(Lit(0), Lit(10), Lit(2), env) == {}
    ensures RangeRisks(Op(Add, AsExpr(Name(x)), Lit(1)), AsExpr(Name(y)), Lit(1), env) <= {OtherError}
  {
    assert ConstInt(Lit(0)) == Some(0) && ConstInt(Lit(10)) == Some(10) && ConstInt(Lit(2)) == Some(2) && ConstInt(Lit(1)) == Some(1);
    SumShape(AsExpr(Name(x)), Lit(1), env);
    hide Certain;
    assert Quiet(AsExpr(Name(y)), env);
  }

  /** And of common arguments: the negation of a remainder and a `print` of names risk
      nothing, a sum as an argument of `append` another error, in a later argument of `print` a
      line cut short. */
  lemma CommonArguments(x: string, y: string, n: string, env: Env)
    requires n in env.ints
    ensures ExprRisks(AsExpr(Unary(Neg, Op(Mod, AsExpr(Name(x)), Lit(7)))), false, env) == {}
    ensures PrintRisks([AsExpr(Name(x)), AsExpr(Name(y))], env) == {}
    ensures LookupRisks(Op(Add, AsExpr(Name(x)), AsExpr(Name(n))), env) == {OtherError}
    ensures PrintRisks([AsExpr(Name(x)), Op(Add, AsExpr(Name(y)), Lit(1))], env) == {PrintedBefore}
  {
    var e, sum := AsExpr(Name(y)), Op(Add, AsExpr(Name(y)), Lit(1));
    assert [AsExpr(Name(x)), e][1..] == [e] && [AsExpr(Name(x)), sum][1..] == [sum];
    assert ExprRisks(Op(Mod, AsExpr(Name(x)), Lit(7)), false, env) == {};
    SumShape(AsExpr(Name(y)), Lit(1), env);
    SumShape(AsExpr(Name(x)), AsExpr(Name(n)), env);
    assert sum in [sum];
    hide Quiet, Certain;
  }

  lemma SumShape(a: Expr, b: Expr, env: Env)
    requires a.kind.Name? && (b == Lit(1) || (b.kind.Name? && b.kind.name in env.ints))
    ensures Quiet(Op(Add, a, b), env) && !Certain(Op(Add, a, b), env)
    ensures forall raw :: ExprRisks(Op(Add, a, b), raw, env) == {}
  {
    assert Quiet(a, env) && Quiet(b, env) && SurelyInt(b, env);
    assert forall raw :: ExprRisks(a, raw, env) == {} && ExprRisks(b, raw, env) == {};
  }

  // ------------------------------------------------------------- past the gate

  function PrintCase(): Stmt { AsStmt(ExprStmt(AsExpr(Call("print", [Lit(1), Op(FloorDiv, Lit(1), Lit(0))])))) }

  function RangeCase(start: Expr, end: Expr): Stmt { AsStmt(For("i", start, end, Lit(1), [AsStmt(Pass)], (0, 0))) }

  function AppendCase(): Stmt { AsStmt(ExprStmt(AsExpr(MethodCall(AsExpr(Name("x")), "append", [Ring("f")])))) }

  function ListCase(op: BinOp, e: Expr): Stmt { AsStmt(Assign("y", Op(op, AsExpr(Name("xs")), e))) }

  function LenCase(): Stmt { AsStmt(Assign("n", AsExpr(Call("len", [AsExpr(Name("xs"))])))) }

  /** The type checker finds nothing in any of these statements, where `x` and `xs` are
      parameters without annotation. */
  lemma CasesAccepted(env: Gate.Facts, sigs: map<string, Gate.Surface>, ret: Gate.Ty)
    requires env == map["x" := Gate.TyDyn, "xs" := Gate.TyDyn] && "print" !in sigs
    requires "f" in sigs && "g" in sigs && sigs["f"].params == [] && sigs["g"].params == []
    requires "len" in sigs ==> sigs["len"].params == [Gate.TyDyn]
    ensures Gate.CheckedStmt(PrintCase(), env, sigs, ret).found == []
    ensures Gate.CheckedStmt(RangeCase(Op(FloorDiv, Lit(1), Lit(0)), Op(Add, Lit(0x7fff_ffff), Lit(1))), env, sigs, ret).found == []
    ensures Gate.CheckedStmt(RangeCase(Ring("f"), Ring("g")), env, sigs, ret).found == []
    ensures Gate.CheckedStmt(AppendCase(), env, sigs, ret).found == []
    ensures Gate.CheckedStmt(ListCase(Mul, AsExpr(Bool(true))), env, sigs, ret).found == []
    ensures Gate.CheckedStmt(ListCase(Lt, AsExpr(Name("xs"))), env, sigs, ret).found == []
    ensures Gate.CheckedStmt(LenCase(), env, sigs, ret).found == []
  {
    hide Gate.CheckedStmt;
    PrintAccepted(env, sigs, ret);
    RangeAccepted(Op(FloorDiv, Lit(1), Lit(0)), Op(Add, Lit(0x7fff_ffff), Lit(1)), env, sigs, ret);
    RangeAccepted(Ring("f"), Ring("g"), env, sigs, ret);
    AppendAccepted(env, sigs, ret);
    ListAccepted(Mul, AsExpr(Bool(true)), env, sigs, ret);
    ListAccepted(Lt, AsExpr(Name("xs")), env, sigs, ret);
    LenAccepted(env, sigs, ret);
  }

  lemma PrintAccepted(env: Gate.Facts, sigs: map<string, Gate.Surface>, ret: Gate.Ty)
    requires "print" !in env && "print" !in sigs
    ensures Gate.CheckedStmt(PrintCase(), env, sigs, ret).found == []
  {
    var args := [Lit(1), Op(FloorDiv, Lit(1), Lit(0))];
    assert args[1..] == [args[1]] && args[1..][1..] == [];
    assert Gate.TypedAll([args[1]], [], 1, env, sigs) == [];
  }

  lemma RangeAccepted(start: Expr, end: Expr, env: Gate.Facts, sigs: map<string, Gate.Surface>, ret: Gate.Ty)
    requires Gate.Typed(start, env, sigs).found == [] && Gate.Typed(end, env, sigs).found == []
    ensures Gate.CheckedStmt(RangeCase(start, end), env, sigs, ret).found == []
  {
    hide Gate.Typed;
    var counting := env["i" := Gate.TyInt];
    assert [AsStmt(Pass)][1..] == [] && Gate.Checked([], counting, sigs, ret).found == [];
    assert Gate.Checked([AsStmt(Pass)], counting, sigs, ret).found == [];
    assert Gate.Typed(Lit(1), env, sigs).found == [] by { LiteralTyped(env, sigs); }
  }

  lemma LiteralTyped(env: Gate.Facts, sigs: map<string, Gate.Surface>)
    ensures Gate.Typed(Lit(1), env, sigs).found == []
  {
  }

  lemma AppendAccepted(env: Gate.Facts, sigs: map<string, Gate.Surface>, ret: Gate.Ty)
    requires "f" in sigs && sigs["f"].params == [] && "f" !in env
    ensures Gate.CheckedStmt(AppendCase(), env, sigs, ret).found == []
  {
    assert [Ring("f")][1..] == [];
  }

  lemma ListAccepted(op: BinOp, e: Expr, env: Gate.Facts, sigs: map<string, Gate.Surface>, ret: Gate.Ty)
    requires "xs" in env && env["xs"] == Gate.TyDyn && op in {Mul, Lt} && (e.kind.Bool? || e.kind == Name("xs"))
    ensures Gate.CheckedStmt(ListCase(op, e), env, sigs, ret).found == []
  {
    assert Gate.Typed(e, env, sigs).found == [] && !Gate.Typed(e, env, sigs).ty.TyStr?;
    assert Gate.Typed(AsExpr(Name("xs")), env, sigs) == Gate.Judged(Gate.TyDyn, []);
  }

  lemma LenAccepted(env: Gate.Facts, sigs: map<string, Gate.Surface>, ret: Gate.Ty)
    requires "xs" in env && env["xs"] == Gate.TyDyn && "len" !in env && ("len" in sigs ==> sigs["len"].params == [Gate.TyDyn])
    ensures Gate.CheckedStmt(LenCase(), env, sigs, ret).found == []
  {
    assert [AsExpr(Name("xs"))][1..] == [] && [Gate.TyDyn][1..] == [];
  }
}
