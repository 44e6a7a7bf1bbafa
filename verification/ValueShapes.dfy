/** What the text of an expression says about its value (src/codegen.rs): whether it is a
    whole number, between which bounds, and whether computing it can fail or be noticed. */
module ValueShapes {
  import opened Syntax
  import opened Values
  import opened MachineIntegers
  import opened SlotChoice
  import opened PythonSemantics
  import opened DefiniteAssignment
  import opened ProperRuns
  import opened WholeSlots
  import opened Departures

  // ----------------------------------------------------------- whole numbers

  /** Its value is a whole number. */
  predicate SurelyInt(e: Expr, env: Env)
    decreases e, 0
  {
    ConstInt(e).Some? ||
    match e.kind
    case Int(_) => true
    case Name(x) => x in env.ints
    case Unary(op, _) => op == Neg
    case Bin(op, a, b) => op in {Sub, FloorDiv, Mod} || (op in {Add, Mul} && Spares(op, Scalarish(a, env), Scalarish(b, env)))
    case Call(f, _) => (f == "len" && f !in env.sigs) || ReturnsRaw(f, env.sigs)
    case _ => false
  }

  /** Its value is a whole number or a truth value. */
  predicate Scalarish(e: Expr, env: Env)
    decreases e, 1
  {
    SurelyInt(e, env) || e.kind.Bool? || e.kind.Unary? || (e.kind.Bin? && IsCompare(e.kind.bop))
  }

  /** Whether an operator has no business with lists, if its operands are scalars. */
  predicate Spares(op: BinOp, left: bool, right: bool) {
    op in {Sub, FloorDiv, Mod} || (if op == Mul then left && right else left || right)
  }

  predicate Unlisted(op: BinOp, a: Expr, b: Expr, env: Env) { Spares(op, Scalarish(a, env), Scalarish(b, env)) }

  ghost predicate Numbered(w: World, env: Env) { HoldsInts(env.ints, w.vars, w.globals, env) }

  predicate IsScalar(v: Value) { v.VInt? || v.VBool? }

  /** On such operands an operator is the plain one. */
  lemma PlainOnes(op: BinOp, a: Value, b: Value, w: World, o: Oracle, r: Rules)
    requires Spares(op, IsScalar(a), IsScalar(b))
    ensures Binary(op, a, b, w, o, r) == Plain(op, a, b, w)
  {
    hide Plain, Ask;
  }

  lemma PlainResult(op: BinOp, a: Value, b: Value, w: World)
    ensures var v := Plain(op, a, b, w);
      if v.Ok? then v.world == w && (if IsCompare(op) then v.value.VBool? else v.value.VInt?) else v.out == w.out && !v.error.Departs?
  {
    hide Arithmetic;
    forall x, y { ArithmeticStays(op, x, y); }
  }

  lemma ArithmeticStays(op: BinOp, x: int, y: int)
    ensures Arithmetic(op, x, y).NoNum? ==> !Arithmetic(op, x, y).error.Departs?
  {
    hide FloorQuotient, FloorRemainder;
  }

  lemma {:induction false} SureValue(e: Expr, w: World, o: Oracle, r: Rules)
    requires r.how.Watched? && Numbered(w, r.env)
    ensures var v := Eval(e, w, o, r); v.Ok? ==>
      (SurelyInt(e, r.env) ==> v.value.VInt?) && (Scalarish(e, r.env) ==> IsScalar(v.value))
    decreases e
  {
    hide HoldsInts, EvalAll, Binary, Negate, Ask, Test, Plain, Narrow;
    if ConstInt(e).None? {
      match e.kind
      case Name(x) => if x in r.env.ints { ReadInt(x, r.env.ints, w, r); }
      case Bin(op, a, b) =>
        var x := Eval(a, w, o, r);
        if x.Ok? {
          SureValue(a, w, o, r);
          SureValue(b, x.world, o, r);
          var y := Eval(b, x.world, o, r);
          if y.Ok? { SureBinary(op, a, b, x.value, y.value, y.world, o, r); }
        }
      case Call(f, args) =>
        if SurelyInt(e, r.env) { SureCalled(f, EvalAll(args, RawParams(f, r.env.sigs), f, w, o, r), o, r); }
      case _ =>
    }
  }

  lemma SureBinary(op: BinOp, a: Expr, b: Expr, x: Value, y: Value, w: World, o: Oracle, r: Rules)
    requires (Scalarish(a, r.env) ==> IsScalar(x)) && (Scalarish(b, r.env) ==> IsScalar(y))
    ensures var v := Binary(op, x, y, w, o, r);
      v.Ok? ==> (if IsCompare(op) then IsScalar(v.value) else Unlisted(op, a, b, r.env) ==> v.value.VInt?)
  {
    hide Plain, Ask, Scalarish;
    if Unlisted(op, a, b, r.env) { PlainOnes(op, x, y, w, o, r); }
    PlainResult(op, x, y, w);
  }

  lemma SureCalled(f: string, args: EvaluatedAll, o: Oracle, r: Rules)
    requires r.how.Watched? && ((f == "len" && f !in r.env.sigs) || ReturnsRaw(f, r.env.sigs))
    ensures var v := Called(f, args, o, r); v.Ok? ==> v.value.VInt?
  {
    hide Ask;
  }

  lemma Arithmetical(op: BinOp)
    ensures IsCompare(op) || op in {Add, Sub, Mul, FloorDiv, Mod}
  {
    match op case Add => case Sub => case Mul => case FloorDiv => case Mod => case _ =>
  }

  /** What the inference calls whole is whole, if `len` is what the inference takes it for. */
  lemma {:induction false} InferredSurely(e: Expr, env: Env)
    requires InferInt(e, env.ints, env.sigs) && LenCounts(env.sigs)
    ensures SurelyInt(e, env)
    decreases e
  {
    if e.kind.Bin? {
      Arithmetical(e.kind.bop);
      InferredSurely(e.kind.left, env);
      InferredSurely(e.kind.right, env);
    }
  }

  // ------------------------------------------------------------------ bounds

  /** The numbers from `lo` to `hi`. */
  datatype Extent = Extent(lo: int, hi: int)

  const EVERY: Extent := Extent(I32_MIN, I32_MAX)

  function Clipped(lo: int, hi: int): Extent { Extent(if lo < I32_MIN then I32_MIN else lo, if hi > I32_MAX then I32_MAX else hi) }

  /** Between which bounds a value lies that is a number. */
  function ExtentOf(e: Expr, env: Env): Extent {
    if ConstInt(e).Some? then Extent(ConstInt(e).value, ConstInt(e).value)
    else
      match e.kind
      case Bool(_) => Extent(0, 1)
      case Unary(Neg, i) => Clipped(-ExtentOf(i, env).hi, -ExtentOf(i, env).lo)
      case Unary(Not, _) => Extent(0, 1)
      case Bin(op, a, b) => if IsCompare(op) then Extent(0, 1) else Spread(op, ExtentOf(a, env), ExtentOf(b, env), Unlisted(op, a, b, env))
      case Call(f, _) => if f == "len" && f !in env.sigs then Extent(0, LIST_MAX) else EVERY
      case _ => EVERY
  }

  function Spread(op: BinOp, a: Extent, b: Extent, plain: bool): Extent {
    match op
    case Add => if plain then Clipped(a.lo + b.lo, a.hi + b.hi) else EVERY
    case Sub => Clipped(a.lo - b.hi, a.hi - b.lo)
    case FloorDiv => if b.lo >= 2 || b.hi <= -2 then Extent(-0x4000_0000, 0x4000_0000) else EVERY
    case Mod => Extent(if b.lo > 0 then 0 else -I32_MAX, if b.lo > 0 then b.hi - 1 else if b.hi < 0 then 0 else I32_MAX)
    case _ => EVERY
  }

  predicate Within(v: Value, x: Extent) { Unboxed(v).Num? ==> x.lo <= Unboxed(v).n <= x.hi }

  lemma {:induction false} ValueWithin(e: Expr, w: World, o: Oracle, r: Rules)
    requires r.how.Watched? && Numbered(w, r.env) && ProperWorld(w)
    ensures var v := Eval(e, w, o, r); v.Ok? ==> Within(v.value, ExtentOf(e, r.env))
    decreases e
  {
    hide HoldsInts, EvalAll, Binary, Ask, Test, ProperWorld, Unlisted, Spread;
    EvalProper(e, w, o, r);
    if ConstInt(e).None? {
      match e.kind
      case Unary(Neg, i) => ValueWithin(i, w, o, r);
      case Bin(op, a, b) =>
        var x := Eval(a, w, o, r);
        if x.Ok? {
          EvalProper(a, w, o, r);
          EvalProper(b, x.world, o, r);
          ValueWithin(a, w, o, r);
          ValueWithin(b, x.world, o, r);
          SureValue(a, w, o, r);
          SureValue(b, x.world, o, r);
          var y := Eval(b, x.world, o, r);
          if y.Ok? { BinaryWithin(op, a, b, x.value, y.value, y.world, o, r); }
        }
      case Call(f, args) =>
        AllProper(args, RawParams(f, r.env.sigs), f, w, o, r);
        CalledWithin(f, EvalAll(args, RawParams(f, r.env.sigs), f, w, o, r), o, r);
      case _ =>
    }
  }

  lemma CalledWithin(f: string, args: EvaluatedAll, o: Oracle, r: Rules)
    requires ProperResults(args)
    ensures var v := Called(f, args, o, r); v.Ok? && f == "len" && f !in r.env.sigs ==> Within(v.value, Extent(0, LIST_MAX))
  {
    hide Ask;
    if args.Oks? { LengthProper(args.world); }
  }

  lemma BinaryWithin(op: BinOp, a: Expr, b: Expr, x: Value, y: Value, w: World, o: Oracle, r: Rules)
    requires (Scalarish(a, r.env) ==> IsScalar(x)) && (Scalarish(b, r.env) ==> IsScalar(y)) && ProperValue(x) && ProperValue(y) && ProperWorld(w)
    requires Within(x, ExtentOf(a, r.env)) && Within(y, ExtentOf(b, r.env))
    ensures var v := Binary(op, x, y, w, o, r);
      v.Ok? ==> Within(v.value, if IsCompare(op) then Extent(0, 1) else Spread(op, ExtentOf(a, r.env), ExtentOf(b, r.env), Unlisted(op, a, b, r.env)))
  {
    hide Ask, Scalarish, ExtentOf, ProperWorld, Binary, Spread, Within;
    BinaryProper(op, x, y, w, o, r);
    SureBinary(op, a, b, x, y, w, o, r);
    var v, plain := Binary(op, x, y, w, o, r), Unlisted(op, a, b, r.env);
    if v.Ok? {
      if IsCompare(op) {
        TruthWithin(op, x, y, v.value, w, o, r);
      } else {
        if plain { PlainOnes(op, x, y, w, o, r); }
        FullWithin(v.value);
        PlainWithin(op, x, y, w, ExtentOf(a, r.env), ExtentOf(b, r.env), plain, v.value);
      }
    }
  }

  lemma TruthWithin(op: BinOp, x: Value, y: Value, v: Value, w: World, o: Oracle, r: Rules)
    requires IsCompare(op) && Binary(op, x, y, w, o, r).Ok? && v == Binary(op, x, y, w, o, r).value
    ensures Within(v, Extent(0, 1))
  {
    hide Ask, Plain;
    PlainResult(op, x, y, w);
  }

  lemma FullWithin(v: Value)
    requires ProperValue(v)
    ensures Within(v, EVERY)
  {
  }

  /** Arithmetic on bounds. */
  lemma PlainWithin(op: BinOp, x: Value, y: Value, w: World, a: Extent, b: Extent, plain: bool, v: Value)
    requires !IsCompare(op) && Within(x, a) && Within(y, b) && ProperValue(x) && ProperValue(y) && Within(v, EVERY)
    requires op in {Sub, FloorDiv, Mod} ==> plain
    requires plain ==> Plain(op, x, y, w).Ok? && Plain(op, x, y, w).value == v
    ensures Within(v, Spread(op, a, b, plain))
  {
    if plain {
      hide FloorQuotient, FloorRemainder;
      var m, n := Unboxed(x).n, Unboxed(y).n;
      match op {
        case FloorDiv => QuotientSpread(m, n);
        case Mod => RemainderSpread(m, n);
        case _ =>
      }
    }
  }

  lemma QuotientSpread(m: int, n: int)
    requires Fits(m) && Fits(n) && n != 0
    ensures n >= 2 || n <= -2 ==> -0x4000_0000 <= FloorQuotient(m, n) <= 0x4000_0000
  {
    if n >= 2 { Halved(m, n); }
    if n <= -2 { Halved(-m, -n); }
  }

  lemma Halved(m: int, n: int)
    requires -0x8000_0000 <= m <= 0x8000_0000 && n >= 2
    ensures -0x4000_0000 <= m / n <= 0x4000_0000
  {
    var q := m / n;
    assert m == n * q + m % n;
    if q > 0x4000_0000 { Multiples(n, 0x4000_0001, q); Multiples(0x4000_0001, 2, n); }
    if q < -0x4000_0000 { Multiples(n, q, -0x4000_0001); Multiples(0x4000_0001, 2, n); }
  }

  lemma Multiples(n: int, a: int, b: int)
    requires n > 0 && a <= b
    ensures n * a <= n * b
  {
  }

  lemma RemainderSpread(m: int, n: int)
    requires Fits(m) && Fits(n) && n != 0
    ensures if n > 0 then 0 <= FloorRemainder(m, n) < n else n < FloorRemainder(m, n) <= 0
  {
    if n > 0 {
      assert m == n * (m / n) + m % n;
    } else {
      assert -m == (-n) * ((-m) / (-n)) + (-m) % (-n);
    }
  }

  // ------------------------------------------------------------------ quiet

  /** Computing it changes nothing, prints nothing and is done alike by Python and the code. */
  predicate Quiet(e: Expr, env: Env) {
    ConstInt(e).Some? ||
    match e.kind
    case Unary(Neg, i) => Quiet(i, env) && ExtentOf(i, env).lo > I32_MIN
    case Unary(Not, i) => Quiet(i, env)
    case Bin(op, a, b) => Quiet(a, env) && Quiet(b, env) && Unlisted(op, a, b, env)
    case Call(f, args) => f == "len" && f !in env.sigs && |args| == 1 && Quiet(args[0], env)
    case MethodCall(_, _, _) => false
    case _ => true
  }

  /** Nor can it fail. */
  predicate Certain(e: Expr, env: Env) {
    if ConstInt(e).Some? then Fits(ConstInt(e).value)
    else
      match e.kind
      case Bool(_) => true
      case Name(_) => true
      case Unary(op, i) => op == Not && Certain(i, env)
      case Bin(op, a, b) =>
        && IsCompare(op) && Certain(a, env) && Certain(b, env)
        && (if op in {Eq, Ne} then Scalarish(a, env) || Scalarish(b, env) else Scalarish(a, env) && Scalarish(b, env))
      case _ => false
  }

  /** Known without computing anything. */
  predicate Immediate(e: Expr) { e.kind.Name? || e.kind.Bool? || (ConstInt(e).Some? && Fits(ConstInt(e).value)) }

  ghost predicate AllAssigned(names: set<string>, w: World, env: Env) { forall x :: x in names ==> Lookup(x, w, env).Some? }

  lemma Fewer(names: set<string>, more: set<string>, w: World, env: Env)
    requires AllAssigned(more, w, env) && names <= more
    ensures AllAssigned(names, w, env)
  {
  }

  /** Two worlds between which only the output differs. */
  predicate Alike(w: World, u: World) { u == w.(out := u.out) }

  /** The setting: names are assigned, those that count as whole hold whole numbers, and
      every number and list is a proper one. */
  ghost predicate Ready(names: set<string>, w: World, env: Env) { AllAssigned(names, w, env) && Numbered(w, env) && ProperWorld(w) }

  lemma ReadyAlike(names: set<string>, more: set<string>, w: World, u: World, env: Env)
    requires Ready(more, w, env) && names <= more && u.vars == w.vars && u.globals == w.globals && ProperWorld(u)
    ensures Ready(names, u, env)
  {
  }

  /** The same value, or the same failure, and nothing changed. */
  predicate Undisturbed(v: Evaluated, v2: Evaluated, w: World, u: World) {
    if v.Ok? then v.world == w && v2 == Ok(v.value, u) else v.out == w.out && !v.error.Departs? && v2 == Fail(v.error, u.out)
  }

  predicate UndisturbedTest(t: Tested, t2: Tested, w: World, u: World) {
    if t.Holds? then t.world == w && t2 == Holds(t.b, u) else t.out == w.out && !t.error.Departs? && t2 == Breaks(t.error, u.out)
  }

  lemma {:induction false} QuietRuns(e: Expr, w: World, u: World, o: Oracle, r: Rules)
    requires r.how.Watched? && Quiet(e, r.env) && Ready(Reads(e), w, r.env) && Alike(w, u)
    ensures Undisturbed(Eval(e, w, o, r), Eval(e, u, o, r), w, u)
    decreases e, 0
  {
    hide HoldsInts, EvalAll, Binary, Ask, Test, ProperWorld, Unlisted, Negate, ExtentOf, Narrow, AllAssigned, ConstInt, Len;
    if ConstInt(e).Some? {
      NarrowStays(e, w, u, o, r);
    } else {
      match e.kind
      case Int(n) => assert ConstInt(e).Some? by { Literal(e); }
      case Name(x) => ReadRuns(x, w, u, r);
      case Unary(Neg, i) =>
        QuietRuns(i, w, u, o, r);
        var v := Eval(i, w, o, r);
        if v.Ok? {
          ValueWithin(i, w, o, r);
          EvalProper(i, w, o, r);
          NegateStays(v.value, ExtentOf(i, r.env), r);
        }
      case Unary(Not, i) => QuietTest(i, w, u, o, r);
      case Bin(op, a, b) => QuietBin(e, op, a, b, w, u, o, r);
      case Call(f, args) => QuietLen(e, f, args, w, u, o, r);
      case _ =>
    }
  }

  lemma Literal(e: Expr)
    requires e.kind.Int?
    ensures ConstInt(e).Some?
  {
  }

  lemma NarrowStays(e: Expr, w: World, u: World, o: Oracle, r: Rules)
    requires ConstInt(e).Some?
    ensures Undisturbed(Eval(e, w, o, r), Eval(e, u, o, r), w, u)
  {
  }

  lemma ReadRuns(x: string, w: World, u: World, r: Rules)
    requires AllAssigned({x}, w, r.env) && Alike(w, u)
    ensures Undisturbed(Read(x, w, r), Read(x, u, r), w, u) && Read(x, w, r).Ok?
  {
  }

  lemma NegateStays(v: Value, x: Extent, r: Rules)
    requires Within(v, x) && ProperValue(v) && x.lo > I32_MIN
    ensures Negate(v, r).NoNum? ==> !Negate(v, r).error.Departs?
  {
  }

  lemma {:induction false} QuietBin(e: Expr, op: BinOp, a: Expr, b: Expr, w: World, u: World, o: Oracle, r: Rules)
    requires e.kind == Bin(op, a, b) && ConstInt(e).None?
    requires r.how.Watched? && Quiet(e, r.env) && Ready(Reads(e), w, r.env) && Alike(w, u)
    ensures Undisturbed(Eval(e, w, o, r), Eval(e, u, o, r), w, u)
    decreases e, 0, 0
  {
    hide HoldsInts, Binary, ProperWorld, AllAssigned, ConstInt;
    ReadyAlike(Reads(a), Reads(e), w, w, r.env);
    ReadyAlike(Reads(b), Reads(e), w, w, r.env);
    QuietRuns(a, w, u, o, r);
    QuietRuns(b, w, u, o, r);
    SureValue(a, w, o, r);
    SureValue(b, w, o, r);
    var x, y := Eval(a, w, o, r), Eval(b, w, o, r);
    if x.Ok? && y.Ok? { QuietBinary(op, a, b, x.value, y.value, w, u, o, r); }
  }

  lemma QuietBinary(op: BinOp, a: Expr, b: Expr, x: Value, y: Value, w: World, u: World, o: Oracle, r: Rules)
    requires (Scalarish(a, r.env) ==> IsScalar(x)) && (Scalarish(b, r.env) ==> IsScalar(y)) && Unlisted(op, a, b, r.env)
    ensures Undisturbed(Binary(op, x, y, w, o, r), Binary(op, x, y, u, o, r), w, u)
  {
    hide Binary, Scalarish, Arithmetic;
    PlainOnes(op, x, y, w, o, r);
    PlainOnes(op, x, y, u, o, r);
    forall m, n { ArithmeticStays(op, m, n); }
  }

  lemma {:induction false} QuietLen(e: Expr, f: string, args: seq<Expr>, w: World, u: World, o: Oracle, r: Rules)
    requires e.kind == Call(f, args) && ConstInt(e).None?
    requires r.how.Watched? && Quiet(e, r.env) && Ready(Reads(e), w, r.env) && Alike(w, u)
    ensures Undisturbed(Eval(e, w, o, r), Eval(e, u, o, r), w, u)
    decreases e, 0, 0
  {
    hide HoldsInts, ProperWorld, AllAssigned, ConstInt, EvalAll;
    assert Reads(args[0]) == ReadsAll(args) by { assert args[1..] == []; }
    ReadyAlike(Reads(args[0]), Reads(e), w, w, r.env);
    QuietRuns(args[0], w, u, o, r.At(false));
    OneArgument(args, f, w, o, r);
    OneArgument(args, f, u, o, r);
  }

  lemma {:induction false} QuietTest(e: Expr, w: World, u: World, o: Oracle, r: Rules)
    requires r.how.Watched? && Quiet(e, r.env) && Ready(Reads(e), w, r.env) && Alike(w, u)
    ensures UndisturbedTest(Test(e, w, o, r), Test(e, u, o, r), w, u)
    decreases e, 1
  {
    hide Eval, TestsRaw, HoldsInts, ProperWorld, AllAssigned;
    if e.kind.Unary? && e.kind.op == Not {
      assert ConstInt(e).None?;
      QuietTest(e.kind.operand, w, u, o, r);
    } else {
      QuietRuns(e, w, u, o, r.At(TestsRaw(e, r.env)));
    }
  }

  lemma {:induction false} CertainRuns(e: Expr, w: World, o: Oracle, r: Rules)
    requires r.how.Watched? && Certain(e, r.env) && Ready(Reads(e), w, r.env)
    ensures Eval(e, w, o, r).Ok? && Eval(e, w, o, r).world == w
    decreases e, 0
  {
    hide HoldsInts, Binary, Ask, Test, ProperWorld, Scalarish, AllAssigned;
    if ConstInt(e).None? {
      match e.kind
      case Name(x) => ReadRuns(x, w, w, r);
      case Unary(_, i) => CertainTest(i, w, o, r);
      case Bin(op, a, b) =>
        ReadyAlike(Reads(a), Reads(e), w, w, r.env);
        ReadyAlike(Reads(b), Reads(e), w, w, r.env);
        CertainRuns(a, w, o, r);
        CertainRuns(b, w, o, r);
        SureValue(a, w, o, r);
        SureValue(b, w, o, r);
        EvalProper(a, w, o, r);
        EvalProper(b, w, o, r);
        CompareRuns(op, Eval(a, w, o, r).value, Eval(b, w, o, r).value, w, o, r);
      case _ =>
    }
  }

  lemma CompareRuns(op: BinOp, x: Value, y: Value, w: World, o: Oracle, r: Rules)
    requires IsCompare(op) && ProperValue(x) && ProperValue(y)
    requires if op in {Eq, Ne} then IsScalar(x) || IsScalar(y) else IsScalar(x) && IsScalar(y)
    ensures Binary(op, x, y, w, o, r).Ok? && Binary(op, x, y, w, o, r).world == w
  {
    PlainOnes(op, x, y, w, o, r);
  }

  lemma {:induction false} CertainTest(e: Expr, w: World, o: Oracle, r: Rules)
    requires r.how.Watched? && Certain(e, r.env) && Ready(Reads(e), w, r.env)
    ensures Test(e, w, o, r).Holds? && Test(e, w, o, r).world == w
    decreases e, 1
  {
    hide Eval, TestsRaw, HoldsInts, ProperWorld, AllAssigned;
    if e.kind.Unary? && e.kind.op == Not {
      CertainTest(e.kind.operand, w, o, r);
    } else {
      CertainRuns(e, w, o, r.At(TestsRaw(e, r.env)));
      EvalProper(e, w, o, r.At(TestsRaw(e, r.env)));
    }
  }

  /** What an immediate expression is worth. */
  function Worth(e: Expr, w: World, env: Env): Value {
    if ConstInt(e).Some? then VInt(ConstInt(e).value)
    else if e.kind.Bool? then VBool(e.kind.b)
    else if e.kind.Name? && Lookup(e.kind.name, w, env).Some? then Lookup(e.kind.name, w, env).value
    else VNone
  }

  lemma ImmediateRuns(e: Expr, w: World, o: Oracle, r: Rules)
    requires Immediate(e) && AllAssigned(Reads(e), w, r.env)
    ensures Eval(e, w, o, r) == Ok(Worth(e, w, r.env), w)
  {
  }
}
