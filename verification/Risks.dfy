/** At which points a run of a body can part from Python (src/codegen.rs), read off its
    text: every departure of every watched run is among its risks. */
module Risks {
  import opened Syntax
  import opened Values
  import opened SlotChoice
  import opened PythonSemantics
  import opened DefiniteAssignment
  import opened ProperRuns
  import opened Departures
  import opened RangeCounters
  import opened ValueShapes

  // ----------------------------------------------------------------- the text

  /** `raw`: the expression is computed unboxed, where negation is checked. */
  function ExprRisks(e: Expr, raw: bool, env: Env): set<Departure>
    decreases e, 0
  {
    if ConstInt(e).Some? then {}
    else
      match e.kind
      case Unary(Neg, i) => ExprRisks(i, raw, env) + (if raw || ExtentOf(i, env).lo > I32_MIN then {} else {NegWrap})
      case Unary(Not, i) => TestRisks(i, env)
      case Bin(op, a, b) => ExprRisks(a, raw, env) + ExprRisks(b, raw, env) + ListRisks(op, a, b, env)
      case Call(f, args) => ArgRisks(args, RawParams(f, env.sigs), f, env) + (if ReturnsRaw(f, env.sigs) then {Unkept(f)} else {})
      case MethodCall(obj, m, args) =>
        ExprRisks(obj, false, env) + ArgRisks(args, [], m, env) + (if m == "append" && |args| == 1 then LookupRisks(args[0], env) else {})
      case _ => {}
  }

  /** Repeating a list by a truth value, and ordering two lists. */
  function ListRisks(op: BinOp, a: Expr, b: Expr, env: Env): set<Departure> {
    if op == Mul && !Unlisted(op, a, b, env) && !SurelyInt(a, env) && !SurelyInt(b, env) then {ListTimesBool}
    else if op in {Lt, Le, Gt, Ge} && !Unlisted(op, a, b, env) then {ListOrder}
    else {}
  }

  /** `append` to something that has none: the argument is computed first. */
  function LookupRisks(arg: Expr, env: Env): set<Departure> {
    if !Quiet(arg, env) then {OtherError, Reordered} else if Certain(arg, env) then {} else {OtherError}
  }

  function SlotRisks(e: Expr, raw: bool, callee: string, env: Env): set<Departure>
    decreases e, 1
  {
    ExprRisks(e, raw && Scalar(e, env), env) + (if raw && !SurelyInt(e, env) then {Misfit(callee)} else {})
  }

  function ArgRisks(es: seq<Expr>, raws: seq<bool>, f: string, env: Env): set<Departure>
    decreases es, 1
  {
    if es == [] then {}
    else SlotRisks(es[0], raws != [] && raws[0], f, env) + ArgRisks(es[1..], if raws == [] then [] else raws[1..], f, env)
  }

  function TestRisks(e: Expr, env: Env): set<Departure>
    decreases e, 3
  {
    if e.kind.Unary? && e.kind.op == Not then TestRisks(e.kind.operand, env) else ExprRisks(e, TestsRaw(e, env), env)
  }

  predicate AllQuiet(es: seq<Expr>, env: Env) { forall e :: e in es ==> Quiet(e, env) }

  predicate AllCertain(es: seq<Expr>, env: Env) { forall e :: e in es ==> Certain(e, env) }

  /** The arguments after the first are computed when something is printed already. */
  function PrintRisks(args: seq<Expr>, env: Env): set<Departure> {
    if |args| <= 1 then {}
    else if !AllQuiet(args[1..], env) then {PrintedBefore, Reordered}
    else if AllCertain(args[1..], env) then {}
    else {PrintedBefore}
  }

  predicate GoodStep(step: Expr) { ConstInt(step).Some? && ConstInt(step).value != 0 && Fits(ConstInt(step).value) }

  /** An end that is no constant is computed before the start. */
  function OrderRisks(start: Expr, end: Expr, step: Expr, env: Env): set<Departure> {
    if !GoodStep(step) then {OtherError, Reordered}
    else if ConstInt(end).Some? && Fits(ConstInt(end).value) then {}
    else if ConstInt(end).None? && Immediate(start) then {}
    else if ConstInt(end).None? && Quiet(start, env) && Quiet(end, env) then
      if Certain(start, env) || (Certain(end, env) && Scalarish(end, env)) then {} else {OtherError}
    else {OtherError, Reordered}
  }

  function CounterRisks(start: Expr, end: Expr, step: Expr, env: Env): set<Departure> {
    if ConstInt(step).None? || ConstInt(step).value == 0 || CountsSafely(start, end, ConstInt(step).value, env) then {} else {CounterWrap}
  }

  /** One step past the end still fits, or the last counter is known to. */
  predicate CountsSafely(start: Expr, end: Expr, step: int, env: Env)
    requires step != 0
  {
    || Fits(if step > 0 then ExtentOf(end, env).hi - 1 + step else ExtentOf(end, env).lo + 1 + step)
    || (ConstInt(start).Some? && ConstInt(end).Some? && Stays(ConstInt(start).value, ConstInt(end).value, step))
  }

  function RangeRisks(start: Expr, end: Expr, step: Expr, env: Env): set<Departure> {
    ExprRisks(start, Scalar(start, env), env) + ExprRisks(end, Scalar(end, env), env) + ExprRisks(step, false, env)
    + OrderRisks(start, end, step, env)
  }

  function BlockRisks(b: Block, env: Env): set<Departure>
    decreases BlockSize(b), 1
  {
    if b == [] then {} else StmtRisks(b[0], env) + BlockRisks(b[1..], env)
  }

  function StmtRisks(s: Stmt, env: Env): set<Departure>
    decreases StmtSize(s), 0
  {
    match s.kind
    case Assign(x, e) => BindRisks(x, e, env)
    case AnnAssign(x, e, _) => BindRisks(x, e, env)
    case ExprStmt(e) =>
      if e.kind.Call? && e.kind.func == "print" then ArgRisks(e.kind.args, [], "print", env) + PrintRisks(e.kind.args, env)
      else ExprRisks(e, false, env)
    case Return(Some(e)) => SlotRisks(e, env.scalar, "return", env)
    case If(c, body, elifs, orelse) => TestRisks(c, env) + BlockRisks(body, env) + ArmRisks(elifs, env) + BlockRisks(ElseOf(orelse), env)
    case While(c, body) => TestRisks(c, env) + BlockRisks(body, env)
    case For(_, start, end, step, body, _) =>
      RangeRisks(start, end, step, env) + CounterRisks(start, end, step, env) + BlockRisks(body, env)
    case ForEach(x, iterable, body) => ExprRisks(iterable, false, env) + (if x in env.ints then {Mistyped(x)} else {}) + BlockRisks(body, env)
    case _ => {}
  }

  function BindRisks(x: string, e: Expr, env: Env): set<Departure> {
    ExprRisks(e, x in env.typed && Scalar(e, env), env) + (if x in env.ints && !SurelyInt(e, env) then {Mistyped(x)} else {})
  }

  function ArmRisks(elifs: seq<Arm>, env: Env): set<Departure>
    decreases ArmsSize(elifs), 1
  {
    if elifs == [] then {} else TestRisks(elifs[0].cond, env) + BlockRisks(elifs[0].body, env) + ArmRisks(elifs[1..], env)
  }

  // -------------------------------------------------------------- the setting

  /** Functions that promise whole numbers give back whole numbers. */
  ghost predicate Promises(o: Oracle, sigs: map<string, Sig>) {
    forall q: Query :: ReturnsRaw(q.callee, sigs) && o(q).Gives? ==> o(q).value.VInt?
  }

  /** A departure is among the risks; and nobody is said to break a promise that all keep. */
  ghost predicate Foreseen(k: Error, risks: set<Departure>, o: Oracle, env: Env) {
    k.Departs? ==> k.departure in risks && (k.departure.Unkept? ==> !Promises(o, env.sigs))
  }

  ghost predicate Told(v: Evaluated, risks: set<Departure>, o: Oracle, env: Env) { v.Fail? ==> Foreseen(v.error, risks, o, env) }

  lemma ReadyAfter(e: Expr, names: set<string>, more: set<string>, w: World, o: Oracle, r: Rules)
    requires r.how.Watched? && Ready(more, w, r.env) && names <= more
    ensures var v := Eval(e, w, o, r); v.Ok? ==> Ready(names, v.world, r.env)
  {
    hide Eval, Ready;
    assert ProperWorld(w) by { ReadyProper(more, w, r.env); }
    EvalProper(e, w, o, r);
    var v := Eval(e, w, o, r);
    if v.Ok? { ReadyAlike(names, more, w, v.world, r.env); }
  }

  lemma ReadyProper(names: set<string>, w: World, env: Env)
    requires Ready(names, w, env)
    ensures ProperWorld(w) && Numbered(w, env)
  {
  }

  lemma ReadyLess(names: set<string>, more: set<string>, w: World, env: Env)
    requires Ready(more, w, env) && names <= more
    ensures Ready(names, w, env)
  {
  }

  // -------------------------------------------------------------- expressions

  lemma AskStays(f: string, vs: seq<Value>, w: World, o: Oracle, r: Rules)
    ensures !Departed(Ask(f, vs, w, o, r))
  {
  }

  lemma BinaryTold(op: BinOp, a: Expr, b: Expr, x: Value, y: Value, w: World, o: Oracle, r: Rules)
    requires r.how.Watched? && (SurelyInt(a, r.env) ==> x.VInt?) && (SurelyInt(b, r.env) ==> y.VInt?)
    requires (Scalarish(a, r.env) ==> IsScalar(x)) && (Scalarish(b, r.env) ==> IsScalar(y))
    ensures Told(Binary(op, x, y, w, o, r), ListRisks(op, a, b, r.env), o, r.env)
  {
    hide Plain, Ask, Ordering, SurelyInt, Scalarish;
    AskStays("+", [x, y], w, o, r);
    AskStays("*", [x, y], w, o, r);
    AskStays("==", [x, y], w, o, r);
    PlainResult(op, x, y, w);
  }

  lemma CalledTold(f: string, args: EvaluatedAll, risks: set<Departure>, o: Oracle, r: Rules)
    requires r.how.Watched? && (args.Fails? ==> Foreseen(args.error, risks, o, r.env)) && (ReturnsRaw(f, r.env.sigs) ==> Unkept(f) in risks)
    ensures Told(Called(f, args, o, r), risks, o, r.env)
  {
    hide ReturnsRaw;
    if args.Oks? && !(f == "len" && f !in r.env.sigs) {
      var q := Query(args.world.calls, f, args.values, args.world.heap, Seen(args.world, r.env));
      if Promises(o, r.env.sigs) { assert ReturnsRaw(q.callee, r.env.sigs) && o(q).Gives? ==> o(q).value.VInt?; }
    }
  }

  lemma {:induction false} EvalTold(e: Expr, w: World, o: Oracle, r: Rules)
    requires r.how.Watched? && Ready(Reads(e), w, r.env)
    ensures Told(Eval(e, w, o, r), ExprRisks(e, r.raw, r.env), o, r.env)
    decreases e, 0
  {
    hide ConstInt, Binary, Called, Sent, EvalAll, Test, Ready, ReadsAll, ArgRisks, ListRisks, LookupRisks, ExtentOf, Negate, Promises;
    if ConstInt(e).None? {
      match e.kind {
        case Name(x) => ReadTold(x, w, r);
        case Unary(op, i) => if op == Not { TestTold(i, w, o, r); } else { NegTold(e, i, w, o, r); }
        case Bin(op, a, b) => BinTold(e, op, a, b, w, o, r);
        case Call(f, args) =>
          AllTold(args, RawParams(f, r.env.sigs), f, w, o, r);
          CalledTold(f, EvalAll(args, RawParams(f, r.env.sigs), f, w, o, r), ExprRisks(e, r.raw, r.env), o, r);
        case MethodCall(obj, m, args) => MethodTold(e, obj, m, args, w, o, r);
        case _ =>
      }
    }
  }

  lemma ReadTold(x: string, w: World, r: Rules)
    requires Ready({x}, w, r.env)
    ensures !Departed(Read(x, w, r))
  {
    ReadRuns(x, w, w, r);
  }

  lemma {:induction false} NegTold(e: Expr, i: Expr, w: World, o: Oracle, r: Rules)
    requires e.kind == Unary(Neg, i) && ConstInt(e).None? && r.how.Watched? && Ready(Reads(e), w, r.env)
    ensures Told(Eval(e, w, o, r), ExprRisks(e, r.raw, r.env), o, r.env)
    decreases e, 0, 0
  {
    hide ConstInt, Ready, ExtentOf, Negate, Promises;
    EvalTold(i, w, o, r);
    ReadyProper(Reads(e), w, r.env);
    ValueWithin(i, w, o, r);
    EvalProper(i, w, o, r);
    var v := Eval(i, w, o, r);
    if v.Ok? { NegateTold(v.value, ExtentOf(i, r.env), r); }
  }

  lemma NegateTold(v: Value, x: Extent, r: Rules)
    requires r.how.Watched? && Within(v, x) && ProperValue(v)
    ensures var n := Negate(v, r); n.NoNum? && n.error.Departs? ==> n.error.departure == NegWrap && !r.raw && x.lo <= I32_MIN
  {
  }

  lemma {:induction false} BinTold(e: Expr, op: BinOp, a: Expr, b: Expr, w: World, o: Oracle, r: Rules)
    requires e.kind == Bin(op, a, b) && ConstInt(e).None? && r.how.Watched? && Ready(Reads(e), w, r.env)
    ensures Told(Eval(e, w, o, r), ExprRisks(e, r.raw, r.env), o, r.env)
    decreases e, 0, 0
  {
    hide ConstInt, Binary, Ready, ListRisks, Promises, SurelyInt, Scalarish;
    ReadyLess(Reads(a), Reads(e), w, r.env);
    EvalTold(a, w, o, r);
    var x := Eval(a, w, o, r);
    if x.Ok? {
      ReadyAfter(a, Reads(b), Reads(e), w, o, r);
      EvalTold(b, x.world, o, r);
      var y := Eval(b, x.world, o, r);
      if y.Ok? {
        ReadyProper(Reads(e), w, r.env);
        SureValue(a, w, o, r);
        SureValue(b, x.world, o, r) by { ReadyProper(Reads(b), x.world, r.env); }
        BinaryTold(op, a, b, x.value, y.value, y.world, o, r);
      }
    }
  }

  lemma {:induction false} MethodTold(e: Expr, obj: Expr, m: string, args: seq<Expr>, w: World, o: Oracle, r: Rules)
    requires e.kind == MethodCall(obj, m, args) && ConstInt(e).None? && r.how.Watched? && Ready(Reads(e), w, r.env)
    ensures Told(Eval(e, w, o, r), ExprRisks(e, r.raw, r.env), o, r.env)
    decreases e, 0, 0
  {
    hide ConstInt, Sent, EvalAll, Ready, ReadsAll, ArgRisks, LookupRisks, Promises;
    ReadyLess(Reads(obj), Reads(e), w, r.env);
    EvalTold(obj, w, o, r.At(false));
    var l := Eval(obj, w, o, r.At(false));
    if l.Ok? {
      ReadyAfter(obj, ReadsAll(args), Reads(e), w, o, r.At(false));
      AllTold(args, [], m, l.world, o, r);
      var vs := EvalAll(args, [], m, l.world, o, r);
      if m == "append" && |args| == 1 { AppendTold(l.value, args, w, l.world, ExprRisks(e, r.raw, r.env), o, r); }
      else { OtherTold(l.value, m, |args|, vs, w, l.world, ExprRisks(e, r.raw, r.env), o, r); }
    }
  }

  lemma OtherTold(l: Value, m: string, n: nat, args: EvaluatedAll, before: World, w: World, risks: set<Departure>, o: Oracle, r: Rules)
    requires !(m == "append" && n == 1) && (args.Oks? ==> |args.values| == n) && (args.Fails? ==> Foreseen(args.error, risks, o, r.env))
    ensures Told(Sent(l, m, n, args, before, w, o, r), risks, o, r.env)
  {
    hide Ask;
    if args.Oks? { AskStays("." + m, [l] + args.values, args.world, o, r); }
  }

  lemma AppendTold(l: Value, args: seq<Expr>, before: World, w: World, risks: set<Departure>, o: Oracle, r: Rules)
    requires r.how.Watched? && |args| == 1 && LookupRisks(args[0], r.env) <= risks && Ready(ReadsAll(args), w, r.env)
    requires var vs := EvalAll(args, [], "append", w, o, r); vs.Fails? ==> Foreseen(vs.error, risks, o, r.env)
    ensures Told(Sent(l, "append", 1, EvalAll(args, [], "append", w, o, r), before, w, o, r), risks, o, r.env)
  {
    hide Eval, EvalAll, Ready, Quiet, Certain, Promises;
    OneArgument(args, "append", w, o, r);
    assert ReadsAll(args) == Reads(args[0]) by { assert args[1..] == []; }
    if Quiet(args[0], r.env) {
      QuietRuns(args[0], w, w, o, r.At(false));
      if Certain(args[0], r.env) { CertainRuns(args[0], w, o, r.At(false)); }
    }
  }

  lemma {:induction false} AllTold(es: seq<Expr>, raws: seq<bool>, f: string, w: World, o: Oracle, r: Rules)
    requires r.how.Watched? && Ready(ReadsAll(es), w, r.env)
    ensures var v := EvalAll(es, raws, f, w, o, r); v.Fails? ==> Foreseen(v.error, ArgRisks(es, raws, f, r.env), o, r.env)
    decreases es, 2
  {
    hide Slot, Ready, SlotRisks, Promises;
    if es != [] {
      var raw := raws != [] && raws[0];
      ReadyLess(Reads(es[0]), ReadsAll(es), w, r.env);
      SlotTold(es[0], raw, f, w, o, r);
      var v := Slot(es[0], raw, f, w, o, r);
      if v.Ok? {
        SlotReady(es[0], raw, f, ReadsAll(es[1..]), ReadsAll(es), w, o, r);
        AllTold(es[1..], if raws == [] then [] else raws[1..], f, v.world, o, r);
      }
    }
  }

  lemma SlotReady(e: Expr, raw: bool, f: string, names: set<string>, more: set<string>, w: World, o: Oracle, r: Rules)
    requires r.how.Watched? && Ready(more, w, r.env) && names <= more
    ensures var v := Slot(e, raw, f, w, o, r); v.Ok? ==> Ready(names, v.world, r.env)
  {
    hide Eval, Ready, Scalar;
    ReadyAfter(e, names, more, w, o, r.At(raw && Scalar(e, r.env)));
  }

  lemma {:induction false} SlotTold(e: Expr, raw: bool, f: string, w: World, o: Oracle, r: Rules)
    requires r.how.Watched? && Ready(Reads(e), w, r.env)
    ensures Told(Slot(e, raw, f, w, o, r), SlotRisks(e, raw, f, r.env), o, r.env)
    decreases e, 1
  {
    hide Eval, Ready, ExprRisks, SurelyInt, Scalar, Promises;
    var r1 := r.At(raw && Scalar(e, r.env));
    EvalTold(e, w, o, r1);
    ReadyProper(Reads(e), w, r.env);
    SureValue(e, w, o, r1);
  }

  lemma {:induction false} TestTold(e: Expr, w: World, o: Oracle, r: Rules)
    requires r.how.Watched? && Ready(Reads(e), w, r.env)
    ensures var t := Test(e, w, o, r); t.Breaks? ==> Foreseen(t.error, TestRisks(e, r.env), o, r.env)
    decreases e, 3
  {
    hide Eval, Ready, TestsRaw, ExprRisks, Promises;
    if e.kind.Unary? && e.kind.op == Not {
      TestTold(e.kind.operand, w, o, r);
    } else {
      EvalTold(e, w, o, r.At(TestsRaw(e, r.env)));
      var v := Eval(e, w, o, r.At(TestsRaw(e, r.env)));
      if v.Ok? { TruthSpeaks(v.value, v.world); }
    }
  }

  // -------------------------------------------------------------------- print

  ghost predicate ToldRun(y: Outcome, risks: set<Departure>, o: Oracle, env: Env) { y.Stopped? ==> Foreseen(y.error, risks, o, env) }

  /** With later arguments that are quiet, the two ways to print agree, or both stop. */
  lemma {:induction false} QuietPrints(args: seq<Expr>, w: World, u: World, o: Oracle, r: Rules)
    requires r.how.Watched? && AllQuiet(args, r.env) && Ready(ReadsAll(args), w, r.env) && Alike(w, u)
    ensures var vs, y := EvalAll(args, [], "print", w, o, r), PrintEach(args, u, o, r);
      if vs.Oks? then vs.world == w && PrintValues(vs.values, u) == y
      else !AllCertain(args, r.env) && vs.out == w.out && !vs.error.Departs? && Errs(y)
    decreases |args|
  {
    hide Eval, Ready, Quiet, Certain, Reads;
    if args != [] {
      var e, r1 := args[0], r.At(false);
      assert e in args;
      ReadyLess(Reads(e), ReadsAll(args), w, r.env);
      ReadyLess(ReadsAll(args[1..]), ReadsAll(args), w, r.env);
      QuietRuns(e, w, u, o, r1);
      if Certain(e, r.env) { CertainRuns(e, w, o, r1); }
      var v := Eval(e, w, o, r1);
      assert Slot(e, false, "print", w, o, r) == v;
      if v.Ok? {
        assert ProperValue(v.value) by { ReadyProper(Reads(e), w, r.env); EvalProper(e, w, o, r1); }
        var z := u.(out := u.out + [Shown(v.value, u.heap)]);
        assert Printed(v.value, u) == Ok(VNone, z);
        QuietPrints(args[1..], w, if |args| == 1 then z else Put(z, Space), o, r);
        var rest := EvalAll(args[1..], [], "print", w, o, r);
        if rest.Oks? { assert ([v.value] + rest.values)[0] == v.value && ([v.value] + rest.values)[1..] == rest.values; }
      }
    }
  }

  lemma PrintTold(args: seq<Expr>, w: World, o: Oracle, r: Rules)
    requires r.how.Watched? && !r.raw && Ready(ReadsAll(args), w, r.env)
    ensures ToldRun(ExecPrint(args, w, o, r), ArgRisks(args, [], "print", r.env) + PrintRisks(args, r.env), o, r.env)
  {
    hide Eval, EvalAll, Ready, PrintAll, PrintEach, ArgRisks, AllQuiet, AllCertain, Promises;
    PrintAllTold(args, w, o, r);
    if |args| == 0 { NothingPrinted(w, o, r); }
    else if |args| == 1 || AllQuiet(args[1..], r.env) { LaterQuiet(args, w, o, r); }
  }

  lemma PrintAllTold(args: seq<Expr>, w: World, o: Oracle, r: Rules)
    requires r.how.Watched? && Ready(ReadsAll(args), w, r.env)
    ensures ToldRun(PrintAll(args, w, o, r), ArgRisks(args, [], "print", r.env), o, r.env)
  {
    hide EvalAll, Ready, ArgRisks, Promises;
    AllTold(args, [], "print", w, o, r);
  }

  lemma NothingPrinted(w: World, o: Oracle, r: Rules)
    ensures PrintAll([], w, o, r) == PrintEach([], w, o, r)
  {
  }

  lemma LaterQuiet(args: seq<Expr>, w: World, o: Oracle, r: Rules)
    requires r.how.Watched? && !r.raw && Ready(ReadsAll(args), w, r.env) && |args| > 0 && (|args| == 1 || AllQuiet(args[1..], r.env))
    ensures var all, each := PrintAll(args, w, o, r), PrintEach(args, w, o, r);
      all == each || (|args| > 1 && !AllCertain(args[1..], r.env) && Errs(all) && Errs(each) && Out(all) <= Out(each))
  {
    hide Eval, EvalAll, Ready, PrintEach, PrintValues, Quiet, Certain;
    var e, r1 := args[0], r.At(false);
    var v := Eval(e, w, o, r1);
    FirstArgument(args, w, o, r);
    if v.Ok? {
      ReadyAfter(e, ReadsAll(args[1..]), ReadsAll(args), w, o, r1);
      assert ProperValue(v.value) by { ReadyProper(ReadsAll(args), w, r.env); EvalProper(e, w, o, r1); }
      var u := v.world;
      var z := u.(out := u.out + [Shown(v.value, u.heap)]);
      var next := if |args| == 1 then z else Put(z, Space);
      QuietPrints(args[1..], u, next, o, r);
      var vs := EvalAll(args[1..], [], "print", u, o, r);
      if vs.Oks? { HeadPrinted(v.value, vs.values, u); }
    }
  }

  lemma FirstArgument(args: seq<Expr>, w: World, o: Oracle, r: Rules)
    requires |args| > 0
    ensures var v := Eval(args[0], w, o, r.At(false));
      if v.Fail? then PrintAll(args, w, o, r) == Stopped(v.error, v.out) == PrintEach(args, w, o, r)
      else
        && EvalAll(args, [], "print", w, o, r) == (match EvalAll(args[1..], [], "print", v.world, o, r)
                                                   case Oks(vs, z) => Oks([v.value] + vs, z) case fails => fails)
        && (v.value != VNull ==>
            var z := v.world.(out := v.world.out + [Shown(v.value, v.world.heap)]);
            PrintEach(args, w, o, r) == PrintEach(args[1..], if |args| == 1 then z else Put(z, Space), o, r))
  {
    hide Eval;
    assert Slot(args[0], false, "print", w, o, r) == Eval(args[0], w, o, r.At(false));
  }

  lemma HeadPrinted(v: Value, vs: seq<Value>, u: World)
    requires v != VNull
    ensures var z := u.(out := u.out + [Shown(v, u.heap)]);
      PrintValues([v] + vs, u) == PrintValues(vs, if vs == [] then z else Put(z, Space))
  {
    assert ([v] + vs)[0] == v && ([v] + vs)[1..] == vs;
  }

  // -------------------------------------------------------------------- range

  lemma PythonRangeTold(start: Expr, end: Expr, step: Expr, w: World, o: Oracle, r: Rules)
    requires r.how.Watched? && Ready(Reads(start) + Reads(end) + Reads(step), w, r.env)
    ensures var bounds := PythonRange(start, end, step, w, o, r);
      bounds.Unbounded? ==> Foreseen(bounds.error, RangeRisks(start, end, step, r.env), o, r.env)
  {
    hide Eval, Ready, Reads, Scalar, ExprRisks, OrderRisks, Unboxed, Promises;
    var all := Reads(start) + Reads(end) + Reads(step);
    var ra, rb := r.At(Scalar(start, r.env)), r.At(Scalar(end, r.env));
    ReadyLess(Reads(start), all, w, r.env);
    EvalTold(start, w, o, ra);
    var a := Eval(start, w, o, ra);
    if a.Ok? {
      ReadyAfter(start, Reads(end), all, w, o, ra);
      ReadyAfter(start, Reads(end) + Reads(step), all, w, o, ra);
      EvalTold(end, a.world, o, rb);
      var b := Eval(end, a.world, o, rb);
      if b.Ok? {
        ReadyAfter(end, Reads(step), Reads(end) + Reads(step), a.world, o, rb);
        EvalTold(step, b.world, o, r.At(false));
      }
    }
  }

  lemma ConstRuns(e: Expr, w: World, o: Oracle, r: Rules)
    requires ConstInt(e).Some? && Fits(ConstInt(e).value)
    ensures Eval(e, w, o, r) == Ok(VInt(ConstInt(e).value), w)
  {
  }

  lemma NotANumber(v: Value)
    requires ProperValue(v)
    ensures Unboxed(v).NoNum? ==> Unboxed(v).error == TypeError
  {
  }

  lemma UnboxedInt(n: int)
    ensures Unboxed(VInt(n)) == Num(n)
  {
  }

  /** A constant end, or a start known at once: the two orders agree. */
  lemma SameOrder(start: Expr, end: Expr, step: Expr, w: World, o: Oracle, r: Rules)
    requires r.how.Watched? && GoodStep(step) && Ready(Reads(start) + Reads(end), w, r.env)
    requires if ConstInt(end).Some? then Fits(ConstInt(end).value) else Immediate(start)
    ensures PythonRange(start, end, step, w, o, r) == CodeRange(start, end, step, w, o, r)
  {
    hide Eval, Ready, Reads, ConstInt, Immediate, Scalar, Unboxed, ProperWorld;
    var all, ra, rb := Reads(start) + Reads(end), r.At(Scalar(start, r.env)), r.At(Scalar(end, r.env));
    ReadyProper(all, w, r.env);
    var a := Eval(start, w, o, ra);
    EvalProper(start, w, o, ra);
    if a.Ok? { NotANumber(a.value); }
    if ConstInt(end).Some? {
      if a.Ok? {
        ConstRuns(end, a.world, o, rb);
        ConstRuns(step, a.world, o, r.At(false));
        UnboxedInt(ConstInt(end).value);
        UnboxedInt(ConstInt(step).value);
      }
    } else {
      ReadyLess(Reads(start), all, w, r.env);
      AtOnce(start, w, o, ra);
      var b := Eval(end, w, o, rb);
      EvalProper(end, w, o, rb);
      if b.Ok? {
        NotANumber(b.value);
        ReadyAfter(end, Reads(start), all, w, o, rb);
        AtOnce(start, b.world, o, ra);
        assert Worth(start, b.world, r.env) == Worth(start, w, r.env) by { SameWorth(start, w, b.world, r.env); }
        ConstRuns(step, b.world, o, r.At(false));
        UnboxedInt(ConstInt(step).value);
      }
    }
  }

  lemma AtOnce(e: Expr, w: World, o: Oracle, r: Rules)
    requires Immediate(e) && Ready(Reads(e), w, r.env)
    ensures Eval(e, w, o, r) == Ok(Worth(e, w, r.env), w)
  {
    ImmediateRuns(e, w, o, r);
  }

  lemma SameWorth(e: Expr, w: World, u: World, env: Env)
    requires u.vars == w.vars && u.globals == w.globals
    ensures Worth(e, u, env) == Worth(e, w, env)
  {
  }

  /** Quiet bounds: the two orders agree, or both stop with nothing printed. */
  lemma QuietBounds(start: Expr, end: Expr, step: Expr, w: World, o: Oracle, r: Rules)
    requires r.how.Watched? && GoodStep(step) && ConstInt(end).None? && Ready(Reads(start) + Reads(end), w, r.env)
    requires Quiet(start, r.env) && Quiet(end, r.env)
    ensures var a, b := PythonRange(start, end, step, w, o, r), CodeRange(start, end, step, w, o, r);
      a == b || (a.Unbounded? && b.Unbounded? && !a.error.Departs? && !b.error.Departs? && a.out == b.out == w.out
                 && !Certain(start, r.env) && !(Certain(end, r.env) && Scalarish(end, r.env)))
  {
    hide Eval, Ready, Reads, ConstInt, Quiet, Certain, Scalarish, Scalar, Unboxed, ProperWorld;
    var all, ra, rb := Reads(start) + Reads(end), r.At(Scalar(start, r.env)), r.At(Scalar(end, r.env));
    ReadyProper(all, w, r.env);
    ReadyLess(Reads(start), all, w, r.env);
    ReadyLess(Reads(end), all, w, r.env);
    var a, b := Eval(start, w, o, ra), Eval(end, w, o, rb);
    QuietRuns(start, w, w, o, ra);
    QuietRuns(end, w, w, o, rb);
    EvalProper(start, w, o, ra);
    EvalProper(end, w, o, rb);
    SureValue(end, w, o, rb);
    if a.Ok? { NotANumber(a.value); }
    if b.Ok? { NotANumber(b.value); }
    if Certain(start, r.env) { CertainRuns(start, w, o, ra); }
    if Certain(end, r.env) && Scalarish(end, r.env) {
      CertainRuns(end, w, o, rb);
      assert Unboxed(b.value).Num? by { ScalarNumber(b.value); }
    }
    ConstRuns(step, w, o, r.At(false));
    UnboxedInt(ConstInt(step).value);
  }

  lemma ScalarNumber(v: Value)
    requires IsScalar(v)
    ensures Unboxed(v).Num?
  {
  }

  lemma RangeTold(start: Expr, end: Expr, step: Expr, w: World, o: Oracle, r: Rules)
    requires r.how.Watched? && Ready(Reads(start) + Reads(end) + Reads(step), w, r.env)
    ensures var bounds := Range(start, end, step, w, o, r);
      bounds.Unbounded? ==> Foreseen(bounds.error, RangeRisks(start, end, step, r.env), o, r.env)
  {
    hide PythonRange, CodeRange, Ready, Reads, ExprRisks, Scalar, Quiet, Certain, Immediate, ConstInt, Promises;
    PythonRangeTold(start, end, step, w, o, r);
    ReadyLess(Reads(start) + Reads(end), Reads(start) + Reads(end) + Reads(step), w, r.env);
    if GoodStep(step) {
      if ConstInt(end).Some? {
        if Fits(ConstInt(end).value) { SameOrder(start, end, step, w, o, r); }
      } else if Immediate(start) {
        SameOrder(start, end, step, w, o, r);
      } else if Quiet(start, r.env) && Quiet(end, r.env) {
        QuietBounds(start, end, step, w, o, r);
      }
    }
  }

  /** Bounds that count safely never make the counter wrap. */
  lemma BoundsStay(start: Expr, end: Expr, step: Expr, w: World, o: Oracle, r: Rules)
    requires r.how.Watched? && Ready(Reads(start) + Reads(end) + Reads(step), w, r.env)
    ensures var bounds := Range(start, end, step, w, o, r);
      bounds.From? ==>
        Fits(bounds.first) && bounds.step != 0 && (CounterRisks(start, end, step, r.env) == {} ==> Stays(bounds.first, bounds.end, bounds.step))
  {
    hide Eval, Ready, Reads, Scalar, ExtentOf, Stays, ConstInt;
    var all, ra, rb := Reads(start) + Reads(end) + Reads(step), r.At(Scalar(start, r.env)), r.At(Scalar(end, r.env));
    var bounds := Range(start, end, step, w, o, r);
    if bounds.From? {
      ReadyProper(all, w, r.env);
      var a := Eval(start, w, o, ra);
      EvalProper(start, w, o, ra);
      UnboxedFits(a.value);
      ReadyAfter(start, Reads(end), all, w, o, ra);
      ReadyProper(Reads(end), a.world, r.env);
      EvalProper(end, a.world, o, rb);
      UnboxedFits(Eval(end, a.world, o, rb).value);
      ValueWithin(end, a.world, o, rb);
      if ConstInt(start).Some? { ConstValue(start, w, o, ra); }
      if ConstInt(end).Some? { ConstValue(end, a.world, o, rb); }
      if Fits(if bounds.step > 0 then ExtentOf(end, r.env).hi - 1 + bounds.step else ExtentOf(end, r.env).lo + 1 + bounds.step) {
        StaysNear(bounds.first, bounds.end, bounds.step);
      }
    }
  }

  lemma UnboxedFits(v: Value)
    requires ProperValue(v)
    ensures Unboxed(v).Num? ==> Fits(Unboxed(v).n)
  {
  }

  lemma ConstValue(e: Expr, w: World, o: Oracle, r: Rules)
    requires ConstInt(e).Some? && Eval(e, w, o, r).Ok?
    ensures Eval(e, w, o, r).value == VInt(ConstInt(e).value)
  {
  }
}
