/** Compiled expressions compute exactly what the rules of compiled code say
    (src/codegen.rs): raw code, boxed code, conditions and arguments, for every callee, in
    every store the two sides agree on. */
module ExpressionSimulation {
  import opened Syntax
  import opened Values
  import opened MachineIntegers
  import opened SlotChoice
  import opened PythonSemantics
  import opened Machine
  import opened Lowering

  // -------------------------------------------------------------- agreement

  /** A reference compiled code may hold; null stands for an unassigned name. */
  predicate Good(r: Ref) { IsInt(r) ==> Fits(r.n) }

  ghost predicate GoodStore(store: Store) {
    forall at :: at in store ==> |store[at]| <= LIST_MAX && forall i :: 0 <= i < |store[at]| ==> Good(store[at][i])
  }

  /** A variable's slot: raw for a typed name, null while a boxed one is unassigned. */
  ghost predicate SlotAgrees(x: string, env: Env, w: World, m: Machine) {
    && (x in env.vars && x in env.typed && x in w.vars ==> w.vars[x] == VInt(RawAt(m, Var(x))) && Fits(RawAt(m, Var(x))))
    && (x in env.vars && x !in env.typed ==>
          Good(RefAt(m, Var(x))) && ValueOf(RefAt(m, Var(x))) == if x in w.vars then w.vars[x] else VNull)
  }

  /** The module's variables: proper values, whole numbers where the module keeps raw ones. */
  ghost predicate GlobalsAgree(env: Env, w: World, m: Machine) {
    && w.globals == m.globals
    && forall x :: x in w.globals ==> ProperValue(w.globals[x]) && (x in env.typed && x !in env.vars ==> w.globals[x].VInt?)
  }

  ghost predicate Agrees(env: Env, w: World, m: Machine) {
    && !env.top && w.out == m.out && w.calls == m.calls && w.heap == HeapOf(m.store)
    && GoodStore(m.store) && GlobalsAgree(env, w, m)
    && forall x :: SlotAgrees(x, env, w, m)
  }

  /** The rules the emitted code follows. */
  function Code(env: Env, raw: bool): Rules { Rules(Compiled, env, raw) }

  /** Same value in an agreeing state, or the same error after the same output.  (Names in
      raw slots cannot tell that they are unassigned; that they never are is the business of
      `DefiniteAssignment`.) */
  ghost predicate RefMatches(v: Evaluated, g: Got<Ref>, env: Env) {
    match v
    case Ok(u, w) => g.Got? && Good(g.value) && ValueOf(g.value) == u && Agrees(env, w, g.m)
    case Fail(k, out) => k.NameError? || g == Trap(k, out)
  }

  ghost predicate RawMatches(v: Evaluated, g: Got<int>, env: Env) {
    match v
    case Ok(u, w) => g.Got? && u == VInt(g.value) && Fits(g.value) && Agrees(env, w, g.m)
    case Fail(k, out) => k.NameError? || g == Trap(k, out)
  }

  ghost predicate CondMatches(t: Tested, g: Got<int>, env: Env) {
    match t
    case Holds(b, w) => g.Got? && (g.value != 0 <==> b) && Agrees(env, w, g.m)
    case Breaks(k, out) => k.NameError? || g == Trap(k, out)
  }

  ghost predicate ArgsMatch(v: EvaluatedAll, g: Got<seq<Value>>, env: Env) {
    match v
    case Oks(vs, w) => g.Got? && g.value == vs && Agrees(env, w, g.m)
    case Fails(k, out) => k.NameError? || g == Trap(k, out)
  }

  ghost predicate ArgMatches(v: Evaluated, g: Got<Value>, env: Env) {
    match v
    case Ok(u, w) => g.Got? && g.value == u && Agrees(env, w, g.m)
    case Fail(k, out) => k.NameError? || g == Trap(k, out)
  }

  lemma AgreedOut(env: Env, w: World, m: Machine)
    requires Agrees(env, w, m)
    ensures w.out == m.out
  {
  }

  /** Slots do not depend on lists, output or calls. */
  lemma NewHeap(env: Env, w: World, m: Machine, u: World, v: Machine)
    requires Agrees(env, w, m) && SameSlots(m, v) && u.vars == w.vars && u.globals == w.globals
    requires u.out == v.out && u.calls == v.calls && u.heap == HeapOf(v.store) && GoodStore(v.store)
    ensures Agrees(env, u, v)
  {
    forall x ensures SlotAgrees(x, env, u, v) { assert SlotAgrees(x, env, w, m); }
  }

  // -------------------------------------------------- what code does with operands' values

  function Negating(g: Got<Ref>): Got<Ref> { match g case Trap(k, out) => Trap(k, out) case Got(v, u) => Boxing(NegRef(v), u) }

  function Measuring(g: Got<Ref>): Got<Ref> { match g case Trap(k, out) => Trap(k, out) case Got(v, u) => Boxing(LenRef(v, u.store), u) }

  function Inverting(g: Got<int>): Got<Ref> { match g case Trap(k, out) => Trap(k, out) case Got(n, u) => Got(BoolRef(n == 0), u) }

  function Unboxing(g: Got<Ref>): Got<int> { match g case Trap(k, out) => Trap(k, out) case Got(v, u) => Numbered(Unbox(v), u) }

  function Enboxing(g: Got<int>): Got<Ref> { match g case Trap(k, out) => Trap(k, out) case Got(n, u) => Got(Box(n), u) }

  function RawArgument(g: Got<int>): Got<Value> { match g case Trap(k, out) => Trap(k, out) case Got(n, u) => Got(VInt(n), u) }

  function CallingRaw(f: string, g: Got<seq<Value>>, o: Oracle): Got<int> {
    match g case Got(vs, u) => CallForRaw(f, vs, u, o) case Trap(k, out) => Trap(k, out)
  }

  function CallingRef(f: string, g: Got<seq<Value>>, o: Oracle): Got<Ref> {
    match g case Got(vs, u) => CallForRef(f, vs, u, o) case Trap(k, out) => Trap(k, out)
  }

  function Sending(f: string, l: Ref, g: Got<seq<Value>>, o: Oracle): Got<Ref> {
    match g case Got(vs, u) => CallForRef(f, [ValueOf(l)] + vs, u, o) case Trap(k, out) => Trap(k, out)
  }

  function Appending(l: Ref, g: Got<Ref>): Got<Ref> {
    match g case Got(v, u) => AppendRef(l, v, u) case Trap(k, out) => Trap(k, out)
  }

  // ------------------------------------------------------- helpers do what operators do

  lemma UnboxMatches(r: Ref)
    requires Good(r)
    ensures Unbox(r) == Unboxed(ValueOf(r)) && (Unbox(r).Num? ==> Fits(Unbox(r).n))
  {
  }

  lemma BoxGood(n: int)
    requires Fits(n)
    ensures Good(Box(n)) && ValueOf(Box(n)) == VInt(n)
  {
    UnboxBox(n);
  }

  lemma RefOfGood(v: Value)
    requires v.VInt? ==> Fits(v.n)
    ensures Good(RefOf(v)) && ValueOf(RefOf(v)) == v
  {
    if v.VInt? { BoxGood(v.n); }
  }

  lemma StoreOfGood(heap: Heap)
    requires ProperHeap(heap)
    ensures GoodStore(StoreOf(heap)) && HeapOf(StoreOf(heap)) == heap
  {
    StoreOfExact(heap);
    forall at, i | at in heap && 0 <= i < |heap[at]| ensures Good(StoreOf(heap)[at][i]) { RefOfGood(heap[at][i]); }
  }

  /** A call asks both sides' callee the same question. */
  lemma AskSim(f: string, vs: seq<Value>, env: Env, raw: bool, w: World, m: Machine, o: Oracle)
    requires Agrees(env, w, m)
    ensures ArgMatches(Ask(f, vs, w, o, Code(env, raw)), CallOut(f, vs, m, o), env)
  {
    hide Agrees, HeapOf, StoreOf;
    assert Query(m.calls, f, vs, HeapOf(m.store), m.globals) == Query(w.calls, f, vs, w.heap, w.globals)
      && Seen(w, env) == w.globals by { SameQuestion(env, w, m); }
    var a := o(Query(w.calls, f, vs, w.heap, w.globals));
    AgreedOut(env, w, m);
    if a.Gives? {
      StoreOfGood(a.heap);
      NewHeap(env, w, m, Ask(f, vs, w, o, Code(env, raw)).world, CallOut(f, vs, m, o).m);
    }
  }

  lemma SameQuestion(env: Env, w: World, m: Machine)
    requires Agrees(env, w, m)
    ensures w.calls == m.calls && w.heap == HeapOf(m.store) && w.globals == m.globals && Seen(w, env) == w.globals && w.out == m.out
  {
  }

  lemma AskRefSim(f: string, vs: seq<Value>, env: Env, raw: bool, w: World, m: Machine, o: Oracle)
    requires Agrees(env, w, m)
    ensures RefMatches(Ask(f, vs, w, o, Code(env, raw)), CallForRef(f, vs, m, o), env)
  {
    hide Agrees, Ask, CallOut, RefOf;
    AskSim(f, vs, env, raw, w, m, o);
    var v := Ask(f, vs, w, o, Code(env, raw));
    if v.Ok? { RefOfGood(v.value); }
  }

  lemma NumbersMatch(op: BinOp, x: int, y: int)
    requires !IsCompare(op) && Fits(x) && Fits(y)
    ensures Arithmetic(op, x, y) == NumericOp(op, x, y) && Apply(ScalarOp(op), x, y) == NumericOp(op, x, y)
    ensures Arithmetic(op, x, y).Num? ==> Fits(Arithmetic(op, x, y).n)
  {
    hide FloorQuotient, FloorRemainder, I32FloorDiv, I32FloorMod, Widened;
    match op
    case FloorDiv => FloorDivExact(x, y);
    case Mod => FloorModExact(x, y);
    case _ => WidenedExact(op, x, y);
  }

  /** What `PyBinary` computes is what the operator means. */
  lemma BinaryMatches(op: BinOp, a: Ref, b: Ref, env: Env, w: World, m: Machine, o: Oracle)
    requires !IsCompare(op) && Good(a) && Good(b) && Agrees(env, w, m)
    ensures RefMatches(Binary(op, ValueOf(a), ValueOf(b), w, o, Code(env, false)), BinaryRefs(op, a, b, m, o), env)
  {
    hide Arithmetic, NumericOp, Box, Agrees, Ask, CallForRef;
    AgreedOut(env, w, m);
    AskRefSim("+", [ValueOf(a), ValueOf(b)], env, false, w, m, o);
    AskRefSim("*", [ValueOf(a), ValueOf(b)], env, false, w, m, o);
    var x, y := Unbox(a), Unbox(b);
    UnboxMatches(a);
    UnboxMatches(b);
    if x.Num? && y.Num? {
      NumbersMatch(op, x.n, y.n);
      var v := Arithmetic(op, x.n, y.n);
      if v.Num? { BoxGood(v.n); }
    }
  }

  /** The flag a comparison leaves says what the operator says. */
  ghost predicate FlagMatches(v: Evaluated, g: Got<int>, env: Env) {
    match v
    case Ok(u, w) => u.VBool? && g.Got? && (g.value != 0 <==> u.b) && Agrees(env, w, g.m)
    case Fail(k, out) => k.NameError? || g == Trap(k, out)
  }

  lemma EqMatches(a: Ref, b: Ref, env: Env, w: World, m: Machine, o: Oracle)
    requires Good(a) && Good(b) && Agrees(env, w, m)
    ensures FlagMatches(Binary(Eq, ValueOf(a), ValueOf(b), w, o, Code(env, false)), EqRefs(a, b, m, o), env)
    ensures Binary(Ne, ValueOf(a), ValueOf(b), w, o, Code(env, false)) == Negated(Binary(Eq, ValueOf(a), ValueOf(b), w, o, Code(env, false)))
  {
    hide Agrees, Ask, CallOut;
    AgreedOut(env, w, m);
    if a.ListRef? && b.ListRef? {
      AskSim("==", [ValueOf(a), ValueOf(b)], env, false, w, m, o);
      var v := Ask("==", [ValueOf(a), ValueOf(b)], w, o, Code(env, false));
      assert Binary(Eq, ValueOf(a), ValueOf(b), w, o, Code(env, false)) == if v.Ok? then Ok(VBool(v.value == VBool(true)), v.world) else v;
    } else if a.NoneRef? || b.NoneRef? || a.ListRef? || b.ListRef? {
      assert EqRefs(a, b, m, o) == Got(Flag(a.NoneRef? && b.NoneRef?), m);
    } else {
      UnboxMatches(a);
      UnboxMatches(b);
      EqNumbers(a, b, m, o);
    }
  }

  lemma EqNumbers(a: Ref, b: Ref, m: Machine, o: Oracle)
    requires !a.NoneRef? && !b.NoneRef? && !a.ListRef? && !b.ListRef?
    ensures EqRefs(a, b, m, o) == CompareRefs(Eq, a, b, m)
  {
  }

  function Negated(v: Evaluated): Evaluated {
    if v.Ok? && v.value.VBool? then Ok(VBool(!v.value.b), v.world) else v
  }

  lemma CompareMatches(op: BinOp, a: Ref, b: Ref, env: Env, w: World, m: Machine, o: Oracle)
    requires op in {Lt, Le, Gt, Ge} && Good(a) && Good(b) && Agrees(env, w, m)
    ensures FlagMatches(Binary(op, ValueOf(a), ValueOf(b), w, o, Code(env, false)), CompareRefs(op, a, b, m), env)
  {
    hide Agrees, Ask, AskTruth;
    AgreedOut(env, w, m);
    UnboxMatches(a);
    UnboxMatches(b);
  }

  lemma TruthMatches(r: Ref, env: Env, w: World, m: Machine)
    requires Good(r) && Agrees(env, w, m)
    ensures CondMatches(PythonSemantics.Truthy(ValueOf(r), w), Numbered(TruthyRef(r, m.store), m), env)
  {
    UnboxMatches(r);
  }

  lemma NegMatches(r: Ref, env: Env, w: World, m: Machine)
    requires Good(r) && Agrees(env, w, m)
    ensures RefMatches(Counted(Negate(ValueOf(r), Code(env, false)), w), Boxing(NegRef(r), m), env)
  {
    hide Wrap, Box, Agrees;
    AgreedOut(env, w, m);
    UnboxMatches(r);
    var x := Unbox(r);
    if x.Num? {
      WrapExact(-x.n, 0x8000_0000);
      BoxGood(Wrap32(0 - x.n));
    }
  }

  lemma LengthFits(at: nat, env: Env, w: World, m: Machine)
    requires Agrees(env, w, m)
    ensures |RefsAt(m.store, at)| == |Items(w.heap, at)| <= LIST_MAX
  {
  }

  lemma LenMatches(r: Ref, env: Env, w: World, m: Machine)
    requires Good(r) && Agrees(env, w, m)
    ensures RefMatches(Len(ValueOf(r), w), Boxing(LenRef(r, m.store), m), env)
  {
    hide Box, Agrees, Items, RefsAt;
    AgreedOut(env, w, m);
    if r.ListRef? {
      LengthFits(r.at, env, w, m);
      BoxGood(|RefsAt(m.store, r.at)|);
    }
  }

  lemma AppendMatches(l: Ref, v: Ref, env: Env, w: World, m: Machine)
    requires Good(v) && Agrees(env, w, m)
    ensures RefMatches(Appended(ValueOf(l), ValueOf(v), w), AppendRef(l, v, m), env)
  {
    AgreedOut(env, w, m);
    if l.ListRef? {
      LengthFits(l.at, env, w, m);
      var rs := RefsAt(m.store, l.at) + [v];
      assert ValuesOf(rs) == Items(w.heap, l.at) + [ValueOf(v)];
      if |RefsAt(m.store, l.at)| < LIST_MAX {
        assert HeapOf(m.store[l.at := rs]) == w.heap[l.at := ValuesOf(rs)];
        NewHeap(env, w, m, Appended(ValueOf(l), ValueOf(v), w).world, AppendRef(l, v, m).m);
      }
    }
  }

  lemma ConstBoxMatches(n: int, env: Env, w: World, m: Machine, o: Oracle)
    requires ConstBox(n).Some? && Agrees(env, w, m)
    ensures RefMatches(Counted(Narrow(n), w), EvalBoxed(ConstBox(n).value, m, o), env)
  {
    hide Wrap, Agrees;
    WrapExact(n, 0x4000_0000);
  }

  lemma NameMatches(x: string, env: Env, w: World, m: Machine, o: Oracle)
    requires Agrees(env, w, m) && ValueExpr(AsExpr(Name(x)), env).Some?
    ensures RefMatches(Read(x, w, Code(env, false)), EvalBoxed(ValueExpr(AsExpr(Name(x)), env).value, m, o), env)
  {
    hide Box, GoodStore, HeapOf;
    assert SlotAgrees(x, env, w, m);
    if x in env.typed {
      var n := if x in env.vars then RawAt(m, Var(x)) else if GlobalAt(m, x).VInt? then GlobalAt(m, x).n else 0;
      assert EvalRaw(GetRawName(x, env), m, o) == Got(n, m);
      if Lookup(x, w, env).Some? { BoxGood(n); }
    } else if x !in env.vars {
      if x in w.globals { RefOfGood(w.globals[x]); }
    }
  }

  lemma RawNameMatches(x: string, env: Env, raw: bool, w: World, m: Machine, o: Oracle)
    requires Agrees(env, w, m) && x in env.typed
    ensures RawMatches(Read(x, w, Code(env, raw)), EvalRaw(GetRawName(x, env), m, o), env)
  {
    hide GoodStore, HeapOf;
    assert SlotAgrees(x, env, w, m);
  }

  // -------------------------------------------------------- what is computed unboxed

  /** A scalar literal stays away from -2^31, whose negation does not fit. */
  lemma {:induction false} ScalarLiteral(e: Expr, env: Env)
    requires ScalarExpr(e, env).Some? && ConstInt(e).Some?
    ensures -I32_MAX <= ConstInt(e).value <= I32_MAX
    decreases e
  {
    if e.kind.Unary? { ScalarLiteral(e.kind.operand, env); }
  }

  /** The emitter covers what `Scalar` says, when there is boxed code to fall back to. */
  lemma {:induction false} ScalarCovered(e: Expr, env: Env)
    ensures ScalarExpr(e, env).Some? ==> Scalar(e, env)
    ensures Scalar(e, env) && ValueExpr(e, env).Some? ==> ScalarExpr(e, env).Some?
    decreases e
  {
    hide LowerArgs;
    if InferInt(e, env.typed, env.sigs) {
      match e.kind
      case Unary(_, i) =>
        ScalarCovered(i, env);
        if ConstInt(e).Some? && Scalar(e, env) { LiteralCovered(e, env); }
      case Bin(_, a, b) =>
        ScalarCovered(a, env);
        ScalarCovered(b, env);
      case _ =>
    }
  }

  lemma {:induction false} LiteralCovered(e: Expr, env: Env)
    requires ConstInt(e).Some? && Scalar(e, env)
    ensures ScalarExpr(e, env).Some?
    decreases e
  {
    if e.kind.Unary? { LiteralCovered(e.kind.operand, env); }
  }

  // ------------------------------------------------------------------ the induction

  lemma {:induction false} ScalarSim(e: Expr, env: Env, w: World, m: Machine, o: Oracle)
    requires ScalarExpr(e, env).Some? && Agrees(env, w, m)
    ensures RawMatches(Eval(e, w, o, Code(env, true)), EvalRaw(ScalarExpr(e, env).value, m, o), env)
    decreases e, 0
  {
    hide Agrees, Ck32, Wrap, Negate, Binary, Apply, LowerArgs, EvalAll, EvalArgs, CallForRaw, Called;
    AgreedOut(env, w, m);
    match e.kind
    case Int(_) =>
    case Name(x) => RawNameMatches(x, env, true, w, m, o);
    case Unary(_, i) =>
      ScalarSim(i, env, w, m, o);
      if ConstInt(i).Some? { ScalarLiteral(i, env); }
      NegationSim(e, Eval(i, w, o, Code(env, true)), EvalRaw(ScalarExpr(i, env).value, m, o), env);
    case Bin(op, a, b) =>
      ScalarSim(a, env, w, m, o);
      var u, g := Eval(a, w, o, Code(env, true)), EvalRaw(ScalarExpr(a, env).value, m, o);
      if u.Ok? {
        ScalarSim(b, env, u.world, g.m, o);
        ScalarBinary(op, u.value, Eval(b, u.world, o, Code(env, true)), g.value, EvalRaw(ScalarExpr(b, env).value, g.m, o), env, o);
      }
    case Call(f, args) =>
      ArgsSim(args, env.sigs[f].params, f, env, true, w, m, o);
      RawCallSim(f, EvalAll(args, RawParams(f, env.sigs), f, w, o, Code(env, true)),
                 EvalArgs(LowerArgs(args, env.sigs[f].params, env).value, m, o), env, o);
  }

  lemma NegationSim(e: Expr, v: Evaluated, g: Got<int>, env: Env)
    requires RawMatches(v, g, env) && e.kind.Unary?
    ensures v.Ok? ==> RawMatches(Counted(Negate(v.value, Code(env, true)), v.world), Numbered(Ck32(Wrap64(0 - g.value)), g.m), env)
    ensures v.Ok? && Fits(-v.value.n) ==> Numbered(Ck32(Wrap64(0 - g.value)), g.m) == Got(-v.value.n, g.m)
  {
    hide Ck32, Wrap, Agrees;
    if v.Ok? {
      INegExact(g.value);
      AgreedOut(env, v.world, g.m);
    }
  }

  lemma ScalarBinary(op: BinOp, x: Value, v: Evaluated, n: int, g: Got<int>, env: Env, o: Oracle)
    requires !IsCompare(op) && x == VInt(n) && Fits(n) && RawMatches(v, g, env)
    ensures v.Ok? ==> RawMatches(Binary(op, x, v.value, v.world, o, Code(env, true)), Numbered(Apply(ScalarOp(op), n, g.value), g.m), env)
  {
    hide Arithmetic, Apply, Agrees, Ask, AskTruth;
    if v.Ok? {
      NumbersMatch(op, n, g.value);
      AgreedOut(env, v.world, g.m);
    }
  }

  /** A call whose result is taken raw. */
  lemma RawCallSim(f: string, args: EvaluatedAll, g: Got<seq<Value>>, env: Env, o: Oracle)
    requires ReturnsRaw(f, env.sigs) && ArgsMatch(args, g, env)
    ensures RawMatches(Called(f, args, o, Code(env, true)), CallingRaw(f, g, o), env)
  {
    hide Agrees, Ask, CallOut;
    if args.Oks? {
      AskSim(f, args.values, env, true, args.world, g.m, o);
      var v := Ask(f, args.values, args.world, o, Code(env, true));
      if v.Ok? { AgreedOut(env, v.world, CallOut(f, args.values, g.m, o).m); }
    }
  }

  /** A call whose result is taken boxed; a raw result is boxed by the caller. */
  lemma RefCallSim(f: string, args: EvaluatedAll, g: Got<seq<Value>>, env: Env, o: Oracle)
    requires f in env.sigs && ArgsMatch(args, g, env)
    ensures RefMatches(Called(f, args, o, Code(env, false)),
                       if env.sigs[f].raw then Enboxing(CallingRaw(f, g, o)) else CallingRef(f, g, o), env)
  {
    hide Agrees, Ask, CallOut, Box, RefOf;
    if args.Oks? {
      AskSim(f, args.values, env, false, args.world, g.m, o);
      AskRefSim(f, args.values, env, false, args.world, g.m, o);
      var v := Ask(f, args.values, args.world, o, Code(env, false));
      if v.Ok? {
        AgreedOut(env, v.world, CallOut(f, args.values, g.m, o).m);
        if Unboxed(v.value).Num? { BoxGood(Unboxed(v.value).n); }
      }
    }
  }

  lemma {:induction false} ArgsSim(es: seq<Expr>, raws: seq<bool>, f: string, env: Env, raw: bool, w: World, m: Machine, o: Oracle)
    requires LowerArgs(es, raws, env).Some? && Agrees(env, w, m)
    ensures ArgsMatch(EvalAll(es, raws, f, w, o, Code(env, raw)), EvalArgs(LowerArgs(es, raws, env).value, m, o), env)
    decreases es, 4
  {
    hide Agrees, LowerArg, Slot, EvalArg;
    if es != [] {
      var first, raws1 := raws != [] && raws[0], if raws == [] then [] else raws[1..];
      ArgSim(es[0], first, f, env, raw, w, m, o);
      var xs := LowerArgs(es[1..], raws1, env).value;
      var x := LowerArg(es[0], first, env).value;
      assert ([x] + xs)[1..] == xs;
      var v, g := Slot(es[0], first, f, w, o, Code(env, raw)), EvalArg(x, m, o);
      if v.Ok? { ArgsSim(es[1..], raws1, f, env, raw, v.world, g.m, o); }
    }
  }

  lemma {:induction false} ArgSim(e: Expr, raws: bool, f: string, env: Env, raw: bool, w: World, m: Machine, o: Oracle)
    requires LowerArg(e, raws, env).Some? && Agrees(env, w, m)
    ensures ArgMatches(Slot(e, raws, f, w, o, Code(env, raw)), EvalArg(LowerArg(e, raws, env).value, m, o), env)
    decreases e, 3
  {
    hide Agrees, ScalarExpr, ValueExpr, Scalar, Eval, EvalBoxed, Good, ValueOf, Unboxed;
    ScalarCovered(e, env);
    if raws && ScalarExpr(e, env).Some? {
      ScalarSim(e, env, w, m, o);
      RawArgRuns(ScalarExpr(e, env).value, m, o);
      CoercedNumber(e, Misfit(f), env, w, o);
    } else {
      ValueSim(e, env, w, m, o);
      var g := EvalBoxed(ValueExpr(e, env).value, m, o);
      if raws { UnboxSim(e, env, w, m, o); }
    }
  }

  lemma RawArgRuns(a: Raw, m: Machine, o: Oracle)
    ensures EvalArg(RawArg(a), m, o) == RawArgument(EvalRaw(a, m, o))
  {
  }

  /** Coercing a number changes nothing. */
  lemma CoercedNumber(e: Expr, lapse: Departure, env: Env, w: World, o: Oracle)
    ensures var v := Eval(e, w, o, Code(env, true)); v.Ok? && v.value.VInt? ==> Coerced(v.value, lapse, v.world, Code(env, true)) == v
  {
  }

  /** Boxed code followed by `$unbox`. */
  lemma UnboxSim(e: Expr, env: Env, w: World, m: Machine, o: Oracle)
    requires ValueExpr(e, env).Some? && RefMatches(Eval(e, w, o, Code(env, false)), EvalBoxed(ValueExpr(e, env).value, m, o), env)
    ensures var v := Eval(e, w, o, Code(env, false));
      RawMatches(if v.Ok? then Counted(Unboxed(v.value), v.world) else v, EvalRaw(UnboxCall(ValueExpr(e, env).value), m, o), env)
  {
    hide Agrees, ValueExpr, Eval, EvalBoxed, EvalRaw;
    UnboxRuns(ValueExpr(e, env).value, m, o);
    var g := EvalBoxed(ValueExpr(e, env).value, m, o);
    var v := Eval(e, w, o, Code(env, false));
    if v.Ok? {
      UnboxMatches(g.value);
      AgreedOut(env, v.world, g.m);
    }
  }

  /** What the code for `-x`, `not x` and `len(x)` does with the operand's value. */
  lemma NegRuns(r: Boxed, m: Machine, o: Oracle)
    ensures EvalBoxed(Boxed.PyNeg(r), m, o) == Negating(EvalBoxed(r, m, o))
  {
    hide NegRef, Box;
  }

  lemma NotRuns(a: Raw, m: Machine, o: Oracle)
    ensures EvalBoxed(BoolCall(Eqz(a)), m, o) == Inverting(EvalRaw(a, m, o))
  {
    var x := EvalRaw(Eqz(a), m, o);
    assert EvalBoxed(BoolCall(Eqz(a)), m, o) == if x.Got? then Got(BoolRef(x.value != 0), x.m) else Trap(x.error, x.out);
  }

  lemma LenRuns(r: Boxed, m: Machine, o: Oracle)
    ensures EvalBoxed(BoxCall(PyLen(r)), m, o) == Measuring(EvalBoxed(r, m, o))
  {
    hide LenRef, Box;
    var x := EvalRaw(PyLen(r), m, o);
    assert EvalBoxed(BoxCall(PyLen(r)), m, o) == if x.Got? then Got(Box(x.value), x.m) else Trap(x.error, x.out);
  }

  lemma UnboxRuns(r: Boxed, m: Machine, o: Oracle)
    ensures EvalRaw(UnboxCall(r), m, o) == Unboxing(EvalBoxed(r, m, o))
  {
    hide Unbox;
  }

  lemma BoxRuns(a: Raw, m: Machine, o: Oracle)
    ensures EvalBoxed(BoxCall(a), m, o) == Enboxing(EvalRaw(a, m, o))
  {
    hide Box;
  }

  lemma {:induction false} ValueSim(e: Expr, env: Env, w: World, m: Machine, o: Oracle)
    requires ValueExpr(e, env).Some? && Agrees(env, w, m)
    ensures RefMatches(Eval(e, w, o, Code(env, false)), EvalBoxed(ValueExpr(e, env).value, m, o), env)
    decreases e, 1
  {
    hide Agrees, Box, Negate, NegRef, CondI32, Fits, Good, Binary, BinaryRefs, EvalBoxed, EvalRaw, LenRef, Len, ConstBox, ConstInt, ValueOf,
      LowerArgs, EvalAll, EvalArgs, Called, Sent, Read, ValueOp, Narrow, GetRawName, Test;
    if ConstInt(e).Some? {
      ConstBoxMatches(ConstInt(e).value, env, w, m, o);
    } else {
      match e.kind
      case Bool(b) => BoolMatches(b, env, w, m, o);
      case Name(x) =>
        NameCode(e, x, env);
        NameMatches(x, env, w, m, o);
      case Unary(Neg, i) =>
        ValueSim(i, env, w, m, o);
        var v, g := Eval(i, w, o, Code(env, false)), EvalBoxed(ValueExpr(i, env).value, m, o);
        NegRuns(ValueExpr(i, env).value, m, o);
        if v.Ok? { NegMatches(g.value, env, v.world, g.m); }
      case Unary(Not, i) =>
        CondSim(i, env, w, m, o);
        NotRuns(CondI32(i, env).value, m, o);
        BoolGood();
      case Bin(op, a, b) =>
        ValueSim(a, env, w, m, o);
        var v, g := Eval(a, w, o, Code(env, false)), EvalBoxed(ValueExpr(a, env).value, m, o);
        if v.Ok? { ValueSim(b, env, v.world, g.m, o); }
        BinSim(op, e, a, b, env, w, m, o);
      case Call(f, args) =>
        if f in env.sigs {
          ArgsSim(args, env.sigs[f].params, f, env, false, w, m, o);
          CallCode(e, f, args, env, w, m, o);
        } else {
          ValueSim(args[0], env, w, m, o);
          LenCode(e, args[0], env, w, m, o);
        }
      case MethodCall(obj, name, args) =>
        ValueSim(obj, env, w, m, o);
        var v, g := Eval(obj, w, o, Code(env, false)), EvalBoxed(ValueExpr(obj, env).value, m, o);
        if v.Ok? {
          if name == "append" && |args| == 1 {
            OneRefArg(args, env);
            ValueSim(args[0], env, v.world, g.m, o);
          }
          ArgsSim(args, [], name, env, false, v.world, g.m, o);
        }
        MethodCode(e, obj, name, args, env, w, m, o);
    }
  }

  lemma NameCode(e: Expr, x: string, env: Env)
    requires e.kind == Name(x)
    ensures ValueExpr(e, env) == ValueExpr(AsExpr(Name(x)), env)
  {
  }

  lemma BoolGood()
    ensures forall b :: Good(BoolRef(b)) && ValueOf(BoolRef(b)) == VBool(b)
  {
  }

  lemma BoolMatches(b: bool, env: Env, w: World, m: Machine, o: Oracle)
    requires Agrees(env, w, m)
    ensures RefMatches(Ok(VBool(b), w), EvalBoxed(BoolConst(b), m, o), env)
  {
    hide Agrees;
  }

  /** A call's code, given what its arguments do. */
  lemma CallCode(e: Expr, f: string, args: seq<Expr>, env: Env, w: World, m: Machine, o: Oracle)
    requires ConstInt(e).None? && e.kind == Call(f, args) && f in env.sigs && ValueExpr(e, env).Some?
    requires ArgsMatch(EvalAll(args, env.sigs[f].params, f, w, o, Code(env, false)),
                       EvalArgs(LowerArgs(args, env.sigs[f].params, env).value, m, o), env)
    ensures RefMatches(Eval(e, w, o, Code(env, false)), EvalBoxed(ValueExpr(e, env).value, m, o), env)
  {
    hide Agrees, LowerArgs, EvalAll, EvalArgs, Called, CallForRef, CallForRaw, Box;
    var xs := LowerArgs(args, env.sigs[f].params, env).value;
    RefCallSim(f, EvalAll(args, RawParams(f, env.sigs), f, w, o, Code(env, false)), EvalArgs(xs, m, o), env, o);
    CallRuns(f, xs, m, o);
    BoxRuns(CallRaw(f, xs), m, o);
  }

  lemma CallRuns(f: string, xs: seq<Arg>, m: Machine, o: Oracle)
    ensures EvalRaw(CallRaw(f, xs), m, o) == CallingRaw(f, EvalArgs(xs, m, o), o)
    ensures EvalBoxed(CallRef(f, xs), m, o) == CallingRef(f, EvalArgs(xs, m, o), o)
  {
    hide CallForRaw, CallForRef;
  }

  lemma LenCode(e: Expr, a: Expr, env: Env, w: World, m: Machine, o: Oracle)
    requires ConstInt(e).None? && e.kind == Call("len", [a]) && "len" !in env.sigs && ValueExpr(a, env).Some?
    requires RefMatches(Eval(a, w, o, Code(env, false)), EvalBoxed(ValueExpr(a, env).value, m, o), env)
    ensures RefMatches(Eval(e, w, o, Code(env, false)), EvalBoxed(ValueExpr(e, env).value, m, o), env)
  {
    hide Agrees, EvalBoxed, Good, Len, LenRef, Box, ValueOf;
    LenRuns(ValueExpr(a, env).value, m, o);
    OneArg(a, "len", w, o, Code(env, false));
    var v, g := Eval(a, w, o, Code(env, false)), EvalBoxed(ValueExpr(a, env).value, m, o);
    if v.Ok? { LenMatches(g.value, env, v.world, g.m); }
  }

  /** One boxed argument. */
  lemma OneArg(a: Expr, f: string, w: World, o: Oracle, r: Rules)
    ensures var v := Eval(a, w, o, r.At(false));
      EvalAll([a], [], f, w, o, r) == if v.Ok? then Oks([v.value], v.world) else Fails(v.error, v.out)
  {
    assert [a][1..] == [];
    assert EvalAll([a][1..], [], f, w, o, r) == Oks([], w);
  }

  lemma MethodCode(e: Expr, obj: Expr, name: string, args: seq<Expr>, env: Env, w: World, m: Machine, o: Oracle)
    requires ConstInt(e).None? && e.kind == MethodCall(obj, name, args) && ValueExpr(e, env).Some?
    requires RefMatches(Eval(obj, w, o, Code(env, false)), EvalBoxed(ValueExpr(obj, env).value, m, o), env)
    requires var v, g := Eval(obj, w, o, Code(env, false)), EvalBoxed(ValueExpr(obj, env).value, m, o);
      v.Ok? ==> ArgsMatch(EvalAll(args, [], name, v.world, o, Code(env, false)), EvalArgs(LowerArgs(args, [], env).value, g.m, o), env)
    requires var v, g := Eval(obj, w, o, Code(env, false)), EvalBoxed(ValueExpr(obj, env).value, m, o);
      v.Ok? && name == "append" && |args| == 1 && ValueExpr(args[0], env).Some? ==>
        RefMatches(Eval(args[0], v.world, o, Code(env, false)), EvalBoxed(ValueExpr(args[0], env).value, g.m, o), env)
    ensures RefMatches(Eval(e, w, o, Code(env, false)), EvalBoxed(ValueExpr(e, env).value, m, o), env)
  {
    hide Agrees, EvalAll, EvalArgs, Good, ValueOf, EvalBoxed, Sent, LowerArgs, Ask, CallForRef;
    var l, xs := ValueExpr(obj, env).value, LowerArgs(args, [], env).value;
    var v, g := Eval(obj, w, o, Code(env, false)), EvalBoxed(l, m, o);
    if name == "append" && |args| == 1 {
      OneRefArg(args, env);
      AppendRuns(l, xs[0].r, m, o);
      if v.Ok? { AppendSent(args[0], v, g.value, g.m, env, w, o); }
    } else {
      SendRuns(l, name, xs, m, o);
      if v.Ok? { MethodSent(name, |args|, v, g, EvalAll(args, [], name, v.world, o, Code(env, false)), EvalArgs(xs, g.m, o), env, w, o); }
    }
  }

  lemma OneRefArg(args: seq<Expr>, env: Env)
    requires |args| == 1 && LowerArgs(args, [], env).Some?
    ensures ValueExpr(args[0], env).Some? && args == [args[0]]
    ensures LowerArgs(args, [], env).value == [RefArg(ValueExpr(args[0], env).value)]
  {
    hide ValueExpr;
    assert args[1..] == [];
    assert LowerArgs(args[1..], [], env) == Some([]);
  }

  lemma AppendRuns(l: Boxed, v: Boxed, m: Machine, o: Oracle)
    ensures var g := EvalBoxed(l, m, o);
      EvalBoxed(ListAppend(l, v), m, o) == if g.Got? then Appending(g.value, EvalBoxed(v, g.m, o)) else g
  {
    hide AppendRef;
  }

  lemma AppendSent(item: Expr, v: Evaluated, l: Ref, m: Machine, env: Env, before: World, o: Oracle)
    requires v.Ok? && ValueOf(l) == v.value && ValueExpr(item, env).Some?
    requires RefMatches(Eval(item, v.world, o, Code(env, false)), EvalBoxed(ValueExpr(item, env).value, m, o), env)
    ensures RefMatches(Sent(v.value, "append", 1, EvalAll([item], [], "append", v.world, o, Code(env, false)), before, v.world, o, Code(env, false)),
                       Appending(l, EvalBoxed(ValueExpr(item, env).value, m, o)), env)
  {
    hide Agrees, EvalBoxed, Good, ValueOf, AppendRef, Appended, Eval, ValueExpr, EvalAll;
    OneArg(item, "append", v.world, o, Code(env, false));
    var u, h := Eval(item, v.world, o, Code(env, false)), EvalBoxed(ValueExpr(item, env).value, m, o);
    if u.Ok? { AppendMatches(l, h.value, env, u.world, h.m); }
  }

  lemma SendRuns(l: Boxed, name: string, xs: seq<Arg>, m: Machine, o: Oracle)
    ensures var g := EvalBoxed(l, m, o);
      EvalBoxed(CallRef("." + name, [RefArg(l)] + xs), m, o) == if g.Got? then Sending("." + name, g.value, EvalArgs(xs, g.m, o), o) else g
  {
    hide CallForRef;
    CallRuns("." + name, [RefArg(l)] + xs, m, o);
    ArgsCons(l, xs, m, o);
  }

  lemma ArgsCons(l: Boxed, xs: seq<Arg>, m: Machine, o: Oracle)
    ensures var g := EvalBoxed(l, m, o);
      EvalArgs([RefArg(l)] + xs, m, o) ==
        if g.Trap? then Trap(g.error, g.out)
        else
          var h := EvalArgs(xs, g.m, o);
          if h.Trap? then h else Got([ValueOf(g.value)] + h.value, h.m)
  {
    hide EvalBoxed;
    var all := [RefArg(l)] + xs;
    assert all[0] == RefArg(l) && all[1..] == xs;
    var g := EvalBoxed(l, m, o);
    assert EvalArg(RefArg(l), m, o) == if g.Trap? then Trap(g.error, g.out) else Got(ValueOf(g.value), g.m);
  }

  lemma MethodSent(name: string, n: nat, v: Evaluated, g: Got<Ref>, args: EvaluatedAll, h: Got<seq<Value>>, env: Env, before: World, o: Oracle)
    requires v.Ok? && RefMatches(v, g, env) && !(name == "append" && n == 1) && ArgsMatch(args, h, env)
    requires args.Oks? ==> |args.values| == n
    ensures RefMatches(Sent(v.value, name, n, args, before, v.world, o, Code(env, false)),
                       Sending("." + name, g.value, h, o), env)
  {
    hide Agrees, Ask, CallForRef;
    if args.Oks? { AskRefSim("." + name, [v.value] + args.values, env, false, args.world, h.m, o); }
  }

  // ------------------------------------------------------------ operators, conditions

  /** What the code of a comparison does with its operands' values. */
  function AppliedFlag(op: BinOp, a: Ref, b: Ref, m: Machine, o: Oracle): Got<int> {
    if op == Eq then EqRefs(a, b, m, o)
    else if op == Ne then (match EqRefs(a, b, m, o) case Got(n, u) => Got(Flag(n == 0), u) case Trap(k, out) => Trap(k, out))
    else CompareRefs(op, a, b, m)
  }

  function AppliedRef(op: BinOp, a: Ref, b: Ref, m: Machine, o: Oracle): Got<Ref> {
    if !IsCompare(op) then BinaryRefs(op, a, b, m, o)
    else match AppliedFlag(op, a, b, m, o) case Got(n, u) => Got(BoolRef(n != 0), u) case Trap(k, out) => Trap(k, out)
  }

  function Flagging(op: BinOp, a: Ref, g: Got<Ref>, o: Oracle): Got<int> {
    match g case Got(b, z) => AppliedFlag(op, a, b, z, o) case Trap(k, out) => Trap(k, out)
  }

  function Applying(op: BinOp, a: Ref, g: Got<Ref>, o: Oracle): Got<Ref> {
    match g case Got(b, z) => AppliedRef(op, a, b, z, o) case Trap(k, out) => Trap(k, out)
  }

  lemma CompareOpRuns(op: BinOp, x: Boxed, y: Boxed, m: Machine, o: Oracle)
    requires IsCompare(op)
    ensures var g := EvalBoxed(x, m, o);
      EvalRaw(CompareOp(op, x, y), m, o) == if g.Got? then Flagging(op, g.value, EvalBoxed(y, g.m, o), o) else Trap(g.error, g.out)
  {
    hide EqRefs, CompareRefs;
    var g, plain := EvalBoxed(x, m, o), if op == Ne then Eq else op;
    assert EvalRaw(PyCompare(plain, x, y), m, o) == if g.Got? then Flagging(plain, g.value, EvalBoxed(y, g.m, o), o) else Trap(g.error, g.out);
    var f := EvalRaw(PyCompare(plain, x, y), m, o);
    assert EvalRaw(Eqz(PyCompare(plain, x, y)), m, o) == if f.Got? then Got(Flag(f.value == 0), f.m) else f;
  }

  lemma ValueOpRuns(op: BinOp, x: Boxed, y: Boxed, m: Machine, o: Oracle)
    ensures var g := EvalBoxed(x, m, o);
      EvalBoxed(ValueOp(op, x, y), m, o) == if g.Got? then Applying(op, g.value, EvalBoxed(y, g.m, o), o) else g
  {
    hide AppliedFlag, BinaryRefs, IsCompare, EvalRaw, EvalBoxed, CompareOp;
    if IsCompare(op) {
      CompareOpRuns(op, x, y, m, o);
      BoolRuns(CompareOp(op, x, y), m, o);
    } else {
      BinaryRuns(op, x, y, m, o);
    }
  }

  lemma BoolRuns(a: Raw, m: Machine, o: Oracle)
    ensures var g := EvalRaw(a, m, o);
      EvalBoxed(BoolCall(a), m, o) == if g.Got? then Got(BoolRef(g.value != 0), g.m) else Trap(g.error, g.out)
  {
    hide EvalRaw;
  }

  lemma BinaryRuns(op: BinOp, x: Boxed, y: Boxed, m: Machine, o: Oracle)
    requires !IsCompare(op)
    ensures var g := EvalBoxed(x, m, o);
      EvalBoxed(PyBinary(op, x, y), m, o) == if g.Got? then Applying(op, g.value, EvalBoxed(y, g.m, o), o) else g
  {
    hide AppliedFlag, BinaryRefs;
  }

  lemma FlagApplied(op: BinOp, a: Ref, b: Ref, env: Env, w: World, m: Machine, o: Oracle)
    requires IsCompare(op) && Good(a) && Good(b) && Agrees(env, w, m)
    ensures FlagMatches(Binary(op, ValueOf(a), ValueOf(b), w, o, Code(env, false)), AppliedFlag(op, a, b, m, o), env)
  {
    hide Agrees, Binary, EqRefs, CompareRefs, ValueOf, Good;
    if op == Eq || op == Ne { EqMatches(a, b, env, w, m, o); } else { CompareMatches(op, a, b, env, w, m, o); }
  }

  lemma RefApplied(op: BinOp, a: Ref, b: Ref, env: Env, w: World, m: Machine, o: Oracle)
    requires Good(a) && Good(b) && Agrees(env, w, m)
    ensures RefMatches(Binary(op, ValueOf(a), ValueOf(b), w, o, Code(env, false)), AppliedRef(op, a, b, m, o), env)
  {
    hide Agrees, Binary, BinaryRefs, AppliedFlag;
    if IsCompare(op) { FlagApplied(op, a, b, env, w, m, o); } else { BinaryMatches(op, a, b, env, w, m, o); }
  }

  lemma BinSim(op: BinOp, e: Expr, a: Expr, b: Expr, env: Env, w: World, m: Machine, o: Oracle)
    requires e.kind == Bin(op, a, b) && ConstInt(e).None? && ValueExpr(a, env).Some? && ValueExpr(b, env).Some?
    requires RefMatches(Eval(a, w, o, Code(env, false)), EvalBoxed(ValueExpr(a, env).value, m, o), env)
    requires var v, g := Eval(a, w, o, Code(env, false)), EvalBoxed(ValueExpr(a, env).value, m, o);
      v.Ok? ==> RefMatches(Eval(b, v.world, o, Code(env, false)), EvalBoxed(ValueExpr(b, env).value, g.m, o), env)
    ensures RefMatches(Eval(e, w, o, Code(env, false)), EvalBoxed(ValueOp(op, ValueExpr(a, env).value, ValueExpr(b, env).value), m, o), env)
  {
    hide Agrees, Binary, AppliedRef, ValueOf, Good, EvalBoxed, ValueExpr, ValueOp;
    var x, y := ValueExpr(a, env).value, ValueExpr(b, env).value;
    ValueOpRuns(op, x, y, m, o);
    var v, g := Eval(a, w, o, Code(env, false)), EvalBoxed(x, m, o);
    if v.Ok? {
      var u, h := Eval(b, v.world, o, Code(env, false)), EvalBoxed(y, g.m, o);
      if u.Ok? { RefApplied(op, g.value, h.value, env, u.world, h.m, o); }
    }
  }

  lemma {:induction false} CondSim(e: Expr, env: Env, w: World, m: Machine, o: Oracle)
    requires CondI32(e, env).Some? && Agrees(env, w, m)
    ensures CondMatches(Test(e, w, o, Code(env, false)), EvalRaw(CondI32(e, env).value, m, o), env)
    decreases e, 3
  {
    hide Agrees, ScalarExpr, ScalarCmp, CondOf, ValueExpr, Good, Eval, TestsRaw;
    match e.kind
    case Bool(b) => BoolTested(e, b, env, w, o);
    case Unary(op, i) => if op == Not { CondSim(i, env, w, m, o); } else { CondOfSim(e, env, w, m, o); }
    case Bin(op, a, b) =>
      if !IsCompare(op) {
        CondOfSim(e, env, w, m, o);
      } else if ScalarCmp(op, ScalarExpr(a, env), ScalarExpr(b, env)).Some? {
        BothScalar(op, a, b, env);
        ScalarSim(a, env, w, m, o);
        var v, g := Eval(a, w, o, Code(env, true)), EvalRaw(ScalarExpr(a, env).value, m, o);
        if v.Ok? { ScalarSim(b, env, v.world, g.m, o); }
        ScalarCmpSim(op, e, a, b, env, w, m, o);
      } else {
        ValueSim(a, env, w, m, o);
        var v, g := Eval(a, w, o, Code(env, false)), EvalBoxed(ValueExpr(a, env).value, m, o);
        if v.Ok? { ValueSim(b, env, v.world, g.m, o); }
        CompareSim(op, e, a, b, env, w, m, o);
      }
    case _ => CondOfSim(e, env, w, m, o);
  }

  lemma BothScalar(op: BinOp, a: Expr, b: Expr, env: Env)
    requires ScalarCmp(op, ScalarExpr(a, env), ScalarExpr(b, env)).Some?
    ensures ScalarExpr(a, env).Some? && ScalarExpr(b, env).Some?
  {
  }

  lemma BoolTested(e: Expr, b: bool, env: Env, w: World, o: Oracle)
    requires e.kind == Bool(b)
    ensures Test(e, w, o, Code(env, false)) == Holds(b, w)
  {
  }

  /** Deciding a comparison is deciding the boolean it would make. */
  lemma Compared(op: BinOp, e: Expr, a: Expr, b: Expr, env: Env, w: World, o: Oracle)
    requires e.kind == Bin(op, a, b) && IsCompare(op)
    ensures var v := Eval(e, w, o, Code(env, Scalar(a, env) && Scalar(b, env)));
      Test(e, w, o, Code(env, false)) == if v.Ok? then PythonSemantics.Truthy(v.value, v.world) else Breaks(v.error, v.out)
  {
    hide Eval, Scalar, PythonSemantics.Truthy;
  }

  lemma ScalarCmpSim(op: BinOp, e: Expr, a: Expr, b: Expr, env: Env, w: World, m: Machine, o: Oracle)
    requires e.kind == Bin(op, a, b) && IsCompare(op) && ScalarExpr(a, env).Some? && ScalarExpr(b, env).Some?
    requires RawMatches(Eval(a, w, o, Code(env, true)), EvalRaw(ScalarExpr(a, env).value, m, o), env)
    requires var v, g := Eval(a, w, o, Code(env, true)), EvalRaw(ScalarExpr(a, env).value, m, o);
      v.Ok? ==> RawMatches(Eval(b, v.world, o, Code(env, true)), EvalRaw(ScalarExpr(b, env).value, g.m, o), env)
    ensures CondMatches(Test(e, w, o, Code(env, false)), EvalRaw(ScalarCmp(op, ScalarExpr(a, env), ScalarExpr(b, env)).value, m, o), env)
  {
    hide Agrees, ScalarExpr, Scalar, Test;
    ScalarCovered(a, env);
    ScalarCovered(b, env);
    Compared(op, e, a, b, env, w, o);
    assert ConstInt(e).None?;
  }

  lemma CompareSim(op: BinOp, e: Expr, a: Expr, b: Expr, env: Env, w: World, m: Machine, o: Oracle)
    requires e.kind == Bin(op, a, b) && IsCompare(op) && ValueExpr(a, env).Some? && ValueExpr(b, env).Some?
    requires ScalarCmp(op, ScalarExpr(a, env), ScalarExpr(b, env)).None?
    requires RefMatches(Eval(a, w, o, Code(env, false)), EvalBoxed(ValueExpr(a, env).value, m, o), env)
    requires var v, g := Eval(a, w, o, Code(env, false)), EvalBoxed(ValueExpr(a, env).value, m, o);
      v.Ok? ==> RefMatches(Eval(b, v.world, o, Code(env, false)), EvalBoxed(ValueExpr(b, env).value, g.m, o), env)
    ensures CondMatches(Test(e, w, o, Code(env, false)), EvalRaw(CompareOp(op, ValueExpr(a, env).value, ValueExpr(b, env).value), m, o), env)
  {
    hide Agrees, Binary, AppliedFlag, ValueOf, Good, EvalBoxed, EvalRaw, ValueExpr, ScalarExpr, Scalar, Test, CompareOp;
    ScalarCovered(a, env);
    ScalarCovered(b, env);
    Compared(op, e, a, b, env, w, o);
    var x, y := ValueExpr(a, env).value, ValueExpr(b, env).value;
    CompareOpRuns(op, x, y, m, o);
    var v, g := Eval(a, w, o, Code(env, false)), EvalBoxed(x, m, o);
    if v.Ok? {
      var u, h := Eval(b, v.world, o, Code(env, false)), EvalBoxed(y, g.m, o);
      if u.Ok? { FlagApplied(op, g.value, h.value, env, u.world, h.m, o); }
    }
  }

  lemma {:induction false} CondOfSim(e: Expr, env: Env, w: World, m: Machine, o: Oracle)
    requires CondOf(e, env).Some? && Agrees(env, w, m) && !(e.kind.Unary? && e.kind.op == Not) && !(e.kind.Bin? && IsCompare(e.kind.bop))
    ensures CondMatches(Test(e, w, o, Code(env, false)), EvalRaw(CondOf(e, env).value, m, o), env)
    decreases e, 2
  {
    hide ScalarExpr, ValueExpr, Eval, Agrees, Scalar, Good;
    ScalarCovered(e, env);
    assert TestsRaw(e, env) == Scalar(e, env);
    if ScalarExpr(e, env).Some? {
      ScalarSim(e, env, w, m, o);
    } else {
      ValueSim(e, env, w, m, o);
      var v, g := Eval(e, w, o, Code(env, false)), EvalBoxed(ValueExpr(e, env).value, m, o);
      if v.Ok? { TruthMatches(g.value, env, v.world, g.m); }
    }
  }

  // ------------------------------------------------------------ numbers in slots

  /** A `range` bound: a number (booleans count) or an error. */
  lemma BoundSim(e: Expr, env: Env, w: World, m: Machine, o: Oracle)
    requires I32Expr(e, env).Some? && Agrees(env, w, m)
    ensures RawMatches(Numeral(e, w, o, Code(env, false)), EvalRaw(I32Expr(e, env).value, m, o), env)
  {
    hide Agrees, ScalarExpr, ValueExpr, Scalar, EvalBoxed;
    ScalarCovered(e, env);
    if ScalarExpr(e, env).Some? {
      ScalarSim(e, env, w, m, o);
    } else if ConstInt(e).None? {
      ValueSim(e, env, w, m, o);
      UnboxSim(e, env, w, m, o);
    }
  }

  /** The raw value a typed slot receives. */
  lemma SlotSim(e: Expr, env: Env, w: World, m: Machine, o: Oracle)
    requires ValueExpr(e, env).Some? && Agrees(env, w, m)
    ensures var v := Eval(e, w, o, Code(env, Scalar(e, env)));
      RawMatches(if v.Ok? then Counted(Unboxed(v.value), v.world) else v, EvalRaw(SlotExpr(e, ValueExpr(e, env).value, env), m, o), env)
  {
    hide Agrees, ScalarExpr, ValueExpr, Scalar, Eval, EvalBoxed;
    ScalarCovered(e, env);
    if ScalarExpr(e, env).Some? {
      ScalarSim(e, env, w, m, o);
    } else {
      ValueSim(e, env, w, m, o);
      UnboxSim(e, env, w, m, o);
    }
  }

  // --------------------------------------------------- exact or trapping, never wrapping

  /** Literals, names and operators: no call. */
  predicate CallFree(e: Expr) {
    match e.kind
    case Unary(_, i) => CallFree(i)
    case Bin(_, a, b) => CallFree(a) && CallFree(b)
    case Call(_, _) => false
    case MethodCall(_, _, _) => false
    case _ => true
  }

  /** A raw slot, local or the module's. */
  function RawName(x: string, env: Env, m: Machine): int {
    if env.Owns(x) then RawAt(m, Var(x)) else if GlobalAt(m, x).VInt? then GlobalAt(m, x).n else 0
  }

  /** The value of whole-number arithmetic on unbounded integers; none on a zero divisor. */
  function Exact(e: Expr, env: Env, m: Machine): Option<int> {
    match e.kind
    case Int(n) => Some(n)
    case Name(x) => Some(RawName(x, env, m))
    case Unary(_, i) => (match Exact(i, env, m) case None => None case Some(x) => Some(-x))
    case Bin(op, a, b) =>
      (match (Exact(a, env, m), Exact(b, env, m))
       case (Some(x), Some(y)) =>
         (match op
          case Add => Some(x + y)
          case Sub => Some(x - y)
          case Mul => Some(x * y)
          case FloorDiv => if y == 0 then None else Some(FloorQuotient(x, y))
          case Mod => if y == 0 then None else Some(FloorRemainder(x, y))
          case _ => None)
       case _ => None)
    case _ => None
  }

  /** Every intermediate value exists and fits 32 bits. */
  predicate AllFit(e: Expr, env: Env, m: Machine) {
    && Exact(e, env, m).Some? && Fits(Exact(e, env, m).value)
    && match e.kind
       case Unary(_, i) => AllFit(i, env, m)
       case Bin(_, a, b) => AllFit(a, env, m) && AllFit(b, env, m)
       case _ => true
  }

  ghost predicate ExactOrTrap(e: Expr, g: Got<int>, env: Env, m: Machine) {
    if AllFit(e, env, m) then g == Got(Exact(e, env, m).value, m) else g == Trap(Overflow, m.out) || g == Trap(ZeroDivision, m.out)
  }

  /** Raw code yields the unbounded value when every intermediate fits, and otherwise traps
      with an overflow or a zero division. */
  lemma {:induction false} ScalarExact(e: Expr, env: Env, m: Machine, o: Oracle)
    requires ScalarExpr(e, env).Some? && CallFree(e) && forall x :: x in env.typed ==> Fits(RawName(x, env, m))
    ensures ExactOrTrap(e, EvalRaw(ScalarExpr(e, env).value, m, o), env, m)
    decreases e
  {
    match e.kind
    case Unary(_, i) =>
      hide ExactOrTrap, Exact, AllFit, Ck32, Wrap;
      ScalarExact(i, env, m, o);
      NegationExact(e, i, EvalRaw(ScalarExpr(i, env).value, m, o), env, m);
    case Bin(op, a, b) =>
      hide ExactOrTrap, Exact, AllFit, Apply;
      ScalarExact(a, env, m, o);
      ScalarExact(b, env, m, o);
      OperatorExact(e, op, a, b, EvalRaw(ScalarExpr(a, env).value, m, o), EvalRaw(ScalarExpr(b, env).value, m, o), env, m);
    case _ =>
  }

  lemma NegationExact(e: Expr, i: Expr, g: Got<int>, env: Env, m: Machine)
    requires e.kind == Unary(Neg, i) && ExactOrTrap(i, g, env, m)
    ensures ExactOrTrap(e, if g.Got? then Numbered(Ck32(Wrap64(0 - g.value)), g.m) else g, env, m)
  {
    hide Wrap, Ck32;
    if g.Got? { assert Exact(i, env, m) == Some(g.value); INegExact(g.value); }
  }

  lemma OperatorExact(e: Expr, op: BinOp, a: Expr, b: Expr, x: Got<int>, y: Got<int>, env: Env, m: Machine)
    requires e.kind == Bin(op, a, b) && !IsCompare(op) && ExactOrTrap(a, x, env, m) && ExactOrTrap(b, y, env, m)
    ensures x.Got? ==> x.m == m
    ensures ExactOrTrap(e, if x.Trap? then x else if y.Trap? then y else Numbered(Apply(ScalarOp(op), x.value, y.value), m), env, m)
  {
    hide FloorQuotient, FloorRemainder, I32FloorDiv, I32FloorMod, Widened;
    if x.Got? && y.Got? {
      var p, q := x.value, y.value;
      assert Exact(a, env, m) == Some(p) && Exact(b, env, m) == Some(q);
      if op == FloorDiv { FloorDivExact(p, q); } else if op == Mod { FloorModExact(p, q); } else { WidenedExact(op, p, q); }
    }
  }
}
