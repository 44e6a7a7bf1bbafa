/** In Python every number is one of the 32-bit ones the language promises and no list
    outgrows memory; a run that starts like that stays like that. */
module ProperRuns {
  import opened Syntax
  import opened Values
  import opened MachineIntegers
  import opened SlotChoice
  import opened PythonSemantics

  ghost predicate ProperVars(vars: map<string, Value>) { forall x :: x in vars ==> ProperValue(vars[x]) }

  ghost predicate ProperWorld(w: World) { ProperVars(w.vars) && ProperVars(w.globals) && ProperHeap(w.heap) }

  ghost predicate ProperResult(v: Evaluated) { v.Ok? ==> ProperValue(v.value) && ProperWorld(v.world) }

  ghost predicate ProperResults(v: EvaluatedAll) { v.Oks? ==> ProperWorld(v.world) && forall i :: 0 <= i < |v.values| ==> ProperValue(v.values[i]) }

  lemma ArithmeticFits(op: BinOp, x: int, y: int)
    ensures Arithmetic(op, x, y).Num? ==> Fits(Arithmetic(op, x, y).n)
  {
    hide FloorQuotient, FloorRemainder;
  }

  lemma AskProper(f: string, vs: seq<Value>, w: World, o: Oracle, r: Rules)
    requires ProperWorld(w)
    ensures ProperResult(Ask(f, vs, w, o, r))
  {
  }

  lemma BinaryProper(op: BinOp, a: Value, b: Value, w: World, o: Oracle, r: Rules)
    requires ProperWorld(w)
    ensures ProperResult(Binary(op, a, b, w, o, r))
  {
    hide Plain, Ask, ProperWorld;
    AskProper("+", [a, b], w, o, r);
    AskProper("*", [a, b], w, o, r);
    AskProper("==", [a, b], w, o, r);
    AskProper(Ordering(op), [a, b], w, o, r);
    PlainProper(op, a, b, w);
  }

  lemma PlainProper(op: BinOp, a: Value, b: Value, w: World)
    requires ProperWorld(w)
    ensures ProperResult(Plain(op, a, b, w))
  {
    hide Arithmetic, ProperWorld;
    forall x, y { ArithmeticFits(op, x, y); }
  }

  lemma CalledProper(f: string, args: EvaluatedAll, o: Oracle, r: Rules)
    requires ProperResults(args) && !r.how.Compiled?
    ensures ProperResult(Called(f, args, o, r))
  {
    hide Ask;
    if args.Oks? {
      AskProper(f, args.values, args.world, o, r);
      LengthProper(args.world);
    }
  }

  lemma LengthProper(w: World)
    requires ProperWorld(w)
    ensures forall at :: |Items(w.heap, at)| <= LIST_MAX
  {
  }

  lemma SentProper(l: Value, m: string, n: nat, args: EvaluatedAll, before: World, w: World, o: Oracle, r: Rules)
    requires ProperResults(args) && (args.Oks? ==> |args.values| == n)
    ensures ProperResult(Sent(l, m, n, args, before, w, o, r))
  {
    hide Ask, ProperWorld;
    if args.Oks? {
      AskProper("." + m, [l] + args.values, args.world, o, r);
      if n == 1 { AppendedProper(l, args.values[0], args.world); }
    }
  }

  lemma AppendedProper(l: Value, v: Value, w: World)
    requires ProperWorld(w) && ProperValue(v)
    ensures ProperResult(Appended(l, v, w))
  {
  }

  lemma {:induction false} EvalProper(e: Expr, w: World, o: Oracle, r: Rules)
    requires ProperWorld(w) && !r.how.Compiled?
    ensures ProperResult(Eval(e, w, o, r))
    decreases e, 0
  {
    hide ConstInt, Binary, Called, Sent, EvalAll, Test, ProperWorld;
    if ConstInt(e).None? {
      match e.kind {
        case Name(x) => ReadProper(x, w, r);
        case Unary(Neg, i) =>
          EvalProper(i, w, o, r);
          var v := Eval(i, w, o, r);
          if v.Ok? { NegateProper(v.value, r); }
        case Unary(Not, i) => TestProper(i, w, o, r);
        case Bin(op, a, b) =>
          EvalProper(a, w, o, r);
          var x := Eval(a, w, o, r);
          if x.Ok? {
            EvalProper(b, x.world, o, r);
            var y := Eval(b, x.world, o, r);
            if y.Ok? { BinaryProper(op, x.value, y.value, y.world, o, r); }
          }
        case Call(f, args) =>
          AllProper(args, RawParams(f, r.env.sigs), f, w, o, r);
          CalledProper(f, EvalAll(args, RawParams(f, r.env.sigs), f, w, o, r), o, r);
        case MethodCall(obj, m, args) =>
          EvalProper(obj, w, o, r.At(false));
          var l := Eval(obj, w, o, r.At(false));
          if l.Ok? {
            AllProper(args, [], m, l.world, o, r);
            SentProper(l.value, m, |args|, EvalAll(args, [], m, l.world, o, r), w, l.world, o, r);
          }
        case _ =>
      }
    }
  }

  lemma ReadProper(x: string, w: World, r: Rules)
    requires ProperWorld(w) && !r.how.Compiled?
    ensures ProperResult(Read(x, w, r))
  {
  }

  lemma NegateProper(v: Value, r: Rules)
    requires !r.how.Compiled?
    ensures Negate(v, r).Num? ==> Fits(Negate(v, r).n)
  {
  }

  lemma {:induction false} AllProper(es: seq<Expr>, raws: seq<bool>, f: string, w: World, o: Oracle, r: Rules)
    requires ProperWorld(w) && !r.how.Compiled?
    ensures ProperResults(EvalAll(es, raws, f, w, o, r))
    decreases es, 2
  {
    hide Eval, ProperWorld, Rules.At;
    if es != [] {
      var raw := raws != [] && raws[0];
      SlotProper(es[0], raw, f, w, o, r);
      var v := Slot(es[0], raw, f, w, o, r);
      if v.Ok? { AllProper(es[1..], if raws == [] then [] else raws[1..], f, v.world, o, r); }
    }
  }

  lemma {:induction false} SlotProper(e: Expr, raw: bool, f: string, w: World, o: Oracle, r: Rules)
    requires ProperWorld(w) && !r.how.Compiled?
    ensures ProperResult(Slot(e, raw, f, w, o, r))
    decreases e, 1
  {
    hide Eval, ProperWorld;
    EvalProper(e, w, o, r.At(raw && Scalar(e, r.env)));
  }

  lemma {:induction false} TestProper(e: Expr, w: World, o: Oracle, r: Rules)
    requires ProperWorld(w) && !r.how.Compiled?
    ensures var t := Test(e, w, o, r); t.Holds? ==> ProperWorld(t.world)
    decreases e, 3
  {
    hide Eval, ProperWorld;
    if e.kind.Unary? && e.kind.op == Not { TestProper(e.kind.operand, w, o, r); } else { EvalProper(e, w, o, r.At(TestsRaw(e, r.env))); }
  }

  // ------------------------------------------------------------- statements

  ghost predicate ProperEnd(y: Outcome) {
    match y
    case Next(w) => ProperWorld(w)
    case Broke(w) => ProperWorld(w)
    case Continued(w) => ProperWorld(w)
    case Returned(v, w) => ProperWorld(w) && (v.Some? ==> ProperValue(v.value))
    case _ => true
  }

  lemma BindProper(x: string, v: Value, w: World)
    requires ProperWorld(w) && ProperValue(v)
    ensures ProperWorld(Bind(w, x, v))
  {
  }

  lemma {:induction false} RunProper(b: Block, w: World, o: Oracle, r: Rules, fuel: nat)
    requires ProperWorld(w) && !r.how.Compiled?
    ensures ProperEnd(ExecBlock(b, w, o, r, fuel))
    decreases fuel, BlockSize(b), 1
  {
    if b != [] {
      hide ExecStmt, ProperWorld;
      StmtProper(b[0], w, o, r, fuel);
      var y := ExecStmt(b[0], w, o, r, fuel);
      if y.Next? { RunProper(b[1..], y.world, o, r, fuel); }
    }
  }

  lemma {:induction false} StmtProper(s: Stmt, w: World, o: Oracle, r: Rules, fuel: nat)
    requires ProperWorld(w) && !r.how.Compiled?
    ensures ProperEnd(ExecStmt(s, w, o, r, fuel))
    decreases fuel, StmtSize(s), 0
  {
    hide Eval, Test, Slot, Range, ExecExpr, ExecAssign, ExecBlock, ExecElse, ExecRange, ExecEach, ExecWhile, ProperWorld;
    match s.kind
    case Assign(x, e) => AssignProper(x, e, w, o, r);
    case AnnAssign(x, e, _) => AssignProper(x, e, w, o, r);
    case ExprStmt(e) => ExprProper(e, w, o, r);
    case Return(Some(e)) => SlotProper(e, r.env.scalar, "return", w, o, r);
    case If(c, body, elifs, orelse) =>
      TestProper(c, w, o, r);
      var t := Test(c, w, o, r);
      if t.Holds? {
        if t.b { RunProper(body, t.world, o, r, fuel); } else { ElseProper(elifs, ElseOf(orelse), t.world, o, r, fuel); }
      }
    case While(c, body) => WhileProper(c, body, w, o, r, fuel);
    case For(x, start, end, step, body, _) =>
      RangeProper(start, end, step, w, o, r);
      var bounds := Range(start, end, step, w, o, r);
      if bounds.From? { CountProper(x, bounds.first, bounds.end, bounds.step, body, bounds.world, o, r, fuel); }
    case ForEach(x, iterable, body) =>
      EvalProper(iterable, w, o, r.At(false));
      var v := Eval(iterable, w, o, r.At(false));
      if v.Ok? && v.value.VList? { EachProper(x, v.value.at, 0, body, v.world, o, r, fuel); }
    case _ =>
  }

  lemma AssignProper(x: string, e: Expr, w: World, o: Oracle, r: Rules)
    requires ProperWorld(w) && !r.how.Compiled?
    ensures ProperEnd(ExecAssign(x, e, w, o, r))
  {
    hide Eval, ProperWorld, Scalar;
    var r1 := r.At(x in r.env.typed && Scalar(e, r.env));
    EvalProper(e, w, o, r1);
    var v := Eval(e, w, o, r1);
    if v.Ok? && Bound(x, v.value, v.world, r).Ok? { BindProper(x, v.value, v.world); }
  }

  lemma SameProper(w: World, u: World)
    requires ProperWorld(w) && u.vars == w.vars && u.globals == w.globals && u.heap == w.heap
    ensures ProperWorld(u)
  {
  }

  lemma ExprProper(e: Expr, w: World, o: Oracle, r: Rules)
    requires ProperWorld(w) && !r.how.Compiled?
    ensures ProperEnd(ExecExpr(e, w, o, r))
  {
    hide Eval, EvalAll, PrintEach, PrintValues, ProperWorld;
    if e.kind.Call? && e.kind.func == "print" {
      AllProper(e.kind.args, [], "print", w, o, r);
      var vs := EvalAll(e.kind.args, [], "print", w, o, r);
      if vs.Oks? { PrintedProper(vs.values, vs.world); }
    } else {
      EvalProper(e, w, o, r.At(false));
    }
  }

  lemma PrintedProper(vs: seq<Value>, w: World)
    requires ProperWorld(w)
    ensures ProperEnd(PrintValues(vs, w))
  {
    hide PrintValues;
    var y := PrintValues(vs, w);
    if y.Next? { SameProper(w, y.world); }
  }

  /** The bounds of a range are such numbers, and its step is not zero. */
  lemma RangeProper(start: Expr, end: Expr, step: Expr, w: World, o: Oracle, r: Rules)
    requires ProperWorld(w) && !r.how.Compiled?
    ensures var bounds := Range(start, end, step, w, o, r);
      bounds.From? ==> ProperWorld(bounds.world) && Fits(bounds.first) && Fits(bounds.end) && bounds.step != 0
  {
    hide Eval, CodeRange, ProperWorld, Scalar;
    var ra, rb := r.At(Scalar(start, r.env)), r.At(Scalar(end, r.env));
    EvalProper(start, w, o, ra);
    var a := Eval(start, w, o, ra);
    if a.Ok? {
      EvalProper(end, a.world, o, rb);
      var b := Eval(end, a.world, o, rb);
      if b.Ok? { EvalProper(step, b.world, o, r.At(false)); }
    }
  }

  lemma {:induction false} ElseProper(elifs: seq<Arm>, orelse: Block, w: World, o: Oracle, r: Rules, fuel: nat)
    requires ProperWorld(w) && !r.how.Compiled?
    ensures ProperEnd(ExecElse(elifs, orelse, w, o, r, fuel))
    decreases fuel, ArmsSize(elifs) + BlockSize(orelse), 2
  {
    hide Test, ExecBlock, ProperWorld;
    if elifs == [] {
      RunProper(orelse, w, o, r, fuel);
    } else {
      TestProper(elifs[0].cond, w, o, r);
      var t := Test(elifs[0].cond, w, o, r);
      if t.Holds? {
        if t.b { RunProper(elifs[0].body, t.world, o, r, fuel); } else { ElseProper(elifs[1..], orelse, t.world, o, r, fuel); }
      }
    }
  }

  lemma {:induction false} WhileProper(c: Expr, body: Block, w: World, o: Oracle, r: Rules, fuel: nat)
    requires ProperWorld(w) && !r.how.Compiled?
    ensures ProperEnd(ExecWhile(c, body, w, o, r, fuel))
    decreases fuel, BlockSize(body), 2
  {
    hide Test, ExecBlock, ProperWorld;
    TestProper(c, w, o, r);
    var t := Test(c, w, o, r);
    if t.Holds? && t.b {
      RunProper(body, t.world, o, r, fuel);
      var p := PassOf(ExecBlock(body, t.world, o, r, fuel));
      if p.Again? && fuel > 0 { WhileProper(c, body, p.world, o, r, fuel - 1); }
    }
  }

  /** A counter is bound only while it is between its bounds. */
  lemma {:induction false} CountProper(x: string, c: int, end: int, step: int, body: Block, w: World, o: Oracle, r: Rules, fuel: nat)
    requires ProperWorld(w) && !r.how.Compiled? && Fits(end) && step != 0 && (if step > 0 then c >= I32_MIN else c <= I32_MAX)
    ensures ProperEnd(ExecRange(x, c, end, step, body, w, o, r, fuel))
    decreases fuel, BlockSize(body), 2
  {
    hide ExecBlock, ProperWorld;
    if !Exhausted(c, end, step) {
      var u := Bind(w, x, VInt(c));
      BindProper(x, VInt(c), w);
      RunProper(body, u, o, r, fuel);
      var p := PassOf(ExecBlock(body, u, o, r, fuel));
      if p.Again? && fuel > 0 && Stepped(c, step, r).Num? { CountProper(x, c + step, end, step, body, p.world, o, r, fuel - 1); }
    }
  }

  lemma {:induction false} EachProper(x: string, at: nat, i: nat, body: Block, w: World, o: Oracle, r: Rules, fuel: nat)
    requires ProperWorld(w) && !r.how.Compiled?
    ensures ProperEnd(ExecEach(x, at, i, body, w, o, r, fuel))
    decreases fuel, BlockSize(body), 2
  {
    if i < |Items(w.heap, at)| && Bound(x, Items(w.heap, at)[i], w, r).Ok? {
      var u := Bind(w, x, Items(w.heap, at)[i]);
      BindProper(x, Items(w.heap, at)[i], w);
      hide ExecBlock, ProperWorld;
      RunProper(body, u, o, r, fuel);
      var p := PassOf(ExecBlock(body, u, o, r, fuel));
      if p.Again? && fuel > 0 { EachProper(x, at, i + 1, body, p.world, o, r, fuel - 1); }
    }
  }
}
