/** What the inference's verdict (src/repr.rs) is worth when a body runs: no binding of an
    inferred name is ever anything but a whole number. */
module WholeSlots {
  import opened Syntax
  import opened Values
  import opened SlotChoice
  import opened PythonSemantics
  import opened SlotInference

  /** The names of `ints` hold whole numbers, as far as they are assigned. */
  ghost predicate HoldsInts(ints: set<string>, vars: map<string, Value>, globals: map<string, Value>, env: Env) {
    forall x :: x in ints ==> if env.Owns(x) then x in vars ==> vars[x].VInt? else x in globals ==> globals[x].VInt?
  }

  /** `len` is the built-in, or a function that gives back raw numbers. */
  predicate LenCounts(sigs: map<string, Sig>) { "len" in sigs ==> sigs["len"].raw }

  /** What the inference calls a whole number evaluates to one. */
  lemma {:induction false} InferredInt(e: Expr, ints: set<string>, w: World, o: Oracle, r: Rules)
    requires r.how.Watched? && InferInt(e, ints, r.env.sigs) && HoldsInts(ints, w.vars, w.globals, r.env) && LenCounts(r.env.sigs)
    ensures var v := Eval(e, w, o, r); v.Ok? ==> v.value.VInt?
    decreases e
  {
    hide HoldsInts, Narrow, EvalAll, Binary, Negate, Ask;
    if ConstInt(e).None? {
      match e.kind
      case Name(x) => ReadInt(x, ints, w, r);
      case Unary(Neg, i) => InferredInt(i, ints, w, o, r);
      case Bin(op, a, b) =>
        InferredInt(a, ints, w, o, r);
        var x := Eval(a, w, o, r);
        if x.Ok? {
          InferredInt(b, ints, x.world, o, r);
          var y := Eval(b, x.world, o, r);
          if y.Ok? { IntBinary(op, x.value, y.value, y.world, o, r); }
        }
      case Call(f, args) => IntCalled(f, EvalAll(args, RawParams(f, r.env.sigs), f, w, o, r), o, r);
    }
  }

  lemma ReadInt(x: string, ints: set<string>, w: World, r: Rules)
    requires r.how.Watched? && x in ints && HoldsInts(ints, w.vars, w.globals, r.env)
    ensures var v := Read(x, w, r); v.Ok? ==> v.value.VInt?
  {
  }

  lemma IntBinary(op: BinOp, a: Value, b: Value, w: World, o: Oracle, r: Rules)
    requires !IsCompare(op) && a.VInt? && b.VInt?
    ensures var v := Binary(op, a, b, w, o, r); v.Ok? ==> v.value.VInt?
  {
    hide Arithmetic;
  }

  lemma IntCalled(f: string, args: EvaluatedAll, o: Oracle, r: Rules)
    requires r.how.Watched? && (f == "len" || ReturnsRaw(f, r.env.sigs)) && LenCounts(r.env.sigs)
    ensures var v := Called(f, args, o, r); v.Ok? ==> v.value.VInt?
  {
    hide Ask;
  }

  // -------------------------------------------------------------- whole runs

  /** A run keeps the promise, and never stops because an inferred name got another value. */
  ghost predicate Promised(y: Outcome, ints: set<string>, wholes: set<string>, env: Env) {
    match y
    case Next(w) => HoldsInts(ints, w.vars, w.globals, env)
    case Broke(w) => HoldsInts(ints, w.vars, w.globals, env)
    case Continued(w) => HoldsInts(ints, w.vars, w.globals, env)
    case Returned(_, _) => true
    case Stopped(k, _) => Unsurprising(k, wholes)
    case Timeout(_) => true
  }

  predicate Unsurprising(k: Error, wholes: set<string>) {
    k.Departs? && k.departure.Mistyped? ==> k.departure.name !in wholes
  }

  lemma BindInt(x: string, v: Value, ints: set<string>, w: World, env: Env)
    requires HoldsInts(ints, w.vars, w.globals, env) && (x in ints ==> v.VInt?)
    ensures HoldsInts(ints, Bind(w, x, v).vars, w.globals, env)
  {
  }

  /** The setting of every lemma below. */
  ghost predicate Setting(ints: set<string>, wholes: set<string>, r: Rules) {
    r.how.Watched? && ints <= r.env.ints && (wholes != {} ==> LenCounts(r.env.sigs))
  }

  lemma {:induction false} NeverMistyped(b: Block, ints: set<string>, wholes: set<string>, w: World, o: Oracle, r: Rules, fuel: nat)
    requires Setting(ints, wholes, r) && Truthful(b, ints, wholes, r.env.sigs) && HoldsInts(ints, w.vars, w.globals, r.env)
    ensures Promised(ExecBlock(b, w, o, r, fuel), ints, wholes, r.env)
    decreases fuel, BlockSize(b), 1
  {
    if b != [] {
      hide HoldsInts, TruthfulStmt, ExecStmt, Setting;
      StmtPromised(b[0], ints, wholes, w, o, r, fuel);
      var y := ExecStmt(b[0], w, o, r, fuel);
      if y.Next? { NeverMistyped(b[1..], ints, wholes, y.world, o, r, fuel); }
    }
  }

  lemma {:induction false} StmtPromised(s: Stmt, ints: set<string>, wholes: set<string>, w: World, o: Oracle, r: Rules, fuel: nat)
    requires Setting(ints, wholes, r) && TruthfulStmt(s, ints, wholes, r.env.sigs) && HoldsInts(ints, w.vars, w.globals, r.env)
    ensures Promised(ExecStmt(s, w, o, r, fuel), ints, wholes, r.env)
    decreases fuel, StmtSize(s), 0
  {
    hide Eval, Test, Slot, Range, ExecExpr, ExecAssign, ExecBlock, ExecElse, ExecRange, ExecEach, ExecWhile, HoldsInts, Truthful,
      TruthfulArms, InferInt;
    match s.kind
    case Assign(x, e) => AssignPromised(x, e, ints, wholes, w, o, r);
    case AnnAssign(x, e, _) => AssignPromised(x, e, ints, wholes, w, o, r);
    case ExprStmt(e) => ExprPromised(e, ints, wholes, w, o, r);
    case If(c, body, elifs, orelse) =>
      var t := Test(c, w, o, r);
      if t.Holds? {
        if t.b { NeverMistyped(body, ints, wholes, t.world, o, r, fuel); }
        else { ElsePromised(elifs, ElseOf(orelse), ints, wholes, t.world, o, r, fuel); }
      }
    case While(c, body) => WhilePromised(c, body, ints, wholes, w, o, r, fuel);
    case For(x, start, end, step, body, _) =>
      RangeBounded(start, end, step, w, o, r);
      var bounds := Range(start, end, step, w, o, r);
      if bounds.From? { RangePromised(x, bounds.first, bounds.end, bounds.step, body, ints, wholes, bounds.world, o, r, fuel); }
    case ForEach(x, iterable, body) =>
      var v := Eval(iterable, w, o, r.At(false));
      if v.Ok? && v.value.VList? { EachPromised(x, v.value.at, 0, body, ints, wholes, v.world, o, r, fuel); }
    case _ =>
  }

  lemma AssignPromised(x: string, e: Expr, ints: set<string>, wholes: set<string>, w: World, o: Oracle, r: Rules)
    requires Setting(ints, wholes, r) && HoldsInts(ints, w.vars, w.globals, r.env) && (x in wholes ==> InferInt(e, ints, r.env.sigs))
    ensures Promised(ExecAssign(x, e, w, o, r), ints, wholes, r.env)
  {
    hide Eval, HoldsInts, InferInt;
    var r1 := r.At(x in r.env.typed && Scalar(e, r.env));
    if x in wholes { InferredInt(e, ints, w, o, r1); }
    var v := Eval(e, w, o, r1);
    if v.Ok? && Bound(x, v.value, v.world, r).Ok? { BindInt(x, v.value, ints, v.world, r.env); }
  }

  lemma ExprPromised(e: Expr, ints: set<string>, wholes: set<string>, w: World, o: Oracle, r: Rules)
    requires Setting(ints, wholes, r) && HoldsInts(ints, w.vars, w.globals, r.env)
    ensures Promised(ExecExpr(e, w, o, r), ints, wholes, r.env)
  {
    hide Eval, EvalAll, PrintEach, PrintValues, HoldsInts;
  }

  /** Bounds are expressions. */
  lemma RangeBounded(start: Expr, end: Expr, step: Expr, w: World, o: Oracle, r: Rules)
    requires r.how.Watched?
    ensures var bounds := Range(start, end, step, w, o, r);
      if bounds.Unbounded? then OfExpression(bounds.error, r) else bounds.world.vars == w.vars && bounds.world.globals == w.globals
  {
    hide Eval, CodeRange, Unboxed;
  }

  lemma {:induction false} ElsePromised(elifs: seq<Arm>, orelse: Block, ints: set<string>, wholes: set<string>, w: World, o: Oracle,
                                        r: Rules, fuel: nat)
    requires Setting(ints, wholes, r) && TruthfulArms(elifs, ints, wholes, r.env.sigs) && Truthful(orelse, ints, wholes, r.env.sigs)
    requires HoldsInts(ints, w.vars, w.globals, r.env)
    ensures Promised(ExecElse(elifs, orelse, w, o, r, fuel), ints, wholes, r.env)
    decreases fuel, ArmsSize(elifs) + BlockSize(orelse), 2
  {
    hide Test, ExecBlock, HoldsInts, Truthful, Setting;
    if elifs == [] {
      NeverMistyped(orelse, ints, wholes, w, o, r, fuel);
    } else {
      var t := Test(elifs[0].cond, w, o, r);
      if t.Holds? {
        if t.b { NeverMistyped(elifs[0].body, ints, wholes, t.world, o, r, fuel); }
        else { ElsePromised(elifs[1..], orelse, ints, wholes, t.world, o, r, fuel); }
      }
    }
  }

  lemma {:induction false} WhilePromised(c: Expr, body: Block, ints: set<string>, wholes: set<string>, w: World, o: Oracle, r: Rules, fuel: nat)
    requires Setting(ints, wholes, r) && Truthful(body, ints, wholes, r.env.sigs) && HoldsInts(ints, w.vars, w.globals, r.env)
    ensures Promised(ExecWhile(c, body, w, o, r, fuel), ints, wholes, r.env)
    decreases fuel, BlockSize(body), 2
  {
    hide Test, ExecBlock, HoldsInts, Truthful, Setting;
    var t := Test(c, w, o, r);
    if t.Holds? && t.b {
      NeverMistyped(body, ints, wholes, t.world, o, r, fuel);
      var p := PassOf(ExecBlock(body, t.world, o, r, fuel));
      if p.Again? && fuel > 0 { WhilePromised(c, body, ints, wholes, p.world, o, r, fuel - 1); }
    }
  }

  lemma {:induction false} RangePromised(x: string, c: int, end: int, step: int, body: Block, ints: set<string>, wholes: set<string>,
                                         w: World, o: Oracle, r: Rules, fuel: nat)
    requires Setting(ints, wholes, r) && Truthful(body, ints, wholes, r.env.sigs) && HoldsInts(ints, w.vars, w.globals, r.env)
    ensures Promised(ExecRange(x, c, end, step, body, w, o, r, fuel), ints, wholes, r.env)
    decreases fuel, BlockSize(body), 2
  {
    hide ExecBlock, HoldsInts, Truthful, Setting, Exhausted;
    if !Exhausted(c, end, step) {
      BindInt(x, VInt(c), ints, w, r.env);
      NeverMistyped(body, ints, wholes, Bind(w, x, VInt(c)), o, r, fuel);
      var p := PassOf(ExecBlock(body, Bind(w, x, VInt(c)), o, r, fuel));
      if p.Again? && fuel > 0 && Stepped(c, step, r).Num? {
        RangePromised(x, Stepped(c, step, r).n, end, step, body, ints, wholes, p.world, o, r, fuel - 1);
      }
    }
  }

  lemma {:induction false} EachPromised(x: string, at: nat, i: nat, body: Block, ints: set<string>, wholes: set<string>, w: World,
                                        o: Oracle, r: Rules, fuel: nat)
    requires Setting(ints, wholes, r) && Truthful(body, ints, wholes, r.env.sigs) && HoldsInts(ints, w.vars, w.globals, r.env) && x !in wholes
    ensures Promised(ExecEach(x, at, i, body, w, o, r, fuel), ints, wholes, r.env)
    decreases fuel, BlockSize(body), 2
  {
    hide ExecBlock, HoldsInts, Truthful, Items;
    if i < |Items(w.heap, at)| {
      var v := Items(w.heap, at)[i];
      if Bound(x, v, w, r).Ok? {
        BindInt(x, v, ints, w, r.env);
        NeverMistyped(body, ints, wholes, Bind(w, x, v), o, r, fuel);
        var p := PassOf(ExecBlock(body, Bind(w, x, v), o, r, fuel));
        if p.Again? && fuel > 0 { EachPromised(x, at, i + 1, body, ints, wholes, p.world, o, r, fuel - 1); }
      }
    }
  }
}
