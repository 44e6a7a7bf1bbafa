/** Names read before they are assigned.  Python reports them; a compiled boxed slot holds
    null, which most code notices and some code copies on (src/codegen.rs).  Which is which
    can be read off the text. */
module UnassignedReads {
  import opened Syntax
  import opened Values
  import opened MachineIntegers
  import opened SlotChoice
  import opened PythonSemantics
  import opened Departures

  // ------------------------------------------------------------ the text

  /** Computing it prints nothing. */
  predicate Silent(e: Expr, sigs: map<string, Sig>) {
    match e.kind
    case Unary(_, i) => Silent(i, sigs)
    case Bin(_, a, b) => Silent(a, sigs) && Silent(b, sigs)
    case Call(f, args) => f == "len" && f !in sigs && |args| == 1 && Silent(args[0], sigs)
    case MethodCall(obj, m, args) => m == "append" && |args| == 1 && Silent(obj, sigs) && Silent(args[0], sigs)
    case _ => true
  }

  /** Its value is a number or a truth value. */
  predicate Numeric(e: Expr) {
    match e.kind
    case Int(_) => true
    case Bool(_) => true
    case Unary(_, _) => true
    case Bin(op, _, _) => op != Add && op != Mul
    case _ => false
  }

  /** Code that computes it stops at an unassigned name before it prints anything else. */
  predicate Strict(e: Expr, env: Env)
    decreases e, 0
  {
    match e.kind
    case Name(x) => x in env.typed
    case Unary(_, i) => Heeds(i, env)
    case Bin(op, a, b) =>
      && (Strict(a, env) || (a.kind.Name? && Silent(b, env.sigs) && (op in {Eq, Ne} ==> Numeric(b))))
      && (Strict(b, env) || (b.kind.Name? && (op in {Eq, Ne} ==> Numeric(a))))
    case Call(f, args) =>
      if f == "len" && f !in env.sigs && |args| == 1 then Heeds(args[0], env) else StrictArgs(args, RawParams(f, env.sigs), env)
    case MethodCall(obj, m, args) =>
      if m == "append" && |args| == 1 then
        (Strict(obj, env) || (obj.kind.Name? && Silent(args[0], env.sigs))) && Strict(args[0], env)
      else Strict(obj, env) && StrictArgs(args, [], env)
    case _ => true
  }

  /** Where a number, a truth value or a list is needed, a bare name is noticed too. */
  predicate Heeds(e: Expr, env: Env)
    decreases e, 1
  {
    e.kind.Name? || Strict(e, env)
  }

  /** A raw parameter needs a number; a boxed one takes null. */
  predicate StrictArgs(es: seq<Expr>, raws: seq<bool>, env: Env)
    decreases es, 1
  {
    es == [] || ((Strict(es[0], env) || (es[0].kind.Name? && raws != [] && raws[0]))
      && StrictArgs(es[1..], if raws == [] then [] else raws[1..], env))
  }

  predicate HeedsAll(es: seq<Expr>, env: Env) { forall e :: e in es ==> Heeds(e, env) }

  /** No statement copies an unassigned name on. */
  predicate Alert(b: Block, env: Env)
    decreases BlockSize(b), 1
  {
    b == [] || (AlertStmt(b[0], env) && Alert(b[1..], env))
  }

  predicate AlertStmt(s: Stmt, env: Env)
    decreases StmtSize(s), 0
  {
    match s.kind
    case Assign(x, e) => Strict(e, env) || (e.kind.Name? && x in env.typed)
    case AnnAssign(x, e, _) => Strict(e, env) || (e.kind.Name? && x in env.typed)
    case ExprStmt(e) => if e.kind.Call? && e.kind.func == "print" then HeedsAll(e.kind.args, env) else Strict(e, env)
    case Return(Some(e)) => Strict(e, env) || (e.kind.Name? && env.scalar)
    case If(c, body, elifs, orelse) => Heeds(c, env) && Alert(body, env) && AlertArms(elifs, env) && Alert(ElseOf(orelse), env)
    case While(c, body) => Heeds(c, env) && Alert(body, env)
    case For(_, start, end, _, body, _) => Heeds(start, env) && Heeds(end, env) && Alert(body, env)
    case ForEach(_, iterable, body) => Heeds(iterable, env) && Alert(body, env)
    case _ => true
  }

  predicate AlertArms(elifs: seq<Arm>, env: Env)
    decreases ArmsSize(elifs), 1
  {
    elifs == [] || (Heeds(elifs[0].cond, env) && Alert(elifs[0].body, env) && AlertArms(elifs[1..], env))
  }

  /** The runtime's operators print nothing. */
  ghost predicate QuietRuntime(o: Oracle) {
    forall q: Query :: q.callee in {"+", "*", "=="} ==> o(q).printed == []
  }

  // ------------------------------------------------------------- silence

  lemma AskSilent(f: string, vs: seq<Value>, w: World, o: Oracle, r: Rules)
    requires QuietRuntime(o) && f in {"+", "*", "=="}
    ensures OutOf(Ask(f, vs, w, o, r)) == w.out
  {
    var q := Query(w.calls, f, vs, w.heap, Seen(w, r.env));
    assert q.callee in {"+", "*", "=="};
  }

  lemma BinarySilent(op: BinOp, a: Value, b: Value, w: World, o: Oracle, r: Rules)
    requires QuietRuntime(o) && r.how.Compiled?
    ensures OutOf(Binary(op, a, b, w, o, r)) == w.out
  {
    hide Ask, Arithmetic, QuietRuntime;
    AskSilent("+", [a, b], w, o, r);
    AskSilent("*", [a, b], w, o, r);
    AskSilent("==", [a, b], w, o, r);
  }

  lemma {:induction false} SilentPrints(e: Expr, w: World, o: Oracle, r: Rules)
    requires Silent(e, r.env.sigs) && QuietRuntime(o) && r.how.Compiled?
    ensures OutOf(Eval(e, w, o, r)) == w.out
    decreases e, 0
  {
    hide Binary, Negate, ConstInt, Test, Narrow, Read, QuietRuntime, Appended, Len;
    if ConstInt(e).None? {
      match e.kind
      case Name(x) => ReadSilent(x, w, r);
      case Unary(Neg, i) => SilentPrints(i, w, o, r);
      case Unary(Not, i) => SilentTest(i, w, o, r);
      case Bin(op, a, b) =>
        SilentPrints(a, w, o, r);
        var x := Eval(a, w, o, r);
        if x.Ok? {
          SilentPrints(b, x.world, o, r);
          var y := Eval(b, x.world, o, r);
          if y.Ok? { BinarySilent(op, x.value, y.value, y.world, o, r); }
        }
      case Call(f, args) =>
        SilentPrints(args[0], w, o, r.At(false));
        OneArgument(args, f, w, o, r);
        var v := Eval(args[0], w, o, r.At(false));
        if v.Ok? { LenSilent(v.value, v.world); }
      case MethodCall(obj, m, args) =>
        SilentPrints(obj, w, o, r.At(false));
        var l := Eval(obj, w, o, r.At(false));
        if l.Ok? {
          SilentPrints(args[0], l.world, o, r.At(false));
          OneArgument(args, m, l.world, o, r);
          var v := Eval(args[0], l.world, o, r.At(false));
          if v.Ok? { AppendSilent(l.value, v.value, v.world); }
        }
      case _ =>
    }
  }

  lemma ReadSilent(x: string, w: World, r: Rules)
    ensures OutOf(Read(x, w, r)) == w.out
  {
  }

  lemma LenSilent(v: Value, w: World)
    ensures OutOf(Len(v, w)) == w.out
  {
  }

  lemma AppendSilent(l: Value, v: Value, w: World)
    ensures OutOf(Appended(l, v, w)) == w.out
  {
  }

  lemma {:induction false} SilentTest(e: Expr, w: World, o: Oracle, r: Rules)
    requires Silent(e, r.env.sigs) && QuietRuntime(o) && r.how.Compiled?
    ensures var t := Test(e, w, o, r); (if t.Holds? then t.world.out else t.out) == w.out
    decreases e, 1
  {
    hide Eval, TestsRaw, QuietRuntime;
    if e.kind.Unary? && e.kind.op == Not { SilentTest(e.kind.operand, w, o, r); } else {
      SilentPrints(e, w, o, r.At(TestsRaw(e, r.env)));
      var v := Eval(e, w, o, r.At(TestsRaw(e, r.env)));
      if v.Ok? { TruthSpeaks(v.value, v.world); }
    }
  }

  lemma NumericValue(e: Expr, w: World, o: Oracle, r: Rules)
    requires Numeric(e)
    ensures var v := Eval(e, w, o, r); v.Ok? ==> v.value.VInt? || v.value.VBool?
  {
    hide Narrow, Arithmetic, Ask, Negate;
  }

  // --------------------------------------------------------- where runs stop

  /** Departures at which Python stops too: at an unassigned name, or where both sides stop
      and only the error differs, or what was printed before it. */
  predicate BothStop(d: Departure) { d.ReadUnassigned? || d.OtherError? || d.PrintedBefore? }

  /** A watched computation stopped there. */
  predicate Misses(v: Evaluated, d: Departure) { BothStop(d) && v.Fail? && v.error == Departs(d) }

  /** Python reports an unassigned name. */
  predicate Reports(k: Error, d: Departure, how: How, env: Env) {
    how.Python? && d.ReadUnassigned? ==> k == NameError(d.name, !env.Owns(d.name))
  }

  /** How the other side ends there: with some error, and nothing printed since. */
  predicate Halts(v: Evaluated, d: Departure, out: seq<Token>, how: How, env: Env) {
    v.Fail? && v.out == out && Reports(v.error, d, how, env)
  }

  /** The other side: Python, or compiled code, which has to notice an unassigned name. */
  ghost predicate Side(strict: bool, d: Departure, o: Oracle, how: How, env: Env) {
    how.Python? || (how.Compiled? && (d.ReadUnassigned? ==> strict && d.name !in env.typed && QuietRuntime(o)))
  }

  lemma NameHalts(e: Expr, d: Departure, w: World, o: Oracle, env: Env, raw: bool, how: How)
    requires e.kind.Name? && Misses(Eval(e, w, o, Watching(env, raw)), d)
    ensures d == ReadUnassigned(e.kind.name) && Eval(e, w, o, Watching(env, raw)).out == w.out
    ensures how.Python? ==> Halts(Eval(e, w, o, Rules(how, env, raw)), d, w.out, how, env)
    ensures how.Compiled? && d.name !in env.typed ==> Eval(e, w, o, Rules(how, env, raw)) == Ok(VNull, w)
  {
  }

  lemma NullOperand(op: BinOp, a: Value, b: Value, w: World, o: Oracle, r: Rules)
    requires r.how.Compiled? && (a == VNull || b == VNull)
    requires op in {Eq, Ne} ==> !a.VList? && !b.VList? && !a.VNone? && !b.VNone?
    ensures Binary(op, a, b, w, o, r).Fail? && Binary(op, a, b, w, o, r).out == w.out
  {
    hide Arithmetic;
  }

  lemma BinaryNeverMisses(op: BinOp, a: Value, b: Value, w: World, o: Oracle, r: Rules, d: Departure)
    ensures !Misses(Binary(op, a, b, w, o, r), d)
  {
    hide Plain, Ask, Ordering;
    AskNeverDeparts("+", [a, b], w, o, r);
    AskNeverDeparts("*", [a, b], w, o, r);
    AskNeverDeparts("==", [a, b], w, o, r);
    AskNeverDeparts(Ordering(op), [a, b], w, o, r);
    PlainNeverDeparts(op, a, b, w);
  }

  lemma AskNeverDeparts(f: string, vs: seq<Value>, w: World, o: Oracle, r: Rules)
    ensures !Departed(Ask(f, vs, w, o, r))
  {
  }

  lemma PlainNeverDeparts(op: BinOp, a: Value, b: Value, w: World)
    ensures !Departed(Plain(op, a, b, w))
  {
    hide FloorQuotient, FloorRemainder;
  }

  lemma {:induction false} EvalHalts(e: Expr, d: Departure, w: World, o: Oracle, env: Env, raw: bool, how: How)
    requires Misses(Eval(e, w, o, Watching(env, raw)), d) && Side(Strict(e, env), d, o, how, env)
    ensures Halts(Eval(e, w, o, Rules(how, env, raw)), d, Eval(e, w, o, Watching(env, raw)).out, how, env)
    decreases e, 0
  {
    hide ConstInt, Binary, Called, Sent, Negate, EvalAll, Test, Read, Rules.At, QuietRuntime, Silent, Numeric;
    if ConstInt(e).None? {
      Unraw(env, raw, how);
      Unraw(env, raw, Watched);
      match e.kind {
        case Name(_) => NameHalts(e, d, w, o, env, raw, how);
        case Unary(Neg, i) => NegHalts(e, i, d, w, o, env, raw, how);
        case Unary(Not, i) => TestHalts(i, d, w, o, env, raw, how);
        case Bin(op, a, b) => BinHalts(e, op, a, b, d, w, o, env, raw, how);
        case Call(f, args) => CallHalts(e, f, args, d, w, o, env, raw, how);
        case MethodCall(obj, m, args) => MethodHalts(e, obj, m, args, d, w, o, env, raw, how);
        case _ =>
      }
    }
  }

  lemma {:induction false} NegHalts(e: Expr, i: Expr, d: Departure, w: World, o: Oracle, env: Env, raw: bool, how: How)
    requires e.kind == Unary(Neg, i) && ConstInt(e).None?
    requires Misses(Eval(e, w, o, Watching(env, raw)), d) && Side(Strict(e, env), d, o, how, env)
    ensures Halts(Eval(e, w, o, Rules(how, env, raw)), d, Eval(e, w, o, Watching(env, raw)).out, how, env)
    decreases i, 2
  {
    hide ConstInt, QuietRuntime, Strict;
    HeedsOperand(e, i, env);
    var a := Eval(i, w, o, Watching(env, raw));
    if a.Fail? {
      if i.kind.Name? { NameHalts(i, d, w, o, env, raw, how); } else { EvalHalts(i, d, w, o, env, raw, how); }
    }
  }

  lemma HeedsOperand(e: Expr, i: Expr, env: Env)
    requires e.kind.Unary? && e.kind.operand == i
    ensures Strict(e, env) ==> Heeds(i, env)
  {
  }

  lemma {:induction false} BinHalts(e: Expr, op: BinOp, a: Expr, b: Expr, d: Departure, w: World, o: Oracle, env: Env, raw: bool, how: How)
    requires e.kind == Bin(op, a, b) && ConstInt(e).None?
    requires Misses(Eval(e, w, o, Watching(env, raw)), d) && Side(Strict(e, env), d, o, how, env)
    ensures Halts(Eval(e, w, o, Rules(how, env, raw)), d, Eval(e, w, o, Watching(env, raw)).out, how, env)
    decreases e, 0, 0
  {
    hide ConstInt, Binary, QuietRuntime, Silent, Numeric;
    var rw, r := Watching(env, raw), Rules(how, env, raw);
    var u := Eval(a, w, o, rw);
    EvalLeads(a, w, o, env, raw, how);
    if u.Fail? {
      if a.kind.Name? {
        NameHalts(a, d, w, o, env, raw, how);
        if how.Compiled? && !Strict(a, env) { LeftNull(e, op, a, b, w, o, env, raw); }
      } else {
        EvalHalts(a, d, w, o, env, raw, how);
      }
    } else {
      var v := Eval(b, u.world, o, rw);
      if v.Ok? {
        BinaryNeverMisses(op, u.value, v.value, v.world, o, rw, d);
      } else if b.kind.Name? {
        NameHalts(b, d, u.world, o, env, raw, how);
        if how.Compiled? && !Strict(b, env) { RightNull(op, a, u, w, o, env, raw); }
      } else {
        EvalHalts(b, d, u.world, o, env, raw, how);
      }
    }
  }

  lemma LeftNull(e: Expr, op: BinOp, a: Expr, b: Expr, w: World, o: Oracle, env: Env, raw: bool)
    requires e.kind == Bin(op, a, b) && ConstInt(e).None? && Eval(a, w, o, Rules(Compiled, env, raw)) == Ok(VNull, w)
    requires Silent(b, env.sigs) && (op in {Eq, Ne} ==> Numeric(b)) && QuietRuntime(o)
    ensures var v := Eval(e, w, o, Rules(Compiled, env, raw)); v.Fail? && v.out == w.out
  {
    hide ConstInt, Binary, QuietRuntime, Silent, Numeric;
    var r := Rules(Compiled, env, raw);
    SilentPrints(b, w, o, r);
    var y := Eval(b, w, o, r);
    if y.Ok? {
      if op in {Eq, Ne} { NumericValue(b, w, o, r); }
      NullOperand(op, VNull, y.value, y.world, o, r);
    }
  }

  lemma RightNull(op: BinOp, a: Expr, u: Evaluated, w: World, o: Oracle, env: Env, raw: bool)
    requires u == Eval(a, w, o, Watching(env, raw)) && u.Ok? && (op in {Eq, Ne} ==> Numeric(a))
    ensures var v := Binary(op, u.value, VNull, u.world, o, Rules(Compiled, env, raw)); v.Fail? && v.out == u.world.out
  {
    hide Eval, Binary, Numeric;
    if op in {Eq, Ne} { NumericValue(a, w, o, Watching(env, raw)); }
    NullOperand(op, u.value, VNull, u.world, o, Rules(Compiled, env, raw));
  }

  lemma {:induction false} CallHalts(e: Expr, f: string, args: seq<Expr>, d: Departure, w: World, o: Oracle, env: Env, raw: bool, how: How)
    requires e.kind == Call(f, args) && ConstInt(e).None?
    requires Misses(Eval(e, w, o, Watching(env, raw)), d) && Side(Strict(e, env), d, o, how, env)
    ensures Halts(Eval(e, w, o, Rules(how, env, raw)), d, Eval(e, w, o, Watching(env, raw)).out, how, env)
    decreases e, 0, 0
  {
    hide ConstInt, QuietRuntime, EvalAll, StrictArgs, Called;
    var rw, r, raws := Watching(env, raw), Rules(how, env, raw), RawParams(f, env.sigs);
    CalledNeverMisses(f, EvalAll(args, raws, f, w, o, rw), o, env, raw, d);
    if how.Compiled? && f == "len" && f !in env.sigs && |args| == 1 {
      Unraw(env, raw, how);
      OneArgument(args, f, w, o, rw);
      OneArgument(args, f, w, o, r);
      if args[0].kind.Name? {
        NameHalts(args[0], d, w, o, env, false, how);
        LenOfNull(w, o, r);
      } else {
        EvalHalts(args[0], d, w, o, env, false, how);
        CalledFails(f, EvalAll(args, raws, f, w, o, r), o, r);
      }
    } else {
      AllHalts(args, raws, f, d, w, o, env, raw, how);
      CalledFails(f, EvalAll(args, raws, f, w, o, r), o, r);
    }
  }

  lemma CalledFails(f: string, args: EvaluatedAll, o: Oracle, r: Rules)
    requires args.Fails?
    ensures Called(f, args, o, r) == Fail(args.error, args.out)
  {
  }

  lemma LenOfNull(w: World, o: Oracle, r: Rules)
    requires "len" !in r.env.sigs
    ensures Called("len", Oks([VNull], w), o, r) == Fail(TypeError, w.out)
  {
  }

  /** Only the arguments of a call can miss a name. */
  lemma CalledNeverMisses(f: string, args: EvaluatedAll, o: Oracle, env: Env, raw: bool, d: Departure)
    ensures var v := Called(f, args, o, Watching(env, raw));
      Misses(v, d) ==> args.Fails? && args.error == Departs(d) && args.out == v.out
  {
    hide Ask;
    if args.Oks? { AskLeads(f, args.values, args.world, o, env, raw, Watched); }
  }

  lemma {:induction false} AllHalts(es: seq<Expr>, raws: seq<bool>, f: string, d: Departure, w: World, o: Oracle, env: Env, raw: bool, how: How)
    requires var v := EvalAll(es, raws, f, w, o, Watching(env, raw)); BothStop(d) && v.Fails? && v.error == Departs(d)
    requires Side(StrictArgs(es, raws, env), d, o, how, env)
    ensures var v, u := EvalAll(es, raws, f, w, o, Watching(env, raw)), EvalAll(es, raws, f, w, o, Rules(how, env, raw));
      u.Fails? && u.out == v.out && Reports(u.error, d, how, env)
    decreases es, 2
  {
    hide QuietRuntime, Slot, Strict;
    var first, rest := raws != [] && raws[0], if raws == [] then [] else raws[1..];
    SlotLeads(es[0], first, f, w, o, env, raw, how);
    var a := Slot(es[0], first, f, w, o, Watching(env, raw));
    if a.Ok? { AllHalts(es[1..], rest, f, d, a.world, o, env, raw, how); } else { SlotHalts(es[0], first, f, d, w, o, env, raw, how); }
  }

  lemma {:induction false} SlotHalts(e: Expr, raws: bool, f: string, d: Departure, w: World, o: Oracle, env: Env, raw: bool, how: How)
    requires Misses(Slot(e, raws, f, w, o, Watching(env, raw)), d) && Side(Strict(e, env) || (e.kind.Name? && raws), d, o, how, env)
    ensures Halts(Slot(e, raws, f, w, o, Rules(how, env, raw)), d, Slot(e, raws, f, w, o, Watching(env, raw)).out, how, env)
    decreases e, 1
  {
    hide Eval, Scalar, Rules.At, QuietRuntime, Strict;
    var flag := raws && Scalar(e, env);
    Unraw(env, raw, how);
    Unraw(env, raw, Watched);
    var a := Eval(e, w, o, Watching(env, flag));
    if a.Fail? {
      if e.kind.Name? && !Strict(e, env) { NameHalts(e, d, w, o, env, flag, how); } else { EvalHalts(e, d, w, o, env, flag, how); }
    }
  }

  lemma {:induction false} MethodHalts(e: Expr, obj: Expr, m: string, args: seq<Expr>, d: Departure, w: World, o: Oracle, env: Env, raw: bool,
                                         how: How)
    requires e.kind == MethodCall(obj, m, args) && ConstInt(e).None?
    requires Misses(Eval(e, w, o, Watching(env, raw)), d) && Side(Strict(e, env), d, o, how, env)
    ensures Halts(Eval(e, w, o, Rules(how, env, raw)), d, Eval(e, w, o, Watching(env, raw)).out, how, env)
    decreases e, 0, 0
  {
    hide ConstInt, QuietRuntime, EvalAll, StrictArgs, Sent, Silent;
    var rw, r := Watching(env, raw), Rules(how, env, raw);
    Unraw(env, raw, how);
    Unraw(env, raw, Watched);
    EvalLeads(obj, w, o, env, false, how);
    var l := Eval(obj, w, o, Watching(env, false));
    if l.Fail? {
      if obj.kind.Name? {
        NameHalts(obj, d, w, o, env, false, how);
        if how.Compiled? && !Strict(obj, env) { AppendToNull(args, w, o, env, raw); }
      } else {
        EvalHalts(obj, d, w, o, env, false, how);
      }
    } else {
      var vs := EvalAll(args, [], m, l.world, o, rw);
      SentNeverMisses(l.value, m, |args|, vs, w, l.world, o, env, raw, d);
      AllLeads(args, [], m, l.world, o, env, raw, how);
      if Sought(l.value, m, |args|, vs, d) {
        SoughtHalts(l.value, vs, d, w, l.world, o, env, raw, how);
      } else {
        if how.Compiled? && m == "append" && |args| == 1 {
          OneArgument(args, m, l.world, o, rw);
          OneArgument(args, m, l.world, o, r);
          EvalHalts(args[0], d, l.world, o, env, false, how);
        } else {
          AllHalts(args, [], m, d, l.world, o, env, raw, how);
        }
        SentFails(l.value, m, |args|, EvalAll(args, [], m, l.world, o, r), w, l.world, o, r);
      }
    }
  }

  lemma AppendToNull(args: seq<Expr>, w: World, o: Oracle, env: Env, raw: bool)
    requires |args| == 1 && Silent(args[0], env.sigs) && QuietRuntime(o)
    ensures var r := Rules(Compiled, env, raw);
      var v := Sent(VNull, "append", 1, EvalAll(args, [], "append", w, o, r), w, w, o, r); v.Fail? && v.out == w.out
  {
    hide Eval, EvalAll, QuietRuntime, Silent;
    var r := Rules(Compiled, env, raw);
    OneArgument(args, "append", w, o, r);
    SilentPrints(args[0], w, o, r.At(false));
  }

  lemma SentFails(l: Value, m: string, n: nat, args: EvaluatedAll, before: World, w: World, o: Oracle, r: Rules)
    requires args.Fails? && (m == "append" && n == 1 ==> l.VList?)
    ensures Sent(l, m, n, args, before, w, o, r) == Fail(args.error, args.out)
  {
  }

  /** Where a method was looked up in vain, after the argument. */
  predicate Sought(l: Value, m: string, n: nat, args: EvaluatedAll, d: Departure) {
    m == "append" && n == 1 && !l.VList? && d.OtherError? && (args.Fails? ==> !args.error.Departs?)
  }

  lemma SoughtHalts(l: Value, args: EvaluatedAll, d: Departure, before: World, w: World, o: Oracle, env: Env, raw: bool, how: How)
    requires Sought(l, "append", 1, args, d) && !how.Watched? && (args.Oks? ==> |args.values| == 1)
    requires (if args.Oks? then args.world.out else args.out) == w.out
    ensures Halts(Sent(l, "append", 1, args, before, w, o, Rules(how, env, raw)), d, w.out, how, env)
  {
  }

  lemma SentNeverMisses(l: Value, m: string, n: nat, args: EvaluatedAll, before: World, w: World, o: Oracle, env: Env, raw: bool, d: Departure)
    requires args.Oks? ==> |args.values| == n
    ensures var v := Sent(l, m, n, args, before, w, o, Watching(env, raw));
      Misses(v, d) ==>
        if Sought(l, m, n, args, d) then v.out == w.out && (if args.Oks? then args.world.out else args.out) == w.out
        else args.Fails? && args.error == Departs(d) && args.out == v.out && (m == "append" && n == 1 ==> l.VList?)
  {
    hide Ask;
    if args.Oks? { AskLeads("." + m, [l] + args.values, args.world, o, env, raw, Watched); }
  }

  lemma {:induction false} TestHalts(e: Expr, d: Departure, w: World, o: Oracle, env: Env, raw: bool, how: How)
    requires var t := Test(e, w, o, Watching(env, raw)); BothStop(d) && t.Breaks? && t.error == Departs(d)
    requires Side(Heeds(e, env), d, o, how, env)
    ensures var t, u := Test(e, w, o, Watching(env, raw)), Test(e, w, o, Rules(how, env, raw));
      u.Breaks? && u.out == t.out && Reports(u.error, d, how, env)
    decreases e, 3
  {
    hide Eval, TestsRaw, Rules.At, QuietRuntime;
    if e.kind.Unary? && e.kind.op == Not {
      TestHalts(e.kind.operand, d, w, o, env, raw, how);
    } else {
      hide Strict;
      var flag := TestsRaw(e, env);
      Unraw(env, raw, how);
      Unraw(env, raw, Watched);
      var a := Eval(e, w, o, Watching(env, flag));
      if a.Ok? { TruthSpeaks(a.value, a.world); }
      else if e.kind.Name? { NameHalts(e, d, w, o, env, flag, how); }
      else { EvalHalts(e, d, w, o, env, flag, how); }
    }
  }

  // -------------------------------------------------------------- statements

  predicate StopsAt(y: Outcome, d: Departure) { BothStop(d) && y.Stopped? && y.error == Departs(d) }

  predicate Ends(y: Outcome, d: Departure, out: seq<Token>, how: How, env: Env) {
    y.Stopped? && (if d.PrintedBefore? && how.Compiled? then out <= y.out else y.out == out) && Reports(y.error, d, how, env)
  }

  /** Where the watched run stops at an unassigned name, Python reports that name, and code
      that is alert stops too; all have printed the same.  Where it stops because both sides
      do, they do, and only a `print` cut short can leave the code ahead. */
  lemma {:induction false} MissedRun(b: Block, d: Departure, w: World, o: Oracle, env: Env, how: How, fuel: nat)
    requires env.typed <= env.ints && StopsAt(ExecBlock(b, w, o, Watching(env, false), fuel), d) && Side(Alert(b, env), d, o, how, env)
    ensures Ends(ExecBlock(b, w, o, Rules(how, env, false), fuel), d, Out(ExecBlock(b, w, o, Watching(env, false), fuel)), how, env)
    decreases fuel, BlockSize(b), 1
  {
    if b != [] {
      hide ExecStmt, AlertStmt, QuietRuntime;
      StmtTracks(b[0], w, o, env, how, fuel);
      var y := ExecStmt(b[0], w, o, Watching(env, false), fuel);
      if y.Next? { MissedRun(b[1..], d, y.world, o, env, how, fuel); } else { MissedStmt(b[0], d, w, o, env, how, fuel); }
    }
  }

  lemma {:induction false} MissedStmt(s: Stmt, d: Departure, w: World, o: Oracle, env: Env, how: How, fuel: nat)
    requires env.typed <= env.ints && StopsAt(ExecStmt(s, w, o, Watching(env, false), fuel), d) && Side(AlertStmt(s, env), d, o, how, env)
    ensures Ends(ExecStmt(s, w, o, Rules(how, env, false), fuel), d, Out(ExecStmt(s, w, o, Watching(env, false), fuel)), how, env)
    decreases fuel, StmtSize(s), 0
  {
    hide Eval, Test, Slot, Range, ExecExpr, ExecAssign, ExecBlock, ExecElse, ExecRange, ExecEach, ExecWhile, Strict, Heeds, Alert,
      AlertArms, QuietRuntime;
    var rw, r := Watching(env, false), Rules(how, env, false);
    match s.kind
    case Assign(y, e) => MissedAssign(y, e, d, w, o, env, how);
    case AnnAssign(y, e, _) => MissedAssign(y, e, d, w, o, env, how);
    case ExprStmt(e) => MissedExpr(e, d, w, o, env, how);
    case Return(Some(e)) => SlotHalts(e, env.scalar, "return", d, w, o, env, false, how);
    case If(c, body, elifs, orelse) =>
      TestLeads(c, w, o, env, false, how);
      var t := Test(c, w, o, rw);
      if t.Breaks? { TestHalts(c, d, w, o, env, false, how); }
      else if t.b { MissedRun(body, d, t.world, o, env, how, fuel); }
      else { MissedElse(elifs, ElseOf(orelse), d, t.world, o, env, how, fuel); }
    case While(c, body) => MissedWhile(c, body, d, w, o, env, how, fuel);
    case For(y, start, end, step, body, _) => MissedFor(s, d, w, o, env, how, fuel);
    case ForEach(y, iterable, body) => MissedForEach(s, d, w, o, env, how, fuel);
    case _ =>
  }

  lemma MissedAssign(y: string, e: Expr, d: Departure, w: World, o: Oracle, env: Env, how: How)
    requires StopsAt(ExecAssign(y, e, w, o, Watching(env, false)), d) && Side(Strict(e, env) || (e.kind.Name? && y in env.typed), d, o, how, env)
    ensures Ends(ExecAssign(y, e, w, o, Rules(how, env, false)), d, Out(ExecAssign(y, e, w, o, Watching(env, false))), how, env)
  {
    hide Eval, Scalar, Rules.At, QuietRuntime, Strict;
    var flag := y in env.typed && Scalar(e, env);
    Unraw(env, false, how);
    Unraw(env, false, Watched);
    var a := Eval(e, w, o, Watching(env, flag));
    if a.Fail? {
      if e.kind.Name? && !Strict(e, env) { NameHalts(e, d, w, o, env, flag, how); } else { EvalHalts(e, d, w, o, env, flag, how); }
    }
  }

  lemma MissedExpr(e: Expr, d: Departure, w: World, o: Oracle, env: Env, how: How)
    requires StopsAt(ExecExpr(e, w, o, Watching(env, false)), d) && Side(AlertStmt(AsStmt(ExprStmt(e)), env), d, o, how, env)
    ensures Ends(ExecExpr(e, w, o, Rules(how, env, false)), d, Out(ExecExpr(e, w, o, Watching(env, false))), how, env)
  {
    hide Eval, PrintAll, PrintEach, QuietRuntime, Strict, Heeds;
    if e.kind.Call? && e.kind.func == "print" {
      MissedPrint(e.kind.args, d, w, o, env, how);
    } else {
      EvalHalts(e, d, w, o, env, false, how);
    }
  }

  lemma MissedPrint(args: seq<Expr>, d: Departure, w: World, o: Oracle, env: Env, how: How)
    requires StopsAt(ExecPrint(args, w, o, Watching(env, false)), d) && Side(HeedsAll(args, env), d, o, how, env)
    ensures Ends(ExecPrint(args, w, o, Rules(how, env, false)), d, Out(ExecPrint(args, w, o, Watching(env, false))), how, env)
  {
    hide PrintAll, PrintEach, QuietRuntime, HeedsAll;
    var all, each := PrintAll(args, w, o, Watching(env, false)), PrintEach(args, w, o, Watching(env, false));
    PrintAllTracks(args, w, o, env, how);
    PrintEachTracks(args, w, o, env, how);
    if all == each {
      if how.Python? { MissedPrintAll(args, d, w, o, env); } else { MissedPrintEach(args, d, w, o, env); }
    }
  }

  lemma MissedPrintAll(args: seq<Expr>, d: Departure, w: World, o: Oracle, env: Env)
    requires StopsAt(PrintAll(args, w, o, Watching(env, false)), d)
    ensures Ends(PrintAll(args, w, o, Rules(Python, env, false)), d, Out(PrintAll(args, w, o, Watching(env, false))), Python, env)
  {
    hide EvalAll;
    var vs := EvalAll(args, [], "print", w, o, Watching(env, false));
    if vs.Fails? { AllHalts(args, [], "print", d, w, o, env, false, Python); }
  }

  lemma {:induction false} MissedPrintEach(args: seq<Expr>, d: Departure, w: World, o: Oracle, env: Env)
    requires StopsAt(PrintEach(args, w, o, Watching(env, false)), d) && Side(HeedsAll(args, env), d, o, Compiled, env)
    ensures Ends(PrintEach(args, w, o, Rules(Compiled, env, false)), d, Out(PrintEach(args, w, o, Watching(env, false))), Compiled, env)
    decreases |args|
  {
    hide Eval, QuietRuntime, Strict;
    if args != [] {
      assert HeedsAll(args, env) ==> Heeds(args[0], env) && HeedsAll(args[1..], env);
      EvalLeads(args[0], w, o, env, false, Compiled);
      var a := Eval(args[0], w, o, Watching(env, false));
      if a.Ok? {
        var u := Printed(a.value, a.world);
        if u.Ok? && |args| > 1 { MissedPrintEach(args[1..], d, Put(u.world, Space), o, env); }
      } else if args[0].kind.Name? {
        NameHalts(args[0], d, w, o, env, false, Compiled);
      } else {
        EvalHalts(args[0], d, w, o, env, false, Compiled);
      }
    }
  }

  lemma {:induction false} MissedElse(elifs: seq<Arm>, orelse: Block, d: Departure, w: World, o: Oracle, env: Env, how: How, fuel: nat)
    requires env.typed <= env.ints && StopsAt(ExecElse(elifs, orelse, w, o, Watching(env, false), fuel), d)
    requires Side(AlertArms(elifs, env) && Alert(orelse, env), d, o, how, env)
    ensures Ends(ExecElse(elifs, orelse, w, o, Rules(how, env, false), fuel), d, Out(ExecElse(elifs, orelse, w, o, Watching(env, false),
      fuel)), how, env)
    decreases fuel, ArmsSize(elifs) + BlockSize(orelse), 2
  {
    hide Test, ExecBlock, Alert, Heeds, QuietRuntime;
    if elifs == [] {
      MissedRun(orelse, d, w, o, env, how, fuel);
    } else {
      TestLeads(elifs[0].cond, w, o, env, false, how);
      var t := Test(elifs[0].cond, w, o, Watching(env, false));
      if t.Breaks? { TestHalts(elifs[0].cond, d, w, o, env, false, how); }
      else if t.b { MissedRun(elifs[0].body, d, t.world, o, env, how, fuel); }
      else { MissedElse(elifs[1..], orelse, d, t.world, o, env, how, fuel); }
    }
  }

  lemma {:induction false} MissedWhile(c: Expr, body: Block, d: Departure, w: World, o: Oracle, env: Env, how: How, fuel: nat)
    requires env.typed <= env.ints && StopsAt(ExecWhile(c, body, w, o, Watching(env, false), fuel), d)
    requires Side(Heeds(c, env) && Alert(body, env), d, o, how, env)
    ensures Ends(ExecWhile(c, body, w, o, Rules(how, env, false), fuel), d, Out(ExecWhile(c, body, w, o, Watching(env, false), fuel)), how, env)
    decreases fuel, BlockSize(body), 2
  {
    hide Test, ExecBlock, Alert, Heeds, QuietRuntime;
    TestLeads(c, w, o, env, false, how);
    var t := Test(c, w, o, Watching(env, false));
    if t.Breaks? {
      TestHalts(c, d, w, o, env, false, how);
    } else if t.b {
      WatchedRun(body, t.world, o, env, how, fuel);
      var y := ExecBlock(body, t.world, o, Watching(env, false), fuel);
      if StopsAt(y, d) { MissedRun(body, d, t.world, o, env, how, fuel); }
      else if PassOf(y).Again? && fuel > 0 { MissedWhile(c, body, d, PassOf(y).world, o, env, how, fuel - 1); }
    }
  }

  lemma {:induction false} MissedFor(s: Stmt, d: Departure, w: World, o: Oracle, env: Env, how: How, fuel: nat)
    requires s.kind.For? && env.typed <= env.ints && StopsAt(ExecStmt(s, w, o, Watching(env, false), fuel), d)
      && Side(AlertStmt(s, env), d, o, how, env)
    ensures Ends(ExecStmt(s, w, o, Rules(how, env, false), fuel), d, Out(ExecStmt(s, w, o, Watching(env, false), fuel)), how, env)
    decreases fuel, BlockSize(s.kind.body), 4
  {
    hide Range, ExecRange, Alert, Heeds, QuietRuntime;
    var For(v, start, end, step, body, _) := s.kind;
    RangeLeads(start, end, step, w, o, env, how);
    var a := Range(start, end, step, w, o, Watching(env, false));
    if a.From? { MissedCount(v, a.first, a.end, a.step, body, d, a.world, o, env, how, fuel); }
    else { MissedRange(start, end, step, d, w, o, env, how); }
  }

  lemma MissedRange(start: Expr, end: Expr, step: Expr, d: Departure, w: World, o: Oracle, env: Env, how: How)
    requires var a := Range(start, end, step, w, o, Watching(env, false)); BothStop(d) && a.Unbounded? && a.error == Departs(d)
    requires Side(Heeds(start, env) && Heeds(end, env), d, o, how, env)
    ensures var a, b := Range(start, end, step, w, o, Watching(env, false)), Range(start, end, step, w, o, Rules(how, env, false));
      b.Unbounded? && b.out == a.out && Reports(b.error, d, how, env)
  {
    hide PythonRange, CodeRange, Heeds, QuietRuntime;
    PythonRangeLeads(start, end, step, w, o, env, how);
    CodeRangeLeads(start, end, step, w, o, env, how);
    if PythonRange(start, end, step, w, o, Watching(env, false)) == CodeRange(start, end, step, w, o, Watching(env, false)) {
      if how.Python? { MissedPythonRange(start, end, step, d, w, o, env); } else { MissedCodeRange(start, end, step, d, w, o, env); }
    }
  }

  lemma MissedPythonRange(start: Expr, end: Expr, step: Expr, d: Departure, w: World, o: Oracle, env: Env)
    requires var a := PythonRange(start, end, step, w, o, Watching(env, false)); BothStop(d) && a.Unbounded? && a.error == Departs(d)
    ensures var a, b := PythonRange(start, end, step, w, o, Watching(env, false)), PythonRange(start, end, step, w, o, Rules(Python, env, false));
      b.Unbounded? && b.out == a.out && Reports(b.error, d, Python, env)
  {
    hide Eval, Scalar, Rules.At, Unboxed;
    Unraw(env, false, Python);
    Unraw(env, false, Watched);
    EvalLeads(start, w, o, env, Scalar(start, env), Python);
    var a := Eval(start, w, o, Watching(env, Scalar(start, env)));
    if a.Ok? {
      EvalLeads(end, a.world, o, env, Scalar(end, env), Python);
      var b := Eval(end, a.world, o, Watching(env, Scalar(end, env)));
      if b.Ok? { EvalHalts(step, d, b.world, o, env, false, Python); } else { EvalHalts(end, d, a.world, o, env, Scalar(end, env), Python); }
    } else {
      EvalHalts(start, d, w, o, env, Scalar(start, env), Python);
    }
  }

  lemma MissedNumeral(e: Expr, d: Departure, w: World, o: Oracle, env: Env)
    requires Misses(Numeral(e, w, o, Watching(env, false)), d) && Side(Heeds(e, env), d, o, Compiled, env)
    ensures Halts(Numeral(e, w, o, Rules(Compiled, env, false)), d, Numeral(e, w, o, Watching(env, false)).out, Compiled, env)
  {
    hide Eval, Scalar, Rules.At, QuietRuntime, Strict;
    var flag := Scalar(e, env);
    Unraw(env, false, Compiled);
    Unraw(env, false, Watched);
    var a := Eval(e, w, o, Watching(env, flag));
    if a.Fail? {
      if e.kind.Name? { NameHalts(e, d, w, o, env, flag, Compiled); } else { EvalHalts(e, d, w, o, env, flag, Compiled); }
    }
  }

  lemma MissedCodeRange(start: Expr, end: Expr, step: Expr, d: Departure, w: World, o: Oracle, env: Env)
    requires var a := CodeRange(start, end, step, w, o, Watching(env, false)); BothStop(d) && a.Unbounded? && a.error == Departs(d)
    requires Side(Heeds(start, env) && Heeds(end, env), d, o, Compiled, env)
    ensures var a, b := CodeRange(start, end, step, w, o, Watching(env, false)), CodeRange(start, end, step, w, o, Rules(Compiled, env, false));
      b.Unbounded? && b.out == a.out
  {
    hide Numeral, ConstInt, Heeds, QuietRuntime;
    if ConstInt(end).Some? {
      MissedNumeral(start, d, w, o, env);
    } else {
      NumeralLeads(end, w, o, env, Compiled);
      var b := Numeral(end, w, o, Watching(env, false));
      if b.Ok? { MissedNumeral(start, d, b.world, o, env); } else { MissedNumeral(end, d, w, o, env); }
    }
  }

  lemma {:induction false} MissedCount(v: string, c: int, end: int, step: int, body: Block, d: Departure, w: World, o: Oracle, env: Env,
                                       how: How, fuel: nat)
    requires env.typed <= env.ints && StopsAt(ExecRange(v, c, end, step, body, w, o, Watching(env, false), fuel), d)
      && Side(Alert(body, env), d, o, how, env)
    ensures Ends(ExecRange(v, c, end, step, body, w, o, Rules(how, env, false), fuel), d,
                 Out(ExecRange(v, c, end, step, body, w, o, Watching(env, false), fuel)), how, env)
    decreases fuel, BlockSize(body), 2
  {
    hide ExecBlock, Alert, Exhausted, Stepped, QuietRuntime;
    SteppedLeads(c, step, env, how);
    var w1 := Bind(w, v, VInt(c));
    WatchedRun(body, w1, o, env, how, fuel);
    var y := ExecBlock(body, w1, o, Watching(env, false), fuel);
    if StopsAt(y, d) { MissedRun(body, d, w1, o, env, how, fuel); }
    else if PassOf(y).Again? && fuel > 0 && Stepped(c, step, Watching(env, false)).Num? {
      MissedCount(v, Stepped(c, step, Watching(env, false)).n, end, step, body, d, PassOf(y).world, o, env, how, fuel - 1);
    }
  }

  lemma {:induction false} MissedForEach(s: Stmt, d: Departure, w: World, o: Oracle, env: Env, how: How, fuel: nat)
    requires s.kind.ForEach? && env.typed <= env.ints && StopsAt(ExecStmt(s, w, o, Watching(env, false), fuel), d)
      && Side(AlertStmt(s, env), d, o, how, env)
    ensures Ends(ExecStmt(s, w, o, Rules(how, env, false), fuel), d, Out(ExecStmt(s, w, o, Watching(env, false), fuel)), how, env)
    decreases fuel, BlockSize(s.kind.body), 4
  {
    hide Eval, ExecEach, Alert, Strict, QuietRuntime;
    var ForEach(v, iterable, body) := s.kind;
    EvalLeads(iterable, w, o, env, false, how);
    var a := Eval(iterable, w, o, Watching(env, false));
    if a.Ok? {
      if a.value.VList? { MissedEach(v, a.value.at, 0, body, d, a.world, o, env, how, fuel); }
    } else if iterable.kind.Name? {
      NameHalts(iterable, d, w, o, env, false, how);
    } else {
      EvalHalts(iterable, d, w, o, env, false, how);
    }
  }

  lemma {:induction false} MissedEach(v: string, at: nat, i: nat, body: Block, d: Departure, w: World, o: Oracle, env: Env, how: How, fuel: nat)
    requires env.typed <= env.ints && StopsAt(ExecEach(v, at, i, body, w, o, Watching(env, false), fuel), d) && Side(Alert(body, env), d, o, how, env)
    ensures Ends(ExecEach(v, at, i, body, w, o, Rules(how, env, false), fuel), d, Out(ExecEach(v, at, i, body, w, o, Watching(env, false),
      fuel)), how, env)
    decreases fuel, BlockSize(body), 2
  {
    hide ExecBlock, Alert, Items, QuietRuntime;
    var u := Bound(v, Items(w.heap, at)[i], w, Watching(env, false));
    assert u.Ok? && Bound(v, Items(w.heap, at)[i], w, Rules(how, env, false)) == u;
    var w1 := Bind(w, v, u.value);
    WatchedRun(body, w1, o, env, how, fuel);
    var y := ExecBlock(body, w1, o, Watching(env, false), fuel);
    if StopsAt(y, d) { MissedRun(body, d, w1, o, env, how, fuel); }
    else if PassOf(y).Again? && fuel > 0 { MissedEach(v, at, i + 1, body, d, PassOf(y).world, o, env, how, fuel - 1); }
  }

  // ----------------------------------------------------- bare names, form by form

  /** An unassigned boxed name on its own: in which statements compiled code stops, where
      Python always does, and what it does instead in the others. */
  lemma BareNames(x: string, y: string, w: World, o: Oracle, env: Env, fuel: nat)
    requires Lookup(x, w, env).None? && x !in env.typed
    ensures var e, r := AsExpr(Name(x)), Rules(Compiled, env, false);
      && Assigning(e, y, w, o, r) && Returning(e, w, o, r) && Printing(e, w, o, r) && Testing(e, w, o, r, fuel) && Looping(e, y, w, o, r, fuel)
  {
    var e, r := AsExpr(Name(x)), Rules(Compiled, env, false);
    assert Bare(e, w, o, r) by { forall raw ensures Eval(e, w, o, r.At(raw)) == Ok(VNull, w) {} }
    hide Eval;
    TestingBare(e, w, o, r, fuel);
    LoopingBare(e, y, w, o, r, fuel);
    PrintingBare(e, w, o, r);
  }

  ghost predicate Bare(e: Expr, w: World, o: Oracle, r: Rules) { e.kind.Name? && forall raw :: Eval(e, w, o, r.At(raw)) == Ok(VNull, w) }

  /** `y = x`: copied on, exactly when `y` is boxed. */
  ghost predicate Assigning(e: Expr, y: string, w: World, o: Oracle, r: Rules) {
    ExecAssign(y, e, w, o, r) == if y in r.env.typed then Stopped(Unassigned, w.out) else Next(Bind(w, y, VNull))
  }

  /** `return x`: given back, exactly when the result is boxed. */
  ghost predicate Returning(e: Expr, w: World, o: Oracle, r: Rules) {
    ExecReturn(e, w, o, r) == if r.env.scalar then Stopped(Unassigned, w.out) else Returned(Some(VNull), w)
  }

  /** `print(x)`: stops. */
  ghost predicate Printing(e: Expr, w: World, o: Oracle, r: Rules) {
    ExecPrint([e], w, o, r) == Stopped(Unassigned, w.out)
  }

  /** `if x: …`, `while x: …`: stop. */
  ghost predicate Testing(e: Expr, w: World, o: Oracle, r: Rules, fuel: nat) {
    && (forall body, elifs, orelse :: ExecStmt(AsStmt(If(e, body, elifs, orelse)), w, o, r, fuel) == Stopped(Unassigned, w.out))
    && (forall body :: ExecStmt(AsStmt(While(e, body)), w, o, r, fuel) == Stopped(Unassigned, w.out))
  }

  /** `for y in x: …`, `for y in range(x): …`: stop. */
  ghost predicate Looping(e: Expr, y: string, w: World, o: Oracle, r: Rules, fuel: nat) {
    forall body: Block ::
      && ExecStmt(AsStmt(ForEach(y, e, body)), w, o, r, fuel) == Stopped(TypeError, w.out)
      && ExecStmt(AsStmt(For(y, AsExpr(Int(0)), e, AsExpr(Int(1)), body, (0, 0))), w, o, r, fuel) == Stopped(Unassigned, w.out)
  }

  lemma TestingBare(e: Expr, w: World, o: Oracle, r: Rules, fuel: nat)
    requires Bare(e, w, o, r)
    ensures Testing(e, w, o, r, fuel)
  {
    hide Eval, TestsRaw;
    assert Eval(e, w, o, r.At(TestsRaw(e, r.env))) == Ok(VNull, w);
    assert Test(e, w, o, r) == Breaks(Unassigned, w.out);
    hide Test;
    forall body ensures ExecStmt(AsStmt(While(e, body)), w, o, r, fuel) == Stopped(Unassigned, w.out) {
      assert ExecWhile(e, body, w, o, r, fuel) == Stopped(Unassigned, w.out);
    }
  }

  lemma LoopingBare(e: Expr, y: string, w: World, o: Oracle, r: Rules, fuel: nat)
    requires Bare(e, w, o, r) && r.how.Compiled? && !r.raw
    ensures Looping(e, y, w, o, r, fuel)
  {
    hide Eval;
    assert Eval(e, w, o, r.At(false)) == Ok(VNull, w);
    assert Numeral(e, w, o, r) == Fail(Unassigned, w.out);
  }

  lemma PrintingBare(e: Expr, w: World, o: Oracle, r: Rules)
    requires Bare(e, w, o, r) && r.how.Compiled?
    ensures Printing(e, w, o, r)
  {
    hide Eval;
    assert Eval(e, w, o, r.At(false)) == Ok(VNull, w);
  }

  /** A bare name assigned, returned or printed: the code stops exactly where the text says
      it is alert; Python always does. */
  lemma AlertExactly(s: Stmt, x: string, w: World, o: Oracle, env: Env, fuel: nat)
    requires Lookup(x, w, env).None? && x !in env.typed
    requires s.kind.Assign? ==> s.kind.value == AsExpr(Name(x))
    requires s.kind.Return? ==> s.kind.result == Some(AsExpr(Name(x)))
    requires s.kind.ExprStmt? ==> s.kind.expr == AsExpr(Call("print", [AsExpr(Name(x))]))
    requires s.kind.Assign? || s.kind.Return? || s.kind.ExprStmt?
    ensures AlertStmt(s, env) <==> ExecStmt(s, w, o, Rules(Compiled, env, false), fuel).Stopped?
    ensures ExecStmt(s, w, o, Rules(Python, env, false), fuel) == Stopped(NameError(x, !env.Owns(x)), w.out)
  {
    hide Eval, PrintEach, EvalAll, Testing, Looping, Scalar, PrintAll;
    BareNames(x, if s.kind.Assign? then s.kind.target else x, w, o, env, fuel);
    if s.kind.ExprStmt? { assert HeedsAll([AsExpr(Name(x))], env); }
    BareReported(s, x, w, o, env, fuel);
  }

  lemma BareReported(s: Stmt, x: string, w: World, o: Oracle, env: Env, fuel: nat)
    requires Lookup(x, w, env).None? && (s.kind.Assign? || s.kind.Return? || s.kind.ExprStmt?)
    requires s.kind.Assign? ==> s.kind.value == AsExpr(Name(x))
    requires s.kind.Return? ==> s.kind.result == Some(AsExpr(Name(x)))
    requires s.kind.ExprStmt? ==> s.kind.expr == AsExpr(Call("print", [AsExpr(Name(x))]))
    ensures ExecStmt(s, w, o, Rules(Python, env, false), fuel) == Stopped(NameError(x, !env.Owns(x)), w.out)
  {
    var e, p := AsExpr(Name(x)), Rules(Python, env, false);
    forall raw ensures Eval(e, w, o, p.At(raw)) == Fail(NameError(x, !env.Owns(x)), w.out) {}
    hide Eval, EvalAll, Scalar;
    if s.kind.ExprStmt? { OneArgument([e], "print", w, o, p); }
  }

  /** `xs.append(x)` appends null; `len(x)`, `-x`, `x + y` and `x < y` stop; `x == y` answers
      exactly when `y` is neither number nor truth value nor unassigned. */
  lemma BareOperands(x: string, l: Expr, at: nat, y: Value, op: BinOp, w: World, o: Oracle, env: Env)
    requires Lookup(x, w, env).None? && x !in env.typed && Eval(l, w, o, Rules(Compiled, env, false)) == Ok(VList(at), w) && "len" !in env.sigs
    ensures var e, r := AsExpr(Name(x)), Rules(Compiled, env, false);
      && Eval(AsExpr(MethodCall(l, "append", [e])), w, o, r) == Appended(VList(at), VNull, w)
      && Eval(AsExpr(Call("len", [e])), w, o, r) == Fail(TypeError, w.out)
      && Eval(AsExpr(Unary(Neg, e)), w, o, r) == Fail(Unassigned, w.out)
      && (op !in {Eq, Ne} ==> Binary(op, VNull, y, w, o, r) == Fail(Unassigned, w.out))
      && (op in {Eq, Ne} ==> (Binary(op, VNull, y, w, o, r).Ok? <==> y.VNone? || y.VList?))
  {
    var e, r := AsExpr(Name(x)), Rules(Compiled, env, false);
    assert Eval(e, w, o, r) == Ok(VNull, w) && r.At(false) == r;
    OneArgument([e], "append", w, o, r);
    OneArgument([e], "len", w, o, r);
    assert Eval(AsExpr(Unary(Neg, e)), w, o, r) == Fail(Unassigned, w.out);
    NullBinary(op, y, w, o, r);
    hide Eval, EvalAll, Binary;
    EvalOfAppend(l, e, VList(at), VNull, w, o, r);
    EvalOfLen(e, w, o, r);
  }

  lemma NullBinary(op: BinOp, y: Value, w: World, o: Oracle, r: Rules)
    requires r.how.Compiled?
    ensures op !in {Eq, Ne} ==> Binary(op, VNull, y, w, o, r) == Fail(Unassigned, w.out)
    ensures op in {Eq, Ne} ==> (Binary(op, VNull, y, w, o, r).Ok? <==> y.VNone? || y.VList?)
  {
    hide Arithmetic;
  }

  lemma EvalOfAppend(l: Expr, e: Expr, list: Value, v: Value, w: World, o: Oracle, r: Rules)
    requires r.At(false) == r && r.how.Compiled? && Eval(l, w, o, r) == Ok(list, w) && EvalAll([e], [], "append", w, o, r) == Oks([v], w)
    ensures Eval(AsExpr(MethodCall(l, "append", [e])), w, o, r) == Appended(list, v, w)
  {
    hide EvalAll, Appended;
    assert ConstInt(AsExpr(MethodCall(l, "append", [e]))).None?;
  }

  lemma EvalOfLen(e: Expr, w: World, o: Oracle, r: Rules)
    requires "len" !in r.env.sigs && EvalAll([e], [], "len", w, o, r) == Oks([VNull], w)
    ensures Eval(AsExpr(Call("len", [e])), w, o, r) == Fail(TypeError, w.out)
  {
    hide EvalAll;
    assert ConstInt(AsExpr(Call("len", [e]))).None?;
  }
}
