/** What the type checker's facts and findings (src/check.rs) are worth when the program runs:
    without loops its facts are true and a `len` it objects to fails; with loops they need
    not be.  And which pairs of types it objects to. */
module Findings {
  import opened Syntax
  import opened Values
  import opened SlotChoice
  import opened PythonSemantics
  import opened Gate
  import opened FreeRuns

  // ------------------------------------------------------------ what a fact says

  /** A value the fact is true of.  A truth value may stand for a whole number; texts,
      decimals, tuples, dicts and sets are not among the values of this model. */
  predicate Describes(t: Ty, v: Value) {
    match t
    case TyInt => v.VInt? || v.VBool?
    case TyBool => v.VBool?
    case TyNone => v.VNone?
    case TyList(_) => v.VList?
    case TyDyn => true
    case TyFunc => true
    case _ => false
  }

  /** The facts are true of the names that have values. */
  ghost predicate TrueOf(env: Facts, w: World, r: Rules) {
    forall x :: x in env && Lookup(x, w, r.env).Some? ==> Describes(env[x], Lookup(x, w, r.env).value)
  }

  /** What calls give back: what the signature promises, or what the built-in makes. */
  predicate Promised(f: string, sigs: map<string, Surface>, v: Value) {
    if f in sigs then Describes(sigs[f].ret, v)
    else if f == "int" then v.VInt?
    else if f == "bool" then v.VBool?
    else if f == "print" then v.VNone?
    else if f == "sorted" || f == "list" || f == "+" then v.VList?
    else f !in {"input", "str", "float", "read_temperature", "set", "tuple", "dict"}
  }

  ghost predicate Honest(o: Oracle, sigs: map<string, Surface>) {
    forall q: Query :: o(q).Gives? ==> Promised(q.callee, sigs, o(q).value)
  }

  /** Both sides know the same functions, and `+` is not one of them. */
  ghost predicate SameFunctions(sigs: map<string, Surface>, r: Rules) {
    "+" !in sigs && forall f :: f in sigs <==> f in r.env.sigs
  }

  ghost predicate Setting(o: Oracle, sigs: map<string, Surface>, r: Rules) {
    !r.how.Compiled? && Honest(o, sigs) && SameFunctions(sigs, r)
  }

  // ------------------------------------------------------------- expressions

  lemma OperatorTrue(op: BinOp, s: Ty, t: Ty, line: nat, a: Value, b: Value, w: World, o: Oracle, sigs: map<string, Surface>, r: Rules)
    requires Setting(o, sigs, r) && Describes(s, a) && Describes(t, b)
    ensures var v := Binary(op, a, b, w, o, r); v.Ok? ==> Describes(Operator(op, s, t, line).ty, v.value)
  {
    hide PythonSemantics.Arithmetic, Narrow;
    assert Honest(o, sigs);
  }

  /** The type of an expression is true of its value. */
  lemma {:induction false} TypeTrue(e: Expr, env: Facts, sigs: map<string, Surface>, w: World, o: Oracle, r: Rules)
    requires Setting(o, sigs, r) && TrueOf(env, w, r)
    ensures var v := Eval(e, w, o, r); v.Ok? ==> Describes(Typed(e, env, sigs).ty, v.value)
    decreases e
  {
    hide TrueOf, Setting, TypedAll, EvalAll, Operator, Binary, Test, Narrow, Negate, Sent;
    match e.kind {
      case Name(x) => NameTrue(x, env, sigs, w, o, r);
      case Bin(op, a, b) =>
        TypeTrue(a, env, sigs, w, o, r);
        var x := Eval(a, w, o, r);
        if x.Ok? {
          SameFacts(env, w, x.world, r);
          TypeTrue(b, env, sigs, x.world, o, r);
          var y := Eval(b, x.world, o, r);
          if y.Ok? {
            OperatorTrue(op, Typed(a, env, sigs).ty, Typed(b, env, sigs).ty, e.line, x.value, y.value, y.world, o, sigs, r);
          }
        }
      case Call(f, args) => CallTrue(f, EvalAll(args, RawParams(f, r.env.sigs), f, w, o, r), sigs, o, r);
      case _ =>
    }
  }

  lemma NameTrue(x: string, env: Facts, sigs: map<string, Surface>, w: World, o: Oracle, r: Rules)
    requires Setting(o, sigs, r) && TrueOf(env, w, r)
    ensures var v := Read(x, w, r);
      v.Ok? ==> Describes(if x in env then env[x] else if x in sigs then TyFunc else TyDyn, v.value)
  {
  }

  lemma SameFacts(env: Facts, w: World, u: World, r: Rules)
    requires TrueOf(env, w, r) && u.vars == w.vars && u.globals == w.globals
    ensures TrueOf(env, u, r)
  {
  }

  lemma CallTrue(f: string, args: EvaluatedAll, sigs: map<string, Surface>, o: Oracle, r: Rules)
    requires Setting(o, sigs, r)
    ensures var v := Called(f, args, o, r);
      v.Ok? ==> Describes(if f in sigs then sigs[f].ret else if f == "len" then TyInt else Builtin(f), v.value)
  {
  }

  // ----------------------------------------------------------- len of one value

  /** A finding about `len`. */
  predicate LenBlamed(found: seq<Mistake>) { exists i :: 0 <= i < |found| && found[i].code == LenOfSingleValue }

  lemma BlamedWhere(a: seq<Mistake>, b: seq<Mistake>)
    ensures LenBlamed(a + b) <==> LenBlamed(a) || LenBlamed(b)
  {
    if LenBlamed(a) {
      var i :| 0 <= i < |a| && a[i].code == LenOfSingleValue;
      assert (a + b)[i] == a[i];
    }
    if LenBlamed(b) {
      var i :| 0 <= i < |b| && b[i].code == LenOfSingleValue;
      assert (a + b)[|a| + i] == b[i];
    }
  }

  lemma OperatorBlameless(op: BinOp, a: Ty, b: Ty, line: nat)
    ensures !LenBlamed(Operator(op, a, b, line).found)
  {
  }

  /** Where the checker objects to a `len`, evaluation stops with an error. */
  lemma {:induction false} LenFails(e: Expr, env: Facts, sigs: map<string, Surface>, w: World, o: Oracle, r: Rules)
    requires Setting(o, sigs, r) && TrueOf(env, w, r) && LenBlamed(Typed(e, env, sigs).found)
    ensures Eval(e, w, o, r).Fail?
    decreases e, 1
  {
    hide TrueOf, Setting, TypedAll, EvalAll, Operator, Binary, Narrow, Negate, Sent, LenBlamed, Called;
    NothingBlamed();
    if ConstInt(e).Some? { ConstBlameless(e, env, sigs); }
    match e.kind {
      case Unary(op, i) =>
        if op == Not { TestFails(i, env, sigs, w, o, r); } else { LenFails(i, env, sigs, w, o, r); }
      case Bin(op, a, b) =>
        var (s, t) := (Typed(a, env, sigs), Typed(b, env, sigs));
        OperatorBlameless(op, s.ty, t.ty, e.line);
        BlamedWhere(s.found + t.found, Operator(op, s.ty, t.ty, e.line).found);
        BlamedWhere(s.found, t.found);
        var x := Eval(a, w, o, r);
        if LenBlamed(s.found) {
          LenFails(a, env, sigs, w, o, r);
        } else if x.Ok? {
          SameFacts(env, w, x.world, r);
          LenFails(b, env, sigs, x.world, o, r);
        }
      case Call(f, args) => CallFails(f, args, e.line, env, sigs, w, o, r);
      case MethodCall(obj, m, args) =>
        BlamedWhere(Typed(obj, env, sigs).found, TypedAll(args, [], e.line, env, sigs));
        var l := Eval(obj, w, o, r.At(false));
        AtTrue(env, w, r, false);
        AtSetting(o, sigs, r, false);
        if LenBlamed(Typed(obj, env, sigs).found) {
          LenFails(obj, env, sigs, w, o, r.At(false));
        } else if l.Ok? {
          SameFacts(env, w, l.world, r);
          ArgsFail(args, [], [], m, e.line, env, sigs, l.world, o, r);
          SentFails(l.value, m, |args|, EvalAll(args, [], m, l.world, o, r), w, l.world, o, sigs, r);
        }
      case _ =>
    }
  }

  lemma NothingBlamed()
    ensures !LenBlamed([])
    ensures forall line: nat :: !LenBlamed([Mistake(CallingAValue, line)]) && !LenBlamed([Mistake(ArgumentContradictsSignature, line)])
  {
  }

  lemma {:induction false} ConstBlameless(e: Expr, env: Facts, sigs: map<string, Surface>)
    requires ConstInt(e).Some?
    ensures Typed(e, env, sigs).found == []
    decreases e
  {
    if e.kind.Unary? { ConstBlameless(e.kind.operand, env, sigs); }
  }

  lemma AtTrue(env: Facts, w: World, r: Rules, raw: bool)
    requires TrueOf(env, w, r)
    ensures TrueOf(env, w, r.At(raw))
  {
  }

  lemma AtSetting(o: Oracle, sigs: map<string, Surface>, r: Rules, raw: bool)
    requires Setting(o, sigs, r)
    ensures Setting(o, sigs, r.At(raw))
  {
  }

  lemma SentFails(l: Value, m: string, n: nat, args: EvaluatedAll, before: World, w: World, o: Oracle, sigs: map<string, Surface>, r: Rules)
    requires Setting(o, sigs, r) && args.Fails?
    ensures Sent(l, m, n, args, before, w, o, r).Fail?
  {
  }

  lemma {:induction false} TestFails(e: Expr, env: Facts, sigs: map<string, Surface>, w: World, o: Oracle, r: Rules)
    requires Setting(o, sigs, r) && TrueOf(env, w, r) && LenBlamed(Typed(e, env, sigs).found)
    ensures Test(e, w, o, r).Breaks?
    decreases e, 2
  {
    hide TrueOf, Setting, Eval, LenBlamed;
    if e.kind.Unary? && e.kind.op == Not {
      TestFails(e.kind.operand, env, sigs, w, o, r);
    } else {
      AtTrue(env, w, r, TestsRaw(e, r.env));
      AtSetting(o, sigs, r, TestsRaw(e, r.env));
      LenFails(e, env, sigs, w, o, r.At(TestsRaw(e, r.env)));
    }
  }

  lemma {:induction false} CallFails(f: string, args: seq<Expr>, line: nat, env: Facts, sigs: map<string, Surface>, w: World, o: Oracle, r: Rules)
    requires Setting(o, sigs, r) && TrueOf(env, w, r)
    requires var e := Expr(Call(f, args), line, (0, 0), (0, 0)); LenBlamed(Typed(e, env, sigs).found)
    ensures Called(f, EvalAll(args, RawParams(f, r.env.sigs), f, w, o, r), o, r).Fail?
    decreases args, 3
  {
    hide TrueOf, TypedAll, LenBlamed, EvalAll, Ask, Eval;
    NothingBlamed();
    var all := EvalAll(args, RawParams(f, r.env.sigs), f, w, o, r);
    if HoldsValue(f, env) {
      BlamedWhere([Mistake(CallingAValue, line)], TypedAll(args, [], line, env, sigs));
      ArgsFail(args, [], RawParams(f, r.env.sigs), f, line, env, sigs, w, o, r);
    } else if f in sigs {
      ArgsFail(args, sigs[f].params, RawParams(f, r.env.sigs), f, line, env, sigs, w, o, r);
    } else if f == "len" {
      if |args| == 1 { LenOfOne(args, line, env, sigs, w, o, r); }
    } else {
      ArgsFail(args, [], RawParams(f, r.env.sigs), f, line, env, sigs, w, o, r);
    }
  }

  lemma {:induction false} LenOfOne(args: seq<Expr>, line: nat, env: Facts, sigs: map<string, Surface>, w: World, o: Oracle, r: Rules)
    requires Setting(o, sigs, r) && TrueOf(env, w, r) && |args| == 1 && "len" !in sigs
    requires var x := Typed(args[0], env, sigs);
      LenBlamed(x.found + (if Single(x.ty) then [Mistake(LenOfSingleValue, line)] else []))
    ensures Called("len", EvalAll(args, [], "len", w, o, r), o, r).Fail?
    decreases args, 0
  {
    hide TrueOf, LenBlamed, Eval;
    var x := Typed(args[0], env, sigs);
    NothingBlamed();
    BlamedWhere(x.found, if Single(x.ty) then [Mistake(LenOfSingleValue, line)] else []);
    AtTrue(env, w, r, false);
    AtSetting(o, sigs, r, false);
    TypeTrue(args[0], env, sigs, w, o, r.At(false));
    assert args[1..] == [];
    if LenBlamed(x.found) { LenFails(args[0], env, sigs, w, o, r.At(false)); }
  }

  lemma {:induction false} ArgsFail(es: seq<Expr>, wants: seq<Ty>, raws: seq<bool>, f: string, line: nat, env: Facts,
                                    sigs: map<string, Surface>, w: World, o: Oracle, r: Rules)
    requires Setting(o, sigs, r) && TrueOf(env, w, r) && LenBlamed(TypedAll(es, wants, line, env, sigs))
    ensures EvalAll(es, raws, f, w, o, r).Fails?
    decreases es, 2
  {
    hide TrueOf, Setting, LenBlamed, Eval, Typed;
    NothingBlamed();
    if es != [] {
      var x := Typed(es[0], env, sigs);
      var more := if wants != [] && Contradicts(x.ty, wants[0]) then [Mistake(ArgumentContradictsSignature, line)] else [];
      var rest := TypedAll(es[1..], if wants == [] then [] else wants[1..], line, env, sigs);
      BlamedWhere(x.found + more, rest);
      BlamedWhere(x.found, more);
      var raw := raws != [] && raws[0];
      var r1 := r.At(raw && Scalar(es[0], r.env));
      AtTrue(env, w, r, raw && Scalar(es[0], r.env));
      AtSetting(o, sigs, r, raw && Scalar(es[0], r.env));
      if LenBlamed(x.found) {
        LenFails(es[0], env, sigs, w, o, r1);
      } else {
        var s := Slot(es[0], raw, f, w, o, r);
        if s.Ok? {
          SameFacts(env, w, s.world, r);
          ArgsFail(es[1..], if wants == [] then [] else wants[1..], if raws == [] then [] else raws[1..], f, line, env, sigs, s.world, o, r);
        }
      }
    }
  }

  // ---------------------------------------------------------------- statements

  /** Names announced `int` are watched, and everything bound is the function's own. */
  ghost predicate Watches(b: Block, r: Rules) {
    r.how.Watched? && Announced(b) <= r.env.ints && forall x :: x in Assigned(b) ==> r.env.Owns(x)
  }

  /** The names a body announces as `int`. */
  function Announced(b: Block): set<string>
    decreases BlockSize(b), 1
  {
    if b == [] then {} else AnnouncedBy(b[0]) + Announced(b[1..])
  }

  function AnnouncedBy(s: Stmt): set<string>
    decreases StmtSize(s), 0
  {
    match s.kind
    case AnnAssign(x, _, isInt) => if isInt then {x} else {}
    case If(_, body, elifs, orelse) => Announced(body) + AnnouncedInArms(elifs) + Announced(ElseOf(orelse))
    case _ => {}
  }

  function AnnouncedInArms(elifs: seq<Arm>): set<string>
    decreases ArmsSize(elifs), 1
  {
    if elifs == [] then {} else Announced(elifs[0].body) + AnnouncedInArms(elifs[1..])
  }

  lemma BindTrue(env: Facts, x: string, t: Ty, v: Value, w: World, r: Rules)
    requires TrueOf(env, w, r) && r.env.Owns(x) && Describes(t, v)
    ensures TrueOf(env[x := t], Bind(w, x, v), r)
  {
  }

  lemma AssignTrue(x: string, e: Expr, want: Ty, env: Facts, sigs: map<string, Surface>, w: World, o: Oracle, r: Rules)
    requires Setting(o, sigs, r) && TrueOf(env, w, r) && r.how.Watched? && r.env.Owns(x)
    requires want == Typed(e, env, sigs).ty || want == TyDyn || (want == TyInt && x in r.env.ints)
    ensures var y := ExecAssign(x, e, w, o, r); y.Next? ==> TrueOf(env[x := want], y.world, r)
  {
    hide Eval, TrueOf, Setting, Typed;
    var raw := x in r.env.typed && Scalar(e, r.env);
    AtTrue(env, w, r, raw);
    AtSetting(o, sigs, r, raw);
    TypeTrue(e, env, sigs, w, o, r.At(raw));
    var v := Eval(e, w, o, r.At(raw));
    if v.Ok? {
      SameFacts(env, w, v.world, r);
      if Bound(x, v.value, v.world, r).Ok? { BindTrue(env, x, want, v.value, v.world, r); }
    }
  }

  lemma ExprSame(e: Expr, w: World, o: Oracle, r: Rules)
    requires r.how.Watched?
    ensures var y := ExecExpr(e, w, o, r); y.Next? ==> y.world.vars == w.vars && y.world.globals == w.globals
  {
    hide Eval, EvalAll, PrintEach, PrintValues;
  }

  lemma JoinTrue(ways: seq<Facts>, k: nat, w: World, r: Rules)
    requires k < |ways| && TrueOf(ways[k], w, r)
    ensures TrueOf(Joined(ways), w, r)
  {
  }

  /** Without loops the checker's facts are true of every run, as long as annotations are. */
  lemma {:induction false} FactsTrue(b: Block, env: Facts, sigs: map<string, Surface>, ret: Ty, w: World, o: Oracle, r: Rules, fuel: nat)
    requires NoLoops(b) && Setting(o, sigs, r) && Watches(b, r) && TrueOf(env, w, r)
    ensures var y := ExecBlock(b, w, o, r, fuel); y.Next? ==> TrueOf(Checked(b, env, sigs, ret).env, y.world, r)
    decreases BlockSize(b), 1
  {
    if b != [] {
      hide TrueOf, Setting, ExecStmt, CheckedStmt, NoLoopsIn, AssignedBy, AnnouncedBy;
      StmtFactsTrue(b[0], env, sigs, ret, w, o, r, fuel);
      var y := ExecStmt(b[0], w, o, r, fuel);
      if y.Next? { FactsTrue(b[1..], CheckedStmt(b[0], env, sigs, ret).env, sigs, ret, y.world, o, r, fuel); }
    }
  }

  lemma {:induction false} StmtFactsTrue(s: Stmt, env: Facts, sigs: map<string, Surface>, ret: Ty, w: World, o: Oracle, r: Rules, fuel: nat)
    requires NoLoopsIn(s) && Setting(o, sigs, r) && TrueOf(env, w, r) && r.how.Watched?
    requires AnnouncedBy(s) <= r.env.ints && forall x :: x in AssignedBy(s) ==> r.env.Owns(x)
    ensures var y := ExecStmt(s, w, o, r, fuel); y.Next? ==> TrueOf(CheckedStmt(s, env, sigs, ret).env, y.world, r)
    decreases StmtSize(s), 0
  {
    hide TrueOf, Setting, ExecAssign, ExecExpr, Slot, Test, Typed, Checked, CheckedArms, Joined, NoLoops, NoLoopsInArms,
      Assigned, AssignedInArms, Announced, AnnouncedInArms, ExecBlock, ExecElse;
    match s.kind {
      case Assign(x, e) => AssignTrue(x, e, Typed(e, env, sigs).ty, env, sigs, w, o, r);
      case AnnAssign(x, e, isInt) => AssignTrue(x, e, Annotated(isInt), env, sigs, w, o, r);
      case ExprStmt(e) =>
        ExprSame(e, w, o, r);
        var y := ExecExpr(e, w, o, r);
        if y.Next? { SameFacts(env, w, y.world, r); }
      case If(c, body, elifs, orelse) =>
        var t := Test(c, w, o, r);
        if t.Holds? {
          SameFacts(env, w, t.world, r);
          var last := Checked(ElseOf(orelse), env, sigs, ret).env;
          var ways := [Checked(body, env, sigs, ret).env] + CheckedArms(elifs, env, sigs, ret).0 + [last];
          if t.b {
            FactsTrue(body, env, sigs, ret, t.world, o, r, fuel);
            var y := ExecBlock(body, t.world, o, r, fuel);
            if y.Next? { JoinTrue(ways, 0, y.world, r); }
          } else {
            var k := ElseFactsTrue(elifs, ElseOf(orelse), env, sigs, ret, t.world, o, r, fuel);
            var y := ExecElse(elifs, ElseOf(orelse), t.world, o, r, fuel);
            if y.Next? {
              assert ways[k + 1] == (CheckedArms(elifs, env, sigs, ret).0 + [last])[k];
              JoinTrue(ways, k + 1, y.world, r);
            }
          }
        }
      case Def(f, _, _) => NamedTrue(env, f, w, r);
      case _ =>
    }
  }

  lemma NamedTrue(env: Facts, f: string, w: World, r: Rules)
    requires TrueOf(env, w, r)
    ensures TrueOf(env[f := TyFunc], w, r)
  {
  }

  /** The branch that ran is one of those that were joined. */
  lemma {:induction false} ElseFactsTrue(elifs: seq<Arm>, orelse: Block, env: Facts, sigs: map<string, Surface>, ret: Ty, w: World,
                                         o: Oracle, r: Rules, fuel: nat) returns (k: nat)
    requires NoLoopsInArms(elifs) && NoLoops(orelse) && Setting(o, sigs, r) && TrueOf(env, w, r) && r.how.Watched?
    requires AnnouncedInArms(elifs) + Announced(orelse) <= r.env.ints
    requires forall x :: x in AssignedInArms(elifs) + Assigned(orelse) ==> r.env.Owns(x)
    ensures var ways := CheckedArms(elifs, env, sigs, ret).0 + [Checked(orelse, env, sigs, ret).env];
      var y := ExecElse(elifs, orelse, w, o, r, fuel);
      k < |ways| && (y.Next? ==> TrueOf(ways[k], y.world, r))
    decreases ArmsSize(elifs) + BlockSize(orelse), 2
  {
    hide TrueOf, Setting, Test, Checked, Typed, NoLoops, Assigned, Announced, ExecBlock;
    if elifs == [] {
      FactsTrue(orelse, env, sigs, ret, w, o, r, fuel);
      k := 0;
    } else {
      var t := Test(elifs[0].cond, w, o, r);
      k := 0;
      if t.Holds? {
        SameFacts(env, w, t.world, r);
        if t.b {
          FactsTrue(elifs[0].body, env, sigs, ret, t.world, o, r, fuel);
        } else {
          var i := ElseFactsTrue(elifs[1..], orelse, env, sigs, ret, t.world, o, r, fuel);
          k := i + 1;
        }
      }
    }
  }
}
