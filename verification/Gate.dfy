/** The type checker whose findings are compile errors (src/check.rs): which function bodies
    never reach the code generator. */
module Gate {
  import opened Syntax
  import MissingReturn

  /** `TyDyn` is "don't know", and silent. */
  datatype Ty = TyInt | TyFloat | TyBool | TyStr | TyNone | TyList(elem: Ty) | TyTuple | TyDict | TySet | TyFunc | TyDyn

  predicate Numeric(t: Ty) { t in {TyInt, TyFloat, TyBool} }

  /** What is promised at a `def`. */
  datatype Surface = Surface(params: seq<Ty>, ret: Ty)

  datatype Code =
    | StrPlusNumber
    | StrInArithmetic
    | CallingAValue
    | LenOfSingleValue
    | ForOverSingleValue
    | AnnotationContradicted
    | ReturnContradictsSignature
    | ArgumentContradictsSignature
    | ComparingTextWithNumber

  datatype Mistake = Mistake(code: Code, line: nat)

  type Facts = map<string, Ty>

  datatype Judged = Judged(ty: Ty, found: seq<Mistake>)

  function Annotated(isInt: bool): Ty { if isInt then TyInt else TyDyn }

  /** What is known of the result of an operator, and what is wrong with its operands. */
  function Operator(op: BinOp, a: Ty, b: Ty, line: nat): Judged {
    match op
    case Add =>
      if a.TyStr? && b.TyStr? then Judged(TyStr, [])
      else if (a.TyStr? && Numeric(b)) || (b.TyStr? && Numeric(a)) then Judged(TyDyn, [Mistake(StrPlusNumber, line)])
      else if Numeric(a) && Numeric(b) then Judged(Join(a, b), [])
      else if a.TyList? && b.TyList? then Judged(a, []) else Judged(TyDyn, [])
    case Mul =>
      if (a.TyStr? && Numeric(b)) || (b.TyStr? && Numeric(a)) then Judged(TyStr, [])
      else if Numeric(a) && Numeric(b) then Judged(Join(a, b), []) else Judged(TyDyn, [])
    case Eq => Judged(TyBool, [])
    case Ne => Judged(TyBool, [])
    case Sub => Arithmetic(a, b, line)
    case FloorDiv => Arithmetic(a, b, line)
    case Mod => Arithmetic(a, b, line)
    case _ =>
      Judged(TyBool, if (a.TyStr? && Numeric(b)) || (b.TyStr? && Numeric(a)) then [Mistake(ComparingTextWithNumber, line)] else [])
  }

  function Arithmetic(a: Ty, b: Ty, line: nat): Judged {
    if a.TyStr? || b.TyStr? then Judged(TyDyn, [Mistake(StrInArithmetic, line)])
    else Judged(if Numeric(a) && Numeric(b) then Join(a, b) else TyDyn, [])
  }

  function Join(a: Ty, b: Ty): Ty { if a.TyFloat? || b.TyFloat? then TyFloat else TyInt }

  function Builtin(f: string): Ty {
    if f == "input" || f == "str" then TyStr
    else if f == "int" then TyInt
    else if f == "float" || f == "read_temperature" then TyFloat
    else if f == "bool" then TyBool
    else if f == "sorted" || f == "list" then TyList(TyDyn)
    else if f == "set" then TySet
    else if f == "tuple" then TyTuple
    else if f == "dict" then TyDict
    else if f == "print" then TyNone
    else TyDyn
  }

  /** An argument contradicts the parameter's annotation; a truth value may stand for a whole
      number, and a whole number for a decimal one. */
  predicate Contradicts(given: Ty, want: Ty) {
    !want.TyDyn? && !given.TyDyn? && given != want && !(given.TyInt? && want.TyFloat?) && !(given.TyBool? && want.TyInt?)
  }

  /** A name that holds a value, used as a function. */
  predicate HoldsValue(f: string, env: Facts) { f in env && !env[f].TyFunc? && !env[f].TyDyn? }

  predicate Single(t: Ty) { t in {TyInt, TyFloat, TyBool, TyNone} }

  function Typed(e: Expr, env: Facts, sigs: map<string, Surface>): Judged
    decreases e, 0
  {
    match e.kind
    case Int(_) => Judged(TyInt, [])
    case Bool(_) => Judged(TyBool, [])
    case Name(x) => Judged(if x in env then env[x] else if x in sigs then TyFunc else TyDyn, [])
    case Unary(_, i) => Judged(TyDyn, Typed(i, env, sigs).found)
    case Bin(op, a, b) =>
      var (x, y) := (Typed(a, env, sigs), Typed(b, env, sigs));
      var z := Operator(op, x.ty, y.ty, e.line);
      Judged(z.ty, x.found + y.found + z.found)
    case Call(f, args) =>
      if HoldsValue(f, env) then Judged(TyDyn, [Mistake(CallingAValue, e.line)] + TypedAll(args, [], e.line, env, sigs))
      else if f in sigs then Judged(sigs[f].ret, TypedAll(args, sigs[f].params, e.line, env, sigs))
      else if f == "len" then
        Judged(TyInt, if args == [] then [] else
          var x := Typed(args[0], env, sigs);
          x.found + (if Single(x.ty) then [Mistake(LenOfSingleValue, e.line)] else []))
      else Judged(Builtin(f), TypedAll(args, [], e.line, env, sigs))
    case MethodCall(obj, _, args) => Judged(TyDyn, Typed(obj, env, sigs).found + TypedAll(args, [], e.line, env, sigs))
  }

  /** The findings in arguments, against what the parameters want. */
  function TypedAll(es: seq<Expr>, wants: seq<Ty>, line: nat, env: Facts, sigs: map<string, Surface>): seq<Mistake>
    decreases es, 1
  {
    if es == [] then []
    else
      var x := Typed(es[0], env, sigs);
      x.found + (if wants != [] && Contradicts(x.ty, wants[0]) then [Mistake(ArgumentContradictsSignature, line)] else [])
      + TypedAll(es[1..], if wants == [] then [] else wants[1..], line, env, sigs)
  }

  /** What is known after some statements, and what was found in them. */
  datatype Walk = Walk(env: Facts, found: seq<Mistake>)

  /** What the ways through a branch agree on. */
  function Joined(ways: seq<Facts>): Facts
    requires ways != []
  {
    map x | x in ways[0] :: if forall k :: 0 <= k < |ways| ==> x in ways[k] && ways[k][x] == ways[0][x] then ways[0][x] else TyDyn
  }

  /** A loop's body may not run: what it changes is not known after it. */
  function AfterLoop(before: Facts, after: Facts): Facts { map x | x in after :: if x in before && before[x] != after[x] then TyDyn else after[x] }

  /** What a loop over a value of this type binds; over a single value it is a mistake. */
  function ItemOf(t: Ty, line: nat): Judged {
    if t.TyList? then Judged(t.elem, [])
    else if t.TyStr? then Judged(TyStr, [])
    else Judged(TyDyn, if Single(t) then [Mistake(ForOverSingleValue, line)] else [])
  }

  function Checked(b: Block, env: Facts, sigs: map<string, Surface>, ret: Ty): Walk
    decreases BlockSize(b), 1
  {
    if b == [] then Walk(env, [])
    else
      var first := CheckedStmt(b[0], env, sigs, ret);
      var rest := Checked(b[1..], first.env, sigs, ret);
      Walk(rest.env, first.found + rest.found)
  }

  function CheckedStmt(s: Stmt, env: Facts, sigs: map<string, Surface>, ret: Ty): Walk
    decreases StmtSize(s), 0
  {
    match s.kind
    case Assign(x, e) =>
      var v := Typed(e, env, sigs);
      Walk(env[x := v.ty], v.found)
    case AnnAssign(x, e, isInt) =>
      var v, want := Typed(e, env, sigs), Annotated(isInt);
      Walk(env[x := want], v.found + (if !want.TyDyn? && !v.ty.TyDyn? && want != v.ty then [Mistake(AnnotationContradicted, s.line)] else []))
    case ExprStmt(e) => Walk(env, Typed(e, env, sigs).found)
    case If(c, body, elifs, orelse) =>
      var (first, arms) := (Checked(body, env, sigs, ret), CheckedArms(elifs, env, sigs, ret));
      var last := Checked(ElseOf(orelse), env, sigs, ret);
      Walk(Joined([first.env] + arms.0 + [last.env]), Typed(c, env, sigs).found + first.found + arms.1 + last.found)
    case While(c, body) =>
      var pass := Checked(body, env, sigs, ret);
      Walk(AfterLoop(env, pass.env), Typed(c, env, sigs).found + pass.found)
    case For(x, start, end, step, body, _) =>
      var counting := env[x := TyInt];
      var pass := Checked(body, counting, sigs, ret);
      Walk(AfterLoop(counting, pass.env), Typed(start, env, sigs).found + Typed(end, env, sigs).found + Typed(step, env, sigs).found + pass.found)
    case ForEach(x, iterable, body) =>
      var v := Typed(iterable, env, sigs);
      var item := ItemOf(v.ty, s.line);
      var stepping := env[x := item.ty];
      var pass := Checked(body, stepping, sigs, ret);
      Walk(AfterLoop(stepping, pass.env), v.found + item.found + pass.found)
    case Return(r) =>
      var v := if r.Some? then Typed(r.value, env, sigs) else Judged(TyNone, []);
      Walk(env, v.found + (if Breaks(v.ty, ret) then [Mistake(ReturnContradictsSignature, s.line)] else []))
    case Def(f, _, _) => Walk(env[f := TyFunc], [])
    case _ => Walk(env, [])
  }

  /** A result contradicts the signature. */
  predicate Breaks(given: Ty, want: Ty) { !want.TyDyn? && !given.TyDyn? && given != want && !(given.TyInt? && want.TyFloat?) }

  function CheckedArms(elifs: seq<Arm>, env: Facts, sigs: map<string, Surface>, ret: Ty): (seq<Facts>, seq<Mistake>)
    decreases ArmsSize(elifs), 1
  {
    if elifs == [] then ([], [])
    else
      var (first, rest) := (Checked(elifs[0].body, env, sigs, ret), CheckedArms(elifs[1..], env, sigs, ret));
      ([first.env] + rest.0, Typed(elifs[0].cond, env, sigs).found + first.found + rest.1)
  }

  function Opening(params: seq<Param>): Facts {
    if params == [] then map[] else Opening(params[..|params| - 1])[params[|params| - 1].name := Annotated(params[|params| - 1].isInt)]
  }

  /** Nothing is found in a function: it reaches the code generator. */
  predicate Accepts(params: seq<Param>, returnsInt: bool, body: Block, sigs: map<string, Surface>) {
    Checked(body, Opening(params), sigs, Annotated(returnsInt)).found == [] && !MissingReturn.Owes(body)
  }

  // ------------------------------------------------- the checker as it is written

  class TypeChecker {
    const sigs: map<string, Surface>
    var out: seq<Mistake>

    constructor (sigs: map<string, Surface>)
      ensures this.sigs == sigs && out == []
    {
      this.sigs := sigs;
      out := [];
    }

    method ExprType(e: Expr, env: Facts) returns (ty: Ty)
      modifies this
      ensures ty == Typed(e, env, sigs).ty && out == old(out) + Typed(e, env, sigs).found
      decreases e, 0
    {
      hide Operator, Builtin, Contradicts;
      match e.kind {
        case Int(_) => ty := TyInt;
        case Bool(_) => ty := TyBool;
        case Name(x) => ty := if x in env then env[x] else if x in sigs then TyFunc else TyDyn;
        case Unary(_, i) =>
          var _ := ExprType(i, env);
          ty := TyDyn;
        case Bin(op, a, b) => ty := OperatorType(e, a, b, env);
        case Call(f, args) => ty := CallType(e, f, args, env);
        case MethodCall(obj, _, args) =>
          var _ := ExprType(obj, env);
          Arguments(args, [], e.line, env);
          ty := TyDyn;
      }
    }

    method OperatorType(e: Expr, a: Expr, b: Expr, env: Facts) returns (ty: Ty)
      requires e.kind.Bin? && e.kind.left == a && e.kind.right == b
      modifies this
      ensures ty == Typed(e, env, sigs).ty && out == old(out) + Typed(e, env, sigs).found
      decreases e, 0, 0
    {
      hide Operator;
      ghost var before := out;
      var x := ExprType(a, env);
      var y := ExprType(b, env);
      var z := Operator(e.kind.bop, x, y, e.line);
      Associates(before, Typed(a, env, sigs).found, Typed(b, env, sigs).found);
      Associates(before, Typed(a, env, sigs).found + Typed(b, env, sigs).found, z.found);
      out := out + z.found;
      ty := z.ty;
    }

    method CallType(e: Expr, f: string, args: seq<Expr>, env: Facts) returns (ty: Ty)
      requires e.kind == Call(f, args)
      modifies this
      ensures ty == Typed(e, env, sigs).ty && out == old(out) + Typed(e, env, sigs).found
      decreases args, 2
    {
      hide Builtin, TypedAll;
      if HoldsValue(f, env) {
        out := out + [Mistake(CallingAValue, e.line)];
        Arguments(args, [], e.line, env);
        return TyDyn;
      }
      if f in sigs {
        Arguments(args, sigs[f].params, e.line, env);
        return sigs[f].ret;
      }
      if f == "len" {
        if args != [] {
          var t := ExprType(args[0], env);
          if Single(t) { out := out + [Mistake(LenOfSingleValue, e.line)]; }
        }
        return TyInt;
      }
      Arguments(args, [], e.line, env);
      ty := Builtin(f);
    }

    method Arguments(es: seq<Expr>, wants: seq<Ty>, line: nat, env: Facts)
      modifies this
      ensures out == old(out) + TypedAll(es, wants, line, env, sigs)
      decreases es, 1
    {
      hide Contradicts, TypedAll;
      ghost var before, whole := out, TypedAll(es, wants, line, env, sigs);
      ghost var done: seq<Mistake> := [];
      var i := 0;
      assert es[0..] == es && wants[0..] == wants;
      while i < |es|
        invariant 0 <= i <= |es| && out == before + done
        invariant done + TypedAll(es[i..], if i <= |wants| then wants[i..] else [], line, env, sigs) == whole
      {
        ArgumentStep(es, wants, i, line, env, sigs);
        ghost var found := ArgumentMistakes(es, wants, i, line, env, sigs);
        Associates(done, found, TypedAll(es[i + 1..], if i + 1 <= |wants| then wants[i + 1..] else [], line, env, sigs));
        ArgumentMistake(es[i], if i < |wants| then wants[i..i + 1] else [], line, env);
        Associates(before, done, found);
        done := done + found;
        i := i + 1;
      }
      assert es[i..] == [] && TypedAll([], if i <= |wants| then wants[i..] else [], line, env, sigs) == [] by { NoArguments(line, env, sigs); }
    }

    method ArgumentMistake(e: Expr, want: seq<Ty>, line: nat, env: Facts)
      modifies this
      ensures out == old(out) + ArgumentMistakes([e], want, 0, line, env, sigs)
      decreases e, 1
    {
      hide Contradicts;
      var t := ExprType(e, env);
      if want != [] && Contradicts(t, want[0]) { out := out + [Mistake(ArgumentContradictsSignature, line)]; }
    }

    method BlockTypes(b: Block, env0: Facts, ret: Ty) returns (env: Facts)
      modifies this
      ensures Walk(env, out) == Walk(Checked(b, env0, sigs, ret).env, old(out) + Checked(b, env0, sigs, ret).found)
      decreases BlockSize(b), 1
    {
      hide CheckedStmt;
      env := env0;
      var i := 0;
      assert b[0..] == b;
      while i < |b|
        invariant 0 <= i <= |b| && BlockSize(b[i..]) <= BlockSize(b)
        invariant Checked(b[i..], env, sigs, ret).env == Checked(b, env0, sigs, ret).env
        invariant out + Checked(b[i..], env, sigs, ret).found == old(out) + Checked(b, env0, sigs, ret).found
      {
        BlockStep(b, i, env, sigs, ret);
        env := StmtTypes(b[i], env, ret);
        i := i + 1;
      }
      assert b[i..] == [];
    }

    method StmtTypes(s: Stmt, env0: Facts, ret: Ty) returns (env: Facts)
      modifies this
      ensures Walk(env, out) == Walk(CheckedStmt(s, env0, sigs, ret).env, old(out) + CheckedStmt(s, env0, sigs, ret).found)
      decreases StmtSize(s), 0
    {
      env := env0;
      match s.kind {
        case Assign(x, e) =>
          var t := ExprType(e, env);
          env := env[x := t];
        case AnnAssign(x, e, isInt) => env := AnnotationTypes(s, env);
        case ExprStmt(e) => var _ := ExprType(e, env);
        case If(c, body, elifs, orelse) => env := IfTypes(s, env, ret);
        case While(c, body) => env := WhileTypes(s, env, ret);
        case For(x, start, end, step, body, _) => env := ForTypes(s, env, ret);
        case ForEach(x, iterable, body) => env := ForEachTypes(s, env, ret);
        case Return(r) => ReturnTypes(s, env, ret);
        case Def(f, _, _) => env := env[f := TyFunc];
        case _ =>
      }
    }

    method AnnotationTypes(s: Stmt, env0: Facts) returns (env: Facts)
      requires s.kind.AnnAssign?
      modifies this
      ensures forall ret :: env == CheckedStmt(s, env0, sigs, ret).env && out == old(out) + CheckedStmt(s, env0, sigs, ret).found
    {
      hide Typed;
      var want := Annotated(s.kind.isInt);
      var t := ExprType(s.kind.value, env0);
      if !want.TyDyn? && !t.TyDyn? && want != t { out := out + [Mistake(AnnotationContradicted, s.line)]; }
      env := env0[s.kind.target := want];
    }

    method ReturnTypes(s: Stmt, env: Facts, ret: Ty)
      requires s.kind.Return?
      modifies this
      ensures out == old(out) + CheckedStmt(s, env, sigs, ret).found
    {
      hide Typed, Breaks;
      var t := TyNone;
      if s.kind.result.Some? { t := ExprType(s.kind.result.value, env); }
      if Breaks(t, ret) { out := out + [Mistake(ReturnContradictsSignature, s.line)]; }
    }

    method WhileTypes(s: Stmt, env0: Facts, ret: Ty) returns (env: Facts)
      requires s.kind.While?
      modifies this
      ensures Walk(env, out) == Walk(CheckedStmt(s, env0, sigs, ret).env, old(out) + CheckedStmt(s, env0, sigs, ret).found)
      decreases StmtSize(s) - 1, 9
    {
      hide Typed, Checked, AfterLoop;
      var _ := ExprType(s.kind.cond, env0);
      var after := BlockTypes(s.kind.body, env0, ret);
      env := AfterLoop(env0, after);
    }

    method ForTypes(s: Stmt, env0: Facts, ret: Ty) returns (env: Facts)
      requires s.kind.For?
      modifies this
      ensures Walk(env, out) == Walk(CheckedStmt(s, env0, sigs, ret).env, old(out) + CheckedStmt(s, env0, sigs, ret).found)
      decreases StmtSize(s) - 1, 9
    {
      hide Typed, Checked, AfterLoop;
      var For(x, start, end, step, body, _) := s.kind;
      var _ := ExprType(start, env0);
      var _ := ExprType(end, env0);
      var _ := ExprType(step, env0);
      env := env0[x := TyInt];
      var after := BlockTypes(body, env, ret);
      env := AfterLoop(env, after);
    }

    method ForEachTypes(s: Stmt, env0: Facts, ret: Ty) returns (env: Facts)
      requires s.kind.ForEach?
      modifies this
      ensures Walk(env, out) == Walk(CheckedStmt(s, env0, sigs, ret).env, old(out) + CheckedStmt(s, env0, sigs, ret).found)
      decreases StmtSize(s) - 1, 9
    {
      hide Typed, Checked, AfterLoop, ItemOf;
      var ForEach(x, iterable, body) := s.kind;
      var t := ExprType(iterable, env0);
      var item := ItemOf(t, s.line);
      out := out + item.found;
      env := env0[x := item.ty];
      var after := BlockTypes(body, env, ret);
      env := AfterLoop(env, after);
    }

    method IfTypes(s: Stmt, env0: Facts, ret: Ty) returns (env: Facts)
      requires s.kind.If?
      modifies this
      ensures Walk(env, out) == Walk(CheckedStmt(s, env0, sigs, ret).env, old(out) + CheckedStmt(s, env0, sigs, ret).found)
      decreases StmtSize(s) - 1, 9
    {
      hide Typed, Checked, Joined, CheckedArms;
      var If(c, body, elifs, orelse) := s.kind;
      ghost var before := out;
      var _ := ExprType(c, env0);
      var first := BlockTypes(body, env0, ret);
      var ways := ArmTypes(elifs, env0, ret);
      var last := LastTypes(ElseOf(orelse), env0, ret);
      env := Joined([first] + ways + [last]);
      ghost var x, y := Typed(c, env0, sigs).found, Checked(body, env0, sigs, ret).found;
      ghost var z, u := CheckedArms(elifs, env0, sigs, ret).1, Checked(ElseOf(orelse), env0, sigs, ret).found;
      Associates(before, x, y);
      Associates(before, x + y, z);
      Associates(before, x + y + z, u);
    }

    /** A missing `else` finds nothing. */
    method LastTypes(b: Block, env0: Facts, ret: Ty) returns (env: Facts)
      modifies this
      ensures env == Checked(b, env0, sigs, ret).env && out == old(out) + Checked(b, env0, sigs, ret).found
      decreases BlockSize(b), 4
    {
      if b == [] { return env0; }
      hide Checked;
      env := BlockTypes(b, env0, ret);
    }

    method ArmTypes(elifs: seq<Arm>, env: Facts, ret: Ty) returns (ways: seq<Facts>)
      modifies this
      ensures ways == CheckedArms(elifs, env, sigs, ret).0 && out == old(out) + CheckedArms(elifs, env, sigs, ret).1
      decreases ArmsSize(elifs), 8
    {
      hide Typed, Checked, CheckedArms;
      ghost var before, whole := out, CheckedArms(elifs, env, sigs, ret);
      ghost var done: seq<Mistake> := [];
      ways := [];
      var k := 0;
      assert elifs[0..] == elifs;
      while k < |elifs|
        invariant 0 <= k <= |elifs| && ArmsSize(elifs[k..]) <= ArmsSize(elifs) && out == before + done
        invariant ways + CheckedArms(elifs[k..], env, sigs, ret).0 == whole.0 && done + CheckedArms(elifs[k..], env, sigs, ret).1 == whole.1
      {
        ArmStep(elifs, k, env, sigs, ret);
        ghost var found, rest := ArmMistakes(elifs[k], env, sigs, ret), CheckedArms(elifs[k + 1..], env, sigs, ret);
        Associates(done, found, rest.1);
        var way := ArmType(elifs[k], env, ret);
        Associates(before, done, found);
        Associates(ways, [way], rest.0);
        ways, done := ways + [way], done + found;
        k := k + 1;
      }
      assert elifs[k..] == [] && CheckedArms([], env, sigs, ret) == ([], []) by { NoArms(env, sigs, ret); }
    }

    method ArmType(arm: Arm, env: Facts, ret: Ty) returns (way: Facts)
      modifies this
      ensures way == Checked(arm.body, env, sigs, ret).env && out == old(out) + ArmMistakes(arm, env, sigs, ret)
      decreases BlockSize(arm.body) + 1, 0
    {
      hide Typed, Checked;
      var _ := ExprType(arm.cond, env);
      way := BlockTypes(arm.body, env, ret);
    }
  }

  lemma Associates<T>(a: seq<T>, b: seq<T>, c: seq<T>)
    ensures a + (b + c) == (a + b) + c
  {
  }

  function ArgumentMistakes(es: seq<Expr>, wants: seq<Ty>, i: nat, line: nat, env: Facts, sigs: map<string, Surface>): seq<Mistake>
    requires i < |es|
  {
    var x := Typed(es[i], env, sigs);
    x.found + (if i < |wants| && Contradicts(x.ty, wants[i]) then [Mistake(ArgumentContradictsSignature, line)] else [])
  }

  function ArmMistakes(arm: Arm, env: Facts, sigs: map<string, Surface>, ret: Ty): seq<Mistake> {
    Typed(arm.cond, env, sigs).found + Checked(arm.body, env, sigs, ret).found
  }

  lemma NoArms(env: Facts, sigs: map<string, Surface>, ret: Ty)
    ensures CheckedArms([], env, sigs, ret) == ([], [])
  {
  }

  lemma NoArguments(line: nat, env: Facts, sigs: map<string, Surface>)
    ensures forall wants :: TypedAll([], wants, line, env, sigs) == []
  {
  }

  lemma ArmStep(elifs: seq<Arm>, k: nat, env: Facts, sigs: map<string, Surface>, ret: Ty)
    requires k < |elifs|
    ensures ArmsSize(elifs[k..]) == 1 + BlockSize(elifs[k].body) + ArmsSize(elifs[k + 1..])
    ensures var rest := CheckedArms(elifs[k + 1..], env, sigs, ret);
      CheckedArms(elifs[k..], env, sigs, ret)
      == ([Checked(elifs[k].body, env, sigs, ret).env] + rest.0, ArmMistakes(elifs[k], env, sigs, ret) + rest.1)
  {
    hide Typed, Checked;
    assert elifs[k..][0] == elifs[k] && elifs[k..][1..] == elifs[k + 1..];
  }

  lemma ArgumentStep(es: seq<Expr>, wants: seq<Ty>, i: nat, line: nat, env: Facts, sigs: map<string, Surface>)
    requires i < |es|
    ensures TypedAll(es[i..], if i <= |wants| then wants[i..] else [], line, env, sigs)
         == ArgumentMistakes(es, wants, i, line, env, sigs)
            + TypedAll(es[i + 1..], if i + 1 <= |wants| then wants[i + 1..] else [], line, env, sigs)
    ensures ArgumentMistakes(es, wants, i, line, env, sigs)
         == ArgumentMistakes([es[i]], if i < |wants| then wants[i..i + 1] else [], 0, line, env, sigs)
  {
    hide Typed, Contradicts;
    assert es[i..][0] == es[i] && es[i..][1..] == es[i + 1..];
    if i < |wants| { assert wants[i..][0] == wants[i] && wants[i..][1..] == wants[i + 1..]; }
    else if i == |wants| { assert wants[i..] == []; }
  }

  lemma BlockStep(b: Block, i: nat, env: Facts, sigs: map<string, Surface>, ret: Ty)
    requires i < |b|
    ensures BlockSize(b[i..]) == StmtSize(b[i]) + BlockSize(b[i + 1..])
    ensures var first := CheckedStmt(b[i], env, sigs, ret);
      var rest := Checked(b[i + 1..], first.env, sigs, ret);
      Checked(b[i..], env, sigs, ret) == Walk(rest.env, first.found + rest.found)
  {
    hide CheckedStmt;
    assert b[i..][0] == b[i] && b[i..][1..] == b[i + 1..];
  }

  /** The check of one function, before any code is emitted for it. */
  method Accept(params: seq<Param>, returnsInt: bool, body: Block, sigs: map<string, Surface>) returns (ok: bool)
    ensures ok == Accepts(params, returnsInt, body, sigs)
  {
    hide Checked;
    var env: Facts := map[];
    var i := 0;
    while i < |params|
      invariant 0 <= i <= |params| && env == Opening(params[..i])
    {
      assert params[..i + 1][..i] == params[..i];
      env := env[params[i].name := Annotated(params[i].isInt)];
      i := i + 1;
    }
    assert params[..i] == params;
    var checker := new TypeChecker(sigs);
    var _ := checker.BlockTypes(body, env, Annotated(returnsInt));
    ok := checker.out == [] && !MissingReturn.Owes(body);
  }

  // --------------------------------------------------------- what gets through

  /** Somewhere a truth value is written where `int` is announced. */
  predicate Blatant(b: Block)
    decreases BlockSize(b), 1
  {
    b != [] && (BlatantStmt(b[0]) || Blatant(b[1..]))
  }

  predicate BlatantStmt(s: Stmt)
    decreases StmtSize(s), 0
  {
    match s.kind
    case AnnAssign(_, e, isInt) => isInt && e.kind.Bool?
    case If(_, body, elifs, orelse) => Blatant(body) || BlatantArms(elifs) || Blatant(ElseOf(orelse))
    case While(_, body) => Blatant(body)
    case For(_, _, _, _, body, _) => Blatant(body)
    case ForEach(_, _, body) => Blatant(body)
    case _ => false
  }

  predicate BlatantArms(elifs: seq<Arm>)
    decreases ArmsSize(elifs), 1
  {
    elifs != [] && (Blatant(elifs[0].body) || BlatantArms(elifs[1..]))
  }

  /** Such a program is refused, wherever the contradiction stands. */
  lemma {:induction false} BlatantRefused(b: Block, env: Facts, sigs: map<string, Surface>, ret: Ty)
    requires Blatant(b)
    ensures Checked(b, env, sigs, ret).found != []
    decreases BlockSize(b), 1
  {
    hide BlatantStmt, CheckedStmt;
    if BlatantStmt(b[0]) { BlatantRefusedStmt(b[0], env, sigs, ret); }
    else { BlatantRefused(b[1..], CheckedStmt(b[0], env, sigs, ret).env, sigs, ret); }
  }

  lemma TruthTyped(e: Expr, env: Facts, sigs: map<string, Surface>)
    requires e.kind.Bool?
    ensures Typed(e, env, sigs) == Judged(TyBool, [])
  {
  }

  lemma {:induction false} BlatantRefusedStmt(s: Stmt, env: Facts, sigs: map<string, Surface>, ret: Ty)
    requires BlatantStmt(s)
    ensures CheckedStmt(s, env, sigs, ret).found != []
    decreases StmtSize(s), 0
  {
    hide Checked, CheckedArms, Blatant, BlatantArms, Joined, AfterLoop, ItemOf, Typed, Breaks;
    match s.kind
    case AnnAssign(_, e, _) => TruthTyped(e, env, sigs);
    case If(_, body, elifs, orelse) =>
      if Blatant(body) { BlatantRefused(body, env, sigs, ret); }
      else if BlatantArms(elifs) { BlatantRefusedArms(elifs, env, sigs, ret); }
      else { BlatantRefused(ElseOf(orelse), env, sigs, ret); }
    case While(_, body) => BlatantRefused(body, env, sigs, ret);
    case For(x, _, _, _, body, _) => BlatantRefused(body, env[x := TyInt], sigs, ret);
    case ForEach(x, iterable, body) => BlatantRefused(body, env[x := ItemOf(Typed(iterable, env, sigs).ty, s.line).ty], sigs, ret);
    case _ =>
  }

  lemma {:induction false} BlatantRefusedArms(elifs: seq<Arm>, env: Facts, sigs: map<string, Surface>, ret: Ty)
    requires BlatantArms(elifs)
    ensures CheckedArms(elifs, env, sigs, ret).1 != []
    decreases ArmsSize(elifs), 1
  {
    hide Checked, Blatant;
    if Blatant(elifs[0].body) { BlatantRefused(elifs[0].body, env, sigs, ret); } else { BlatantRefusedArms(elifs[1..], env, sigs, ret); }
  }

  /** No call in it. */
  predicate CallFree(e: Expr) {
    match e.kind
    case Unary(_, i) => CallFree(i)
    case Bin(_, a, b) => CallFree(a) && CallFree(b)
    case Call(_, _) => false
    case MethodCall(_, _, _) => false
    case _ => true
  }

  predicate AllCallFree(es: seq<Expr>) { forall e :: e in es ==> CallFree(e) }

  /** Nothing the checker has an opinion on: no annotation, no loop over items, no valued
      return, no call but of `print`, which stays what it is. */
  predicate Unremarkable(b: Block)
    decreases BlockSize(b), 1
  {
    b == [] || (UnremarkableStmt(b[0]) && Unremarkable(b[1..]))
  }

  predicate UnremarkableStmt(s: Stmt)
    decreases StmtSize(s), 0
  {
    match s.kind
    case Assign(x, e) => x != "print" && CallFree(e)
    case AnnAssign(_, _, _) => false
    case ExprStmt(e) => CallFree(e) || (e.kind.Call? && e.kind.func == "print" && AllCallFree(e.kind.args))
    case If(c, body, elifs, orelse) => CallFree(c) && Unremarkable(body) && UnremarkableArms(elifs) && Unremarkable(ElseOf(orelse))
    case While(c, body) => CallFree(c) && Unremarkable(body)
    case For(x, start, end, step, body, _) => x != "print" && CallFree(start) && CallFree(end) && CallFree(step) && Unremarkable(body)
    case ForEach(_, _, _) => false
    case Return(r) => r.None?
    case Def(_, _, _) => false
    case _ => true
  }

  predicate UnremarkableArms(elifs: seq<Arm>)
    decreases ArmsSize(elifs), 1
  {
    elifs == [] || (CallFree(elifs[0].cond) && Unremarkable(elifs[0].body) && UnremarkableArms(elifs[1..]))
  }

  /** No text is known of names. */
  ghost predicate Bland(env: Facts) { "print" !in env && forall x :: x in env ==> env[x] in {TyInt, TyBool, TyFunc, TyDyn} }

  lemma {:induction false} BlandExpr(e: Expr, env: Facts, sigs: map<string, Surface>)
    requires Bland(env) && CallFree(e) && "print" !in sigs
    ensures Typed(e, env, sigs).found == [] && Typed(e, env, sigs).ty in {TyInt, TyBool, TyFunc, TyDyn}
    decreases e
  {
    match e.kind
    case Unary(_, i) => BlandExpr(i, env, sigs);
    case Bin(op, a, b) =>
      BlandExpr(a, env, sigs);
      BlandExpr(b, env, sigs);
    case _ =>
  }

  lemma {:induction false} BlandAll(es: seq<Expr>, line: nat, env: Facts, sigs: map<string, Surface>)
    requires Bland(env) && AllCallFree(es) && "print" !in sigs
    ensures TypedAll(es, [], line, env, sigs) == []
    decreases |es|
  {
    hide Typed, CallFree, Bland;
    if es != [] {
      assert es[0] in es;
      BlandExpr(es[0], env, sigs);
      BlandAll(es[1..], line, env, sigs);
    }
  }

  lemma {:induction false} UnremarkableAccepted(b: Block, env: Facts, sigs: map<string, Surface>)
    requires Bland(env) && Unremarkable(b) && "print" !in sigs
    ensures Checked(b, env, sigs, TyDyn).found == [] && Bland(Checked(b, env, sigs, TyDyn).env)
    decreases BlockSize(b), 1
  {
    hide UnremarkableStmt, CheckedStmt, Bland;
    if b != [] {
      UnremarkableStep(b[0], env, sigs);
      UnremarkableAccepted(b[1..], CheckedStmt(b[0], env, sigs, TyDyn).env, sigs);
    }
  }

  lemma {:induction false} UnremarkableStep(s: Stmt, env: Facts, sigs: map<string, Surface>)
    requires Bland(env) && UnremarkableStmt(s) && "print" !in sigs
    ensures CheckedStmt(s, env, sigs, TyDyn).found == [] && Bland(CheckedStmt(s, env, sigs, TyDyn).env)
    decreases StmtSize(s), 0
  {
    hide Checked, CheckedArms, Unremarkable, UnremarkableArms, CallFree, AllCallFree;
    match s.kind
    case Assign(x, e) => BlandExpr(e, env, sigs);
    case ExprStmt(e) => if CallFree(e) { BlandExpr(e, env, sigs); } else { BlandAll(e.kind.args, e.line, env, sigs); }
    case If(c, body, elifs, orelse) =>
      BlandExpr(c, env, sigs);
      UnremarkableAccepted(body, env, sigs);
      UnremarkableWays(elifs, env, sigs);
      UnremarkableAccepted(ElseOf(orelse), env, sigs);
    case While(c, body) =>
      BlandExpr(c, env, sigs);
      UnremarkableAccepted(body, env, sigs);
    case For(x, start, end, step, body, _) =>
      BlandExpr(start, env, sigs);
      BlandExpr(end, env, sigs);
      BlandExpr(step, env, sigs);
      UnremarkableAccepted(body, env[x := TyInt], sigs);
    case _ =>
  }

  lemma {:induction false} UnremarkableWays(elifs: seq<Arm>, env: Facts, sigs: map<string, Surface>)
    requires Bland(env) && UnremarkableArms(elifs) && "print" !in sigs
    ensures CheckedArms(elifs, env, sigs, TyDyn).1 == []
    decreases ArmsSize(elifs), 1
  {
    hide Checked, Unremarkable, CallFree, Bland;
    if elifs != [] {
      BlandExpr(elifs[0].cond, env, sigs);
      UnremarkableAccepted(elifs[0].body, env, sigs);
      UnremarkableWays(elifs[1..], env, sigs);
    }
  }

  /** Nothing is given back in it either. */
  lemma {:induction false} NothingGiven(b: Block)
    requires Unremarkable(b)
    ensures MissingReturn.FirstReturn(b, true).None?
    decreases BlockSize(b), 1, 0
  {
    hide UnremarkableStmt, MissingReturn.ChildBlocks;
    if b != [] {
      ChildrenUnremarkable(b[0]);
      NothingGivenIn(MissingReturn.ChildBlocks(b[0]));
      NothingGiven(b[1..]);
    }
  }

  lemma {:induction false} NothingGivenIn(bs: seq<Block>)
    requires forall b :: b in bs ==> Unremarkable(b)
    ensures MissingReturn.FirstIn(bs, true).None?
    decreases MissingReturn.BlocksSize(bs), 2, |bs|
  {
    hide Unremarkable, MissingReturn.FirstReturn;
    if bs != [] {
      NothingGiven(bs[0]);
      NothingGivenIn(bs[1..]);
    }
  }

  lemma ChildrenUnremarkable(s: Stmt)
    requires UnremarkableStmt(s)
    ensures !MissingReturn.IsReturn(s, true) && forall b :: b in MissingReturn.ChildBlocks(s) ==> Unremarkable(b)
  {
    hide Unremarkable, CallFree, AllCallFree;
    if s.kind.If? { ArmsUnremarkable(s.kind.elifs); }
  }

  lemma {:induction false} ArmsUnremarkable(elifs: seq<Arm>)
    requires UnremarkableArms(elifs)
    ensures forall b :: b in MissingReturn.ArmBodies(elifs) ==> Unremarkable(b)
    decreases |elifs|
  {
    hide Unremarkable, CallFree;
    if elifs != [] { ArmsUnremarkable(elifs[1..]); }
  }

  lemma {:induction false} BlandOpening(params: seq<Param>)
    requires forall p :: p in params ==> p.name != "print"
    ensures Bland(Opening(params))
    decreases |params|
  {
    if params != [] { BlandOpening(params[..|params| - 1]); }
  }

  /** Such functions reach the code generator, in every program that leaves `print` alone. */
  lemma UnremarkableReaches(params: seq<Param>, body: Block, sigs: map<string, Surface>)
    requires Unremarkable(body) && "print" !in sigs && forall p :: p in params ==> p.name != "print"
    ensures Accepts(params, false, body, sigs)
  {
    hide Checked, Unremarkable, Opening, Bland, MissingReturn.FirstReturn, MissingReturn.FallsOff;
    BlandOpening(params);
    UnremarkableAccepted(body, Opening(params), sigs);
    NothingGiven(body);
  }
}
