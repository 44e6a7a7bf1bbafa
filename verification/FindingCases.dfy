/** Which pairs of types the type checker (src/check.rs) objects to, one table per kind of
    finding; what its findings about `len` and loops mean; and a correct program it refuses. */
module FindingCases {
  import opened Syntax
  import opened Values
  import opened SlotChoice
  import opened PythonSemantics
  import opened Gate
  import FreeRuns
  import opened Findings

  // ------------------------------------------------------------------ the tables

  const Numbers: set<Ty> := {TyInt, TyFloat, TyBool}

  predicate TextAndNumber(a: Ty, b: Ty) { (a == TyStr && b in Numbers) || (b == TyStr && a in Numbers) }

  /** What is wrong with two operands, if anything. */
  function Objection(op: BinOp, a: Ty, b: Ty): Option<Code> {
    match op
    case Add => if TextAndNumber(a, b) then Some(StrPlusNumber) else None
    case Sub => if TyStr in {a, b} then Some(StrInArithmetic) else None
    case FloorDiv => if TyStr in {a, b} then Some(StrInArithmetic) else None
    case Mod => if TyStr in {a, b} then Some(StrInArithmetic) else None
    case Mul => None
    case Eq => None
    case Ne => None
    case _ => if TextAndNumber(a, b) then Some(ComparingTextWithNumber) else None
  }

  /** Numbers give numbers, decimal if one of them is; texts and lists can be joined, a text
      repeated; comparisons give truth values; the rest is unknown. */
  function ResultType(op: BinOp, a: Ty, b: Ty): Ty {
    if IsCompare(op) then TyBool
    else if a in Numbers && b in Numbers then (if TyFloat in {a, b} then TyFloat else TyInt)
    else if op == Add && a == TyStr && b == TyStr then TyStr
    else if op == Add && a.TyList? && b.TyList? then a
    else if op == Mul && TextAndNumber(a, b) then TyStr
    else TyDyn
  }

  lemma OperatorJudged(op: BinOp, x: Expr, y: Expr, line: nat, span: Span, full: Span, env: Facts, sigs: map<string, Surface>)
    ensures var (a, b) := (Typed(x, env, sigs), Typed(y, env, sigs));
      var e := Typed(Expr(Bin(op, x, y), line, span, full), env, sigs);
      && e.ty == ResultType(op, a.ty, b.ty)
      && e.found == a.found + b.found
                    + (match Objection(op, a.ty, b.ty) case Some(code) => [Mistake(code, line)] case None => [])
  {
    hide Typed;
    var e := Expr(Bin(op, x, y), line, span, full);
    OperatorTable(op, Typed(x, env, sigs).ty, Typed(y, env, sigs).ty, line);
    BinTyped(e, env, sigs);
  }

  lemma BinTyped(e: Expr, env: Facts, sigs: map<string, Surface>)
    requires e.kind.Bin?
    ensures var (a, b) := (Typed(e.kind.left, env, sigs), Typed(e.kind.right, env, sigs));
      var z := Operator(e.kind.bop, a.ty, b.ty, e.line);
      Typed(e, env, sigs) == Judged(z.ty, a.found + b.found + z.found)
  {
  }

  lemma OperatorTable(op: BinOp, a: Ty, b: Ty, line: nat)
    ensures Operator(op, a, b, line) ==
            Judged(ResultType(op, a, b), match Objection(op, a, b) case Some(code) => [Mistake(code, line)] case None => [])
  {
  }

  /** Two known types that differ, except where the first may stand for the second. */
  predicate Opposed(given: Ty, want: Ty, but: set<(Ty, Ty)>) { given != TyDyn && want != TyDyn && given != want && (given, want) !in but }

  /** What a function gives back, bare returns giving nothing: a whole number will do for a
      decimal one. */
  lemma ReturnJudged(result: Option<Expr>, line: nat, span: Span, env: Facts, sigs: map<string, Surface>, ret: Ty)
    ensures var v := if result.Some? then Typed(result.value, env, sigs) else Judged(TyNone, []);
      CheckedStmt(Stmt(Return(result), line, span), env, sigs, ret).found
      == v.found + if Opposed(v.ty, ret, {(TyInt, TyFloat)}) then [Mistake(ReturnContradictsSignature, line)] else []
  {
    hide Typed;
  }

  /** An argument: a truth value will do for a whole number, too. */
  lemma ArgumentJudged(f: string, e: Expr, want: Ty, line: nat, span: Span, full: Span, env: Facts, sigs: map<string, Surface>)
    requires f in sigs && sigs[f].params == [want] && !KnownValue(f, env)
    ensures Typed(Expr(Call(f, [e]), line, span, full), env, sigs)
         == Judged(sigs[f].ret,
                   Typed(e, env, sigs).found
                   + if Opposed(Typed(e, env, sigs).ty, want, {(TyInt, TyFloat), (TyBool, TyInt)})
                     then [Mistake(ArgumentContradictsSignature, line)] else [])
  {
    hide Typed, TypedAll;
    CallTyped(f, [e], line, span, full, env, sigs);
    OneArgument(e, want, line, env, sigs);
  }

  /** A name known to hold something that cannot be called. */
  predicate KnownValue(f: string, env: Facts) { f in env && env[f] != TyFunc && env[f] != TyDyn }

  lemma OneArgument(e: Expr, want: Ty, line: nat, env: Facts, sigs: map<string, Surface>)
    ensures TypedAll([e], [want], line, env, sigs)
         == Typed(e, env, sigs).found
            + if Contradicts(Typed(e, env, sigs).ty, want) then [Mistake(ArgumentContradictsSignature, line)] else []
  {
    hide Typed, Contradicts;
    assert TypedAll([], [], line, env, sigs) == [];
  }

  /** Calling a value is a mistake; other calls give back what is promised. */
  lemma CallTyped(f: string, args: seq<Expr>, line: nat, span: Span, full: Span, env: Facts, sigs: map<string, Surface>)
    ensures KnownValue(f, env) ==>
              Typed(Expr(Call(f, args), line, span, full), env, sigs)
              == Judged(TyDyn, [Mistake(CallingAValue, line)] + TypedAll(args, [], line, env, sigs))
    ensures !KnownValue(f, env) && f in sigs ==>
              Typed(Expr(Call(f, args), line, span, full), env, sigs)
              == Judged(sigs[f].ret, TypedAll(args, sigs[f].params, line, env, sigs))
  {
    hide TypedAll;
  }

  /** What built-ins give back, and that nothing is known of other functions. */
  lemma BuiltinsJudged(f: string)
    ensures f in {"input", "str"} ==> Builtin(f) == TyStr
    ensures f == "int" ==> Builtin(f) == TyInt
    ensures f in {"float", "read_temperature"} ==> Builtin(f) == TyFloat
    ensures f == "bool" ==> Builtin(f) == TyBool
    ensures f in {"sorted", "list"} ==> Builtin(f) == TyList(TyDyn)
    ensures f == "set" ==> Builtin(f) == TySet
    ensures f == "tuple" ==> Builtin(f) == TyTuple
    ensures f == "dict" ==> Builtin(f) == TyDict
    ensures f == "print" ==> Builtin(f) == TyNone
    ensures f !in {"input", "str", "int", "float", "read_temperature", "bool", "sorted", "list", "set", "tuple", "dict", "print"} ==>
              Builtin(f) == TyDyn
  {
  }

  /** A value announced `int`: nothing else will do, and from then on the name is one. */
  lemma AnnotationJudged(x: string, e: Expr, isInt: bool, line: nat, span: Span, env: Facts, sigs: map<string, Surface>, ret: Ty)
    ensures var v, s := Typed(e, env, sigs), CheckedStmt(Stmt(AnnAssign(x, e, isInt), line, span), env, sigs, ret);
      && s.env == env[x := if isInt then TyInt else TyDyn]
      && s.found == v.found + if isInt && Opposed(v.ty, TyInt, {}) then [Mistake(AnnotationContradicted, line)] else []
  {
    hide Typed;
  }

  /** A parameter is known exactly if it is announced `int`; the last of a name counts. */
  lemma {:induction false} ParametersKnown(params: seq<Param>, i: nat)
    requires i < |params| && forall k :: i < k < |params| ==> params[k].name != params[i].name
    ensures params[i].name in Opening(params) && Opening(params)[params[i].name] == if params[i].isInt then TyInt else TyDyn
    decreases |params|
  {
    if i < |params| - 1 { ParametersKnown(params[..|params| - 1], i); }
  }

  const Singles: set<Ty> := {TyInt, TyFloat, TyBool, TyNone}

  /** A loop over items binds what the list holds, or text; over one single value it is
      refused. */
  lemma LoopJudged(x: string, iterable: Expr, line: nat, span: Span, env: Facts, sigs: map<string, Surface>, ret: Ty)
    ensures var v := Typed(iterable, env, sigs);
      var item := match v.ty case TyList(t) => t case TyStr => TyStr case _ => TyDyn;
      var s := CheckedStmt(Stmt(ForEach(x, iterable, []), line, span), env, sigs, ret);
      && s.env == env[x := item]
      && s.found == v.found + if v.ty in Singles then [Mistake(ForOverSingleValue, line)] else []
  {
    hide Typed;
    var v := Typed(iterable, env, sigs);
    var s := Stmt(ForEach(x, iterable, []), line, span);
    assert Checked([], env[x := ItemOf(v.ty, line).ty], sigs, ret) == Gate.Walk.Walk(env[x := ItemOf(v.ty, line).ty], []);
  }

  /** After a loop, what its body changed is unknown; all else the body knew stays known. */
  lemma LoopForgets(c: Expr, body: Block, line: nat, span: Span, env: Facts, sigs: map<string, Surface>, ret: Ty, x: string)
    ensures var inside, after := Checked(body, env, sigs, ret).env, CheckedStmt(Stmt(While(c, body), line, span), env, sigs, ret).env;
      && (x in after <==> x in inside)
      && (x in after ==> after[x] == if x in env && env[x] != inside[x] then TyDyn else inside[x])
  {
    hide Typed, Checked;
  }

  /** After a branch, a name of the first way is known if all ways agree on it. */
  lemma BranchAgrees(c: Expr, yes: Block, no: Block, line: nat, span: Span, env: Facts, sigs: map<string, Surface>, ret: Ty, x: string)
    ensures var first, last := Checked(yes, env, sigs, ret).env, Checked(no, env, sigs, ret).env;
      var after := CheckedStmt(Stmt(If(c, yes, [], Else(no)), line, span), env, sigs, ret).env;
      && (x in after <==> x in first)
      && (x in after ==> after[x] == if x in last && last[x] == first[x] then first[x] else TyDyn)
  {
    hide Typed, Checked;
    var first, last := Checked(yes, env, sigs, ret).env, Checked(no, env, sigs, ret).env;
    assert CheckedArms([], env, sigs, ret) == ([], []);
    var ways := [first] + [] + [last];
    assert ways[0] == first && ways[1] == last;
    assert CheckedStmt(Stmt(If(c, yes, [], Else(no)), line, span), env, sigs, ret).env == Joined(ways);
  }

  // ------------------------------------------------------- findings that are right

  /** A loop over what the checker knows to be one single value stops with an error. */
  lemma ForFails(x: string, iterable: Expr, body: Block, line: nat, span: Span, env: Facts, sigs: map<string, Surface>,
                 w: World, o: Oracle, r: Rules, fuel: nat)
    requires Setting(o, sigs, r) && TrueOf(env, w, r) && Typed(iterable, env, sigs).ty in Singles
    ensures ExecStmt(Stmt(ForEach(x, iterable, body), line, span), w, o, r, fuel).Stopped?
  {
    hide Setting, TrueOf, Typed, Eval;
    AtTrue(env, w, r, false);
    AtSetting(o, sigs, r, false);
    TypeTrue(iterable, env, sigs, w, o, r.At(false));
  }

  /** Statements one after the other. */
  predicate Straight(b: Block) {
    b == [] || ((b[0].kind.Assign? || b[0].kind.AnnAssign? || b[0].kind.ExprStmt? || b[0].kind.Pass?) && Straight(b[1..]))
  }

  lemma {:induction false} StraightNoLoops(b: Block)
    requires Straight(b)
    ensures FreeRuns.NoLoops(b)
    decreases |b|
  {
    if b != [] { StraightNoLoops(b[1..]); }
  }

  /** In straight-line code a `len` the checker objects to is never passed. */
  lemma {:induction false} StraightStops(b: Block, env: Facts, sigs: map<string, Surface>, ret: Ty, w: World, o: Oracle, r: Rules, fuel: nat)
    requires Straight(b) && Setting(o, sigs, r) && Watches(b, r) && TrueOf(env, w, r)
    requires LenBlamed(Checked(b, env, sigs, ret).found)
    ensures ExecBlock(b, w, o, r, fuel).Stopped?
    decreases |b|
  {
    hide Setting, TrueOf, LenBlamed, ExecStmt, CheckedStmt, AssignedBy, AnnouncedBy;
    NothingBlamed();
    if b != [] {
      var s := CheckedStmt(b[0], env, sigs, ret);
      BlamedWhere(s.found, Checked(b[1..], s.env, sigs, ret).found);
      if LenBlamed(s.found) {
        SimpleStops(b[0], env, sigs, ret, w, o, r, fuel);
      } else {
        SimpleGoesOn(b[0], w, o, r, fuel);
        NoLoopsHere(b[0]);
        StmtFactsTrue(b[0], env, sigs, ret, w, o, r, fuel);
        var y := ExecStmt(b[0], w, o, r, fuel);
        if y.Next? { StraightStops(b[1..], s.env, sigs, ret, y.world, o, r, fuel); }
      }
    }
  }

  lemma NoLoopsHere(s: Stmt)
    requires s.kind.Assign? || s.kind.AnnAssign? || s.kind.ExprStmt? || s.kind.Pass?
    ensures FreeRuns.NoLoopsIn(s)
  {
  }

  lemma SimpleGoesOn(s: Stmt, w: World, o: Oracle, r: Rules, fuel: nat)
    requires s.kind.Assign? || s.kind.AnnAssign? || s.kind.ExprStmt? || s.kind.Pass?
    ensures var y := ExecStmt(s, w, o, r, fuel); y.Next? || y.Stopped?
  {
    hide Eval;
  }

  lemma SimpleStops(s: Stmt, env: Facts, sigs: map<string, Surface>, ret: Ty, w: World, o: Oracle, r: Rules, fuel: nat)
    requires s.kind.Assign? || s.kind.AnnAssign? || s.kind.ExprStmt? || s.kind.Pass?
    requires Setting(o, sigs, r) && r.how.Watched? && TrueOf(env, w, r) && LenBlamed(CheckedStmt(s, env, sigs, ret).found)
    ensures ExecStmt(s, w, o, r, fuel).Stopped?
  {
    hide Setting, TrueOf, LenBlamed, Eval, Typed, ExecPrint;
    NothingBlamed();
    match s.kind {
      case Assign(x, e) => ValueStops(x, e, env, sigs, w, o, r);
      case AnnAssign(x, e, isInt) =>
        var more := CheckedStmt(s, env, sigs, ret).found;
        AnnotationBlameless(s.line);
        BlamedWhere(Typed(e, env, sigs).found, if more == Typed(e, env, sigs).found then [] else [Mistake(AnnotationContradicted, s.line)]);
        assert Typed(e, env, sigs).found + [] == Typed(e, env, sigs).found;
        ValueStops(x, e, env, sigs, w, o, r);
      case ExprStmt(e) =>
        if e.kind.Call? && e.kind.func == "print" {
          PrintStops(e, env, sigs, w, o, r);
        } else {
          AtTrue(env, w, r, false);
          AtSetting(o, sigs, r, false);
          LenFails(e, env, sigs, w, o, r.At(false));
        }
      case _ =>
    }
  }

  lemma AnnotationBlameless(line: nat)
    ensures !LenBlamed([Mistake(AnnotationContradicted, line)])
  {
  }

  lemma ValueStops(x: string, e: Expr, env: Facts, sigs: map<string, Surface>, w: World, o: Oracle, r: Rules)
    requires Setting(o, sigs, r) && TrueOf(env, w, r) && LenBlamed(Typed(e, env, sigs).found)
    ensures ExecAssign(x, e, w, o, r).Stopped?
  {
    hide Setting, TrueOf, LenBlamed, Eval, Typed;
    AtTrue(env, w, r, x in r.env.typed && Scalar(e, r.env));
    AtSetting(o, sigs, r, x in r.env.typed && Scalar(e, r.env));
    LenFails(e, env, sigs, w, o, r.At(x in r.env.typed && Scalar(e, r.env)));
  }

  lemma PrintStops(e: Expr, env: Facts, sigs: map<string, Surface>, w: World, o: Oracle, r: Rules)
    requires e.kind.Call? && e.kind.func == "print" && r.how.Watched?
    requires Setting(o, sigs, r) && TrueOf(env, w, r) && LenBlamed(Typed(e, env, sigs).found)
    ensures ExecPrint(e.kind.args, w, o, r).Stopped?
  {
    hide Setting, TrueOf, LenBlamed, Eval, TypedAll, EvalAll, PrintEach;
    NothingBlamed();
    var args := e.kind.args;
    if HoldsValue("print", env) {
      BlamedWhere([Mistake(CallingAValue, e.line)], TypedAll(args, [], e.line, env, sigs));
      ArgsFail(args, [], [], "print", e.line, env, sigs, w, o, r);
    } else {
      ArgsFail(args, if "print" in sigs then sigs["print"].params else [], [], "print", e.line, env, sigs, w, o, r);
    }
  }

  // ---------------------------------------------------- a correct program refused

  function Lens(): Stmt { AsStmt(ExprStmt(AsExpr(Call("len", [AsExpr(Name("x"))])))) }

  function LateBody(c: Expr): Block { [AsStmt(If(c, [Lens()], [], NoElse)), AsStmt(Assign("x", AsExpr(Name("xs"))))] }

  /** `x = 1`, then `for i in range(0, 2)`: `if c: len(x)` and `x = xs`. */
  function LateList(c: Expr): Block {
    [AsStmt(Assign("x", AsExpr(Int(1)))), AsStmt(For("i", AsExpr(Int(0)), AsExpr(Int(2)), AsExpr(Int(1)), LateBody(c), (0, 0)))]
  }

  /** The function owns its names, `len` is the built-in, and `xs` is a list. */
  ghost predicate ListGiven(w: World, r: Rules) {
    && r.how.Python? && r.env.Owns("x") && r.env.Owns("i") && r.env.Owns("xs") && "len" !in r.env.sigs
    && "xs" in w.vars && w.vars["xs"].VList?
  }

  /** `c` is decided without changing anything. */
  ghost predicate Decided(c: Expr, o: Oracle, r: Rules) {
    forall z: World :: {"x", "i", "xs"} <= z.vars.Keys && z.vars["i"].VInt? ==> Test(c, z, o, r).Holds? && Test(c, z, o, r).world == z
  }

  /** The body of a loop is judged by what is known before its first pass.  These functions
      are all refused because of `len(x)`; the finding is right exactly if the first pass
      gets there, since later ones find a list. */
  lemma FindingRightExactly(c: Expr, w: World, o: Oracle, r: Rules, fuel: nat)
    requires ListGiven(w, r) && Decided(c, o, r) && fuel >= 2
    ensures !Accepts([Param("xs", false)], false, LateList(c), map[])
    ensures var y, t := ExecBlock(LateList(c), w, o, r, fuel), Test(c, Bind(Bind(w, "x", VInt(1)), "i", VInt(0)), o, r);
      t.Holds? && if t.b then y == Stopped(TypeError, w.out) else y.Next?
  {
    LateRefused(c);
    LateRuns(c, w, o, r, fuel);
  }

  /** With `i` for the condition, the refused function is correct. */
  lemma CorrectButRefused(w: World, o: Oracle, r: Rules, fuel: nat)
    requires ListGiven(w, r) && fuel >= 2
    ensures !Accepts([Param("xs", false)], false, LateList(AsExpr(Name("i"))), map[])
    ensures ExecBlock(LateList(AsExpr(Name("i"))), w, o, r, fuel).Next?
  {
    var c := AsExpr(Name("i"));
    forall z: World | {"x", "i", "xs"} <= z.vars.Keys && z.vars["i"].VInt? ensures Test(c, z, o, r) == Holds(z.vars["i"].n != 0, z) {
      assert Eval(c, z, o, r.At(TestsRaw(c, r.env))) == Ok(z.vars["i"], z);
    }
    FindingRightExactly(c, w, o, r, fuel);
  }

  lemma LateRefused(c: Expr)
    ensures !Accepts([Param("xs", false)], false, LateList(c), map[])
  {
    hide Typed;
    var params := [Param("xs", false)];
    assert params[..0] == [];
    assert Opening(params) == map["xs" := TyDyn];
    var env: Facts := map["xs" := TyDyn, "x" := TyInt];
    OneTyped(Opening(params));
    assert CheckedStmt(LateList(c)[0], Opening(params), map[], TyDyn).env == env;
    var inside := env["i" := TyInt];
    LensFound(inside);
    BodyRefused(c, inside);
    assert CheckedStmt(LateList(c)[1], env, map[], TyDyn).found != [];
    assert LateList(c)[1..][0] == LateList(c)[1];
    assert Checked(LateList(c)[1..], env, map[], TyDyn).found != [];
  }

  lemma OneTyped(env: Facts)
    ensures Typed(AsExpr(Int(1)), env, map[]) == Judged(TyInt, [])
  {
  }

  lemma BodyRefused(c: Expr, inside: Facts)
    requires CheckedStmt(Lens(), inside, map[], TyDyn).found == [Mistake(LenOfSingleValue, 1)]
    ensures Checked(LateBody(c), inside, map[], TyDyn).found != []
  {
    hide Typed, Lens, Joined;
    assert [Lens()][1..] == [] && [Lens()][0] == Lens();
    assert Checked([Lens()], inside, map[], TyDyn).found == CheckedStmt(Lens(), inside, map[], TyDyn).found + [];
    assert CheckedStmt(LateBody(c)[0], inside, map[], TyDyn).found != [];
  }

  lemma LensFound(env: Facts)
    requires "len" !in env && "x" in env && env["x"] == TyInt
    ensures CheckedStmt(Lens(), env, map[], TyDyn).found == [Mistake(LenOfSingleValue, 1)]
  {
  }

  lemma LateRuns(c: Expr, w: World, o: Oracle, r: Rules, fuel: nat)
    requires ListGiven(w, r) && Decided(c, o, r) && fuel >= 2
    ensures var y, t := ExecBlock(LateList(c), w, o, r, fuel), Test(c, Bind(Bind(w, "x", VInt(1)), "i", VInt(0)), o, r);
      t.Holds? && if t.b then y == Stopped(TypeError, w.out) else y.Next?
  {
    hide Scalar, Test, Decided;
    var u := Bind(w, "x", VInt(1));
    Assigns("x", AsExpr(Int(1)), VInt(1), w, o, r, fuel);
    LateBounds(u, o, r);
    var first := Bind(u, "i", VInt(0));
    IsDecided(c, first, o, r);
    hide ExecBlock;
    if Test(c, first, o, r).b {
      LensStops(c, u, o, r, fuel);
      assert ExecRange("i", 0, 2, 1, LateBody(c), u, o, r, fuel) == Stopped(TypeError, w.out);
    } else {
      var v := LatePass(c, 0, u, o, r, fuel);
      var z := LatePass(c, 1, v, o, r, fuel - 1);
      assert ExecRange("i", 2, 2, 1, LateBody(c), z, o, r, fuel - 2) == Next(z);
      assert ExecRange("i", 1, 2, 1, LateBody(c), v, o, r, fuel - 1) == Next(z);
      assert ExecRange("i", 0, 2, 1, LateBody(c), u, o, r, fuel) == Next(z);
    }
    LateSteps(c, w, u, o, r, fuel);
  }

  lemma IsDecided(c: Expr, z: World, o: Oracle, r: Rules)
    requires Decided(c, o, r) && {"x", "i", "xs"} <= z.vars.Keys && z.vars["i"].VInt?
    ensures Test(c, z, o, r).Holds? && Test(c, z, o, r).world == z
  {
  }

  lemma LateBounds(u: World, o: Oracle, r: Rules)
    requires r.how.Python?
    ensures Range(AsExpr(Int(0)), AsExpr(Int(2)), AsExpr(Int(1)), u, o, r) == From(0, 2, 1, u)
  {
  }

  lemma LateSteps(c: Expr, w: World, u: World, o: Oracle, r: Rules, fuel: nat)
    requires ExecStmt(LateList(c)[0], w, o, r, fuel) == Next(u)
    requires Range(AsExpr(Int(0)), AsExpr(Int(2)), AsExpr(Int(1)), u, o, r) == From(0, 2, 1, u)
    ensures ExecBlock(LateList(c), w, o, r, fuel) == ExecRange("i", 0, 2, 1, LateBody(c), u, o, r, fuel)
  {
    hide ExecRange, Range, LateBody;
    var y := ExecRange("i", 0, 2, 1, LateBody(c), u, o, r, fuel);
    assert ExecStmt(LateList(c)[1], u, o, r, fuel) == y;
    assert LateList(c)[1..] == [LateList(c)[1]] && LateList(c)[1..][1..] == [];
    if y.Next? { assert ExecBlock([], y.world, o, r, fuel) == y; }
  }

  lemma Assigns(x: string, e: Expr, v: Value, w: World, o: Oracle, r: Rules, fuel: nat)
    requires r.how.Python? && forall raw :: Eval(e, w, o, r.At(raw)) == Ok(v, w)
    ensures ExecStmt(AsStmt(Assign(x, e)), w, o, r, fuel) == Next(Bind(w, x, v))
  {
    hide Eval, Scalar;
  }

  /** A pass that does not run `len` on a number: afterwards `x` is the list. */
  lemma LatePass(c: Expr, i: nat, w: World, o: Oracle, r: Rules, fuel: nat) returns (u: World)
    requires ListGiven(w, r) && Decided(c, o, r) && "x" in w.vars
    requires var t := Test(c, Bind(w, "i", VInt(i)), o, r); t.Holds? && t.b ==> w.vars["x"].VList?
    ensures ExecBlock(LateBody(c), Bind(w, "i", VInt(i)), o, r, fuel) == Next(u)
    ensures ListGiven(u, r) && "x" in u.vars && u.vars["x"].VList?
  {
    hide Test, Decided;
    var z := Bind(w, "i", VInt(i));
    LateBranch(c, z, o, r, fuel);
    var list := AsExpr(Name("xs"));
    assert forall raw :: Eval(list, z, o, r.At(raw)) == Ok(z.vars["xs"], z);
    Assigns("x", list, z.vars["xs"], z, o, r, fuel);
    u := Bind(z, "x", z.vars["xs"]);
    hide ExecStmt;
    assert LateBody(c)[1..] == [LateBody(c)[1]] && LateBody(c)[1..][1..] == [];
    assert ExecBlock([], u, o, r, fuel) == Next(u);
  }

  lemma LateBranch(c: Expr, z: World, o: Oracle, r: Rules, fuel: nat)
    requires ListGiven(z, r) && Decided(c, o, r) && "x" in z.vars && "i" in z.vars && z.vars["i"].VInt?
    requires var t := Test(c, z, o, r); t.Holds? && t.b ==> z.vars["x"].VList?
    ensures ExecStmt(LateBody(c)[0], z, o, r, fuel) == Next(z)
  {
    IsDecided(c, z, o, r);
    hide Test, Decided;
    assert ExecBlock([], z, o, r, fuel) == Next(z);
    if Test(c, z, o, r).b {
      LensRuns(z, o, r, fuel);
      assert [Lens()][1..] == [] && ExecBlock([Lens()], z, o, r, fuel) == Next(z);
    }
  }

  lemma LensRuns(z: World, o: Oracle, r: Rules, fuel: nat)
    requires ListGiven(z, r) && "x" in z.vars && z.vars["x"].VList?
    ensures ExecStmt(Lens(), z, o, r, fuel) == Next(z)
  {
    var args := [AsExpr(Name("x"))];
    assert args[1..] == [];
    assert EvalAll([], [], "len", z, o, r.At(false)) == Oks([], z);
    assert EvalAll(args, [], "len", z, o, r.At(false)) == Oks([z.vars["x"]], z);
  }

  lemma LensStops(c: Expr, u: World, o: Oracle, r: Rules, fuel: nat)
    requires ListGiven(u, r) && "x" in u.vars && u.vars["x"] == VInt(1)
    requires var t := Test(c, Bind(u, "i", VInt(0)), o, r); t.Holds? && t.world == Bind(u, "i", VInt(0)) && t.b
    ensures ExecBlock(LateBody(c), Bind(u, "i", VInt(0)), o, r, fuel) == Stopped(TypeError, u.out)
  {
    hide Test;
    var z := Bind(u, "i", VInt(0));
    LenFailsHere(z, o, r, fuel);
    assert [Lens()][0] == Lens();
    assert ExecBlock([Lens()], z, o, r, fuel) == Stopped(TypeError, u.out);
  }

  lemma LenFailsHere(z: World, o: Oracle, r: Rules, fuel: nat)
    requires ListGiven(z, r) && "x" in z.vars && z.vars["x"] == VInt(1)
    ensures ExecStmt(Lens(), z, o, r, fuel) == Stopped(TypeError, z.out)
  {
    var args := [AsExpr(Name("x"))];
    assert args[1..] == [];
    assert EvalAll([], [], "len", z, o, r.At(false)) == Oks([], z);
    assert EvalAll(args, [], "len", z, o, r.At(false)) == Oks([z.vars["x"]], z);
  }
}
