/** Whole runs against the risks of their text (src/codegen.rs): with all names assigned in
    time, a watched run departs nowhere else. */
module ForeseenRuns {
  import opened Syntax
  import opened Values
  import opened SlotChoice
  import opened PythonSemantics
  import opened DefiniteAssignment
  import opened ProperRuns
  import opened SlotInference
  import opened WholeSlots
  import opened RangeCounters
  import opened ValueShapes
  import opened Risks

  // ---------------------------------------------------------------- the setting

  /** Everything a run starts from. */
  ghost predicate Calm(c: Facts, w: World, o: Oracle, env: Env) {
    Grounded(c, w.vars, w.globals, o, env) && !c.modules && Numbered(w, env) && ProperWorld(w)
  }

  lemma CalmReads(names: set<string>, c: Facts, w: World, o: Oracle, env: Env)
    requires Calm(c, w, o, env) && names - c.defined == {}
    ensures Ready(names, w, env)
  {
    assert names == (names - c.defined) + (names * c.defined);
  }

  lemma CalmProper(c: Facts, w: World, o: Oracle, env: Env)
    requires Calm(c, w, o, env)
    ensures ProperWorld(w)
  {
  }

  /** The watched rules keep every promise about whole numbers by themselves. */
  lemma {:induction false} NothingPromised(b: Block, ints: set<string>, sigs: map<string, Sig>)
    ensures Truthful(b, ints, {}, sigs)
    decreases BlockSize(b), 1
  {
    if b != [] {
      NothingPromisedBy(b[0], ints, sigs);
      NothingPromised(b[1..], ints, sigs);
    }
  }

  lemma {:induction false} NothingPromisedBy(s: Stmt, ints: set<string>, sigs: map<string, Sig>)
    ensures TruthfulStmt(s, ints, {}, sigs)
    decreases StmtSize(s), 0
  {
    hide Truthful, TruthfulArms;
    match s.kind
    case For(_, _, _, _, body, _) => NothingPromised(body, ints, sigs);
    case ForEach(_, _, body) => NothingPromised(body, ints, sigs);
    case While(_, body) => NothingPromised(body, ints, sigs);
    case If(_, body, elifs, orelse) =>
      NothingPromised(body, ints, sigs);
      NothingPromisedInArms(elifs, ints, sigs);
      NothingPromised(ElseOf(orelse), ints, sigs);
    case _ =>
  }

  lemma {:induction false} NothingPromisedInArms(elifs: seq<Arm>, ints: set<string>, sigs: map<string, Sig>)
    ensures TruthfulArms(elifs, ints, {}, sigs)
    decreases ArmsSize(elifs), 1
  {
    hide Truthful;
    if elifs != [] {
      NothingPromised(elifs[0].body, ints, sigs);
      NothingPromisedInArms(elifs[1..], ints, sigs);
    }
  }

  /** After a statement, and after a pass of a loop, the run is still calm. */
  lemma CalmAfter(s: Stmt, c: Facts, w: World, o: Oracle, r: Rules, fuel: nat)
    requires r.how.Watched? && Calm(c, w, o, r.env) && OwnsAll(AssignedBy(s), r.env)
    ensures var y := ExecStmt(s, w, o, r, fuel); y.Next? ==> Calm(c.(defined := SurveyStmt(s, c.defined).defined), y.world, o, r.env)
  {
    hide ExecStmt, SurveyStmt, Grounded, Assured, ProperWorld, HoldsInts;
    StmtSound(s, c, w, o, r, fuel);
    NothingPromisedBy(s, r.env.ints, r.env.sigs);
    StmtPromised(s, r.env.ints, {}, w, o, r, fuel);
    StmtProper(s, w, o, r, fuel);
    var y := ExecStmt(s, w, o, r, fuel);
    if y.Next? {
      GroundedLater(c, w, y.world, o, r.env);
      GroundedMore(SurveyStmt(s, c.defined).defined, c, y.world, o, r.env);
    }
  }

  lemma CalmPass(b: Block, c: Facts, d: Facts, w: World, u: World, o: Oracle, r: Rules, fuel: nat)
    requires r.how.Watched? && Calm(c, w, o, r.env) && Calm(d, u, o, r.env) && Keeps(w, u) && OwnsAll(Assigned(b), r.env)
    ensures var p := PassOf(ExecBlock(b, u, o, r, fuel)); p.Again? ==> Calm(c, p.world, o, r.env)
  {
    hide ExecBlock, SurveyBlock, Grounded, Assured, ProperWorld, HoldsInts;
    NameErrorsDemoted(b, d, u, o, r, fuel);
    NothingPromised(b, r.env.ints, r.env.sigs);
    NeverMistyped(b, r.env.ints, {}, u, o, r, fuel);
    RunProper(b, u, o, r, fuel);
    var p := PassOf(ExecBlock(b, u, o, r, fuel));
    if p.Again? { GroundedLater(c, w, p.world, o, r.env); }
  }

  lemma CalmLater(c: Facts, w: World, u: World, o: Oracle, env: Env)
    requires Calm(c, w, o, env) && u.vars == w.vars && u.globals == w.globals && ProperWorld(u)
    ensures Calm(c, u, o, env)
  {
  }

  lemma CalmBind(x: string, v: Value, c: Facts, w: World, o: Oracle, env: Env)
    requires Calm(c, w, o, env) && env.Owns(x) && ProperValue(v) && (x in env.ints ==> v.VInt?)
    ensures Calm(c.And({x}), Bind(w, x, v), o, env) && Keeps(w, Bind(w, x, v))
  {
    hide Grounded, ProperWorld, HoldsInts;
    GroundedBind(x, v, c, w, o, env);
    BindProper(x, v, w);
    BindInt(x, v, env.ints, w, env);
  }

  lemma CalmEvaluated(e: Expr, c: Facts, w: World, o: Oracle, r: Rules)
    requires r.how.Watched? && Calm(c, w, o, r.env)
    ensures var v := Eval(e, w, o, r); v.Ok? ==> Calm(c, v.world, o, r.env)
  {
    hide Eval, Calm;
    CalmProper(c, w, o, r.env);
    EvalProper(e, w, o, r);
    var v := Eval(e, w, o, r);
    if v.Ok? { CalmLater(c, w, v.world, o, r.env); }
  }

  lemma CalmTested(cond: Expr, c: Facts, w: World, o: Oracle, r: Rules)
    requires r.how.Watched? && Calm(c, w, o, r.env)
    ensures var t := Test(cond, w, o, r); t.Holds? ==> Calm(c, t.world, o, r.env)
  {
    hide Test, Calm;
    CalmProper(c, w, o, r.env);
    TestProper(cond, w, o, r);
    var t := Test(cond, w, o, r);
    if t.Holds? { CalmLater(c, w, t.world, o, r.env); }
  }

  // ------------------------------------------------------------------ the runs

  lemma Enough(k: Error, some: set<Departure>, all: set<Departure>, o: Oracle, env: Env)
    requires Foreseen(k, some, o, env) && some <= all
    ensures Foreseen(k, all, o, env)
  {
  }

  /** A watched run whose names are all assigned in time departs only where the text says
      it might. */
  lemma {:induction false} RunForeseen(b: Block, c: Facts, all: set<Departure>, w: World, o: Oracle, r: Rules, fuel: nat)
    requires r.how.Watched? && !r.raw && Calm(c, w, o, r.env) && SurveyBlock(b, c.defined).demoted == {} && OwnsAll(Assigned(b), r.env)
    requires BlockRisks(b, r.env) <= all
    ensures ToldRun(ExecBlock(b, w, o, r, fuel), all, o, r.env)
    decreases fuel, BlockSize(b), 1
  {
    if b != [] {
      hide ExecStmt, SurveyStmt, StmtRisks, AssignedBy, Calm, Foreseen;
      StmtForeseen(b[0], c, all, w, o, r, fuel);
      CalmAfter(b[0], c, w, o, r, fuel);
      var y := ExecStmt(b[0], w, o, r, fuel);
      if y.Next? { RunForeseen(b[1..], c.(defined := SurveyStmt(b[0], c.defined).defined), all, y.world, o, r, fuel); }
    }
  }

  lemma {:induction false} StmtForeseen(s: Stmt, c: Facts, all: set<Departure>, w: World, o: Oracle, r: Rules, fuel: nat)
    requires r.how.Watched? && !r.raw && Calm(c, w, o, r.env) && SurveyStmt(s, c.defined).demoted == {} && OwnsAll(AssignedBy(s), r.env)
    requires StmtRisks(s, r.env) <= all
    ensures ToldRun(ExecStmt(s, w, o, r, fuel), all, o, r.env)
    decreases fuel, StmtSize(s), 0
  {
    hide Eval, Test, Slot, Range, ExecExpr, ExecAssign, ExecBlock, ExecElse, ExecRange, ExecEach, ExecWhile, Calm, Reads, SurveyBlock, SurveyArms,
      ExprRisks, SlotRisks, TestRisks, BindRisks, BlockRisks, ArmRisks, ArgRisks, PrintRisks, RangeRisks, CounterRisks, Assigned, AssignedInArms,
      Foreseen;
    match s.kind
    case Assign(x, e) => AssignForeseen(x, e, c, all, w, o, r);
    case AnnAssign(x, e, _) => AssignForeseen(x, e, c, all, w, o, r);
    case ExprStmt(e) => ExprForeseen(e, c, all, w, o, r);
    case Return(Some(e)) => ReturnForeseen(e, c, all, w, o, r);
    case If(cond, body, elifs, orelse) =>
      TestForeseen(cond, c, all, w, o, r);
      var t := Test(cond, w, o, r);
      if t.Holds? {
        if t.b { RunForeseen(body, c, all, t.world, o, r, fuel); } else { ElseForeseen(elifs, ElseOf(orelse), c, all, t.world, o, r, fuel); }
      }
    case While(cond, body) => WhileForeseen(cond, body, c, all, w, o, r, fuel);
    case For(x, start, end, step, body, _) => ForForeseen(s, c, all, w, o, r, fuel);
    case ForEach(x, iterable, body) => ForEachForeseen(s, c, all, w, o, r, fuel);
    case _ =>
  }

  lemma TestForeseen(cond: Expr, c: Facts, all: set<Departure>, w: World, o: Oracle, r: Rules)
    requires r.how.Watched? && Calm(c, w, o, r.env) && Reads(cond) - c.defined == {} && TestRisks(cond, r.env) <= all
    ensures var t := Test(cond, w, o, r); if t.Breaks? then Foreseen(t.error, all, o, r.env) else Calm(c, t.world, o, r.env)
  {
    hide Test, Calm, Reads, TestRisks, Foreseen, Ready;
    CalmReads(Reads(cond), c, w, o, r.env);
    TestTold(cond, w, o, r);
    CalmTested(cond, c, w, o, r);
    var t := Test(cond, w, o, r);
    if t.Breaks? { Enough(t.error, TestRisks(cond, r.env), all, o, r.env); }
  }

  lemma AssignForeseen(x: string, e: Expr, c: Facts, all: set<Departure>, w: World, o: Oracle, r: Rules)
    requires r.how.Watched? && Calm(c, w, o, r.env) && Reads(e) - c.defined == {} && BindRisks(x, e, r.env) <= all
    ensures ToldRun(ExecAssign(x, e, w, o, r), all, o, r.env)
  {
    hide Eval, Calm, Reads, ExprRisks, SurelyInt, Scalar, Ready, Promises;
    var r1 := r.At(x in r.env.typed && Scalar(e, r.env));
    CalmReads(Reads(e), c, w, o, r.env);
    ReadyProper(Reads(e), w, r.env);
    EvalTold(e, w, o, r1);
    SureValue(e, w, o, r1);
  }

  lemma ReturnForeseen(e: Expr, c: Facts, all: set<Departure>, w: World, o: Oracle, r: Rules)
    requires r.how.Watched? && Calm(c, w, o, r.env) && Reads(e) - c.defined == {} && SlotRisks(e, r.env.scalar, "return", r.env) <= all
    ensures ToldRun(ExecReturn(e, w, o, r), all, o, r.env)
  {
    hide Slot, Calm, Reads, SlotRisks, Ready, Promises;
    CalmReads(Reads(e), c, w, o, r.env);
    SlotTold(e, r.env.scalar, "return", w, o, r);
  }

  lemma ExprForeseen(e: Expr, c: Facts, all: set<Departure>, w: World, o: Oracle, r: Rules)
    requires r.how.Watched? && !r.raw && Calm(c, w, o, r.env) && Reads(e) - c.defined == {} && StmtRisks(AsStmt(ExprStmt(e)), r.env) <= all
    ensures ToldRun(ExecExpr(e, w, o, r), all, o, r.env)
  {
    CalmReads(Reads(e), c, w, o, r.env);
    hide Eval, Calm, ExecPrint, ExprRisks, ArgRisks, PrintRisks, Ready, Promises;
    if e.kind.Call? && e.kind.func == "print" { PrintTold(e.kind.args, w, o, r); } else { EvalTold(e, w, o, r.At(false)); }
  }

  lemma {:induction false} ElseForeseen(elifs: seq<Arm>, orelse: Block, c: Facts, all: set<Departure>, w: World, o: Oracle, r: Rules, fuel: nat)
    requires r.how.Watched? && !r.raw && Calm(c, w, o, r.env) && ArmRisks(elifs, r.env) + BlockRisks(orelse, r.env) <= all
    requires SurveyArms(elifs, c.defined) + SurveyBlock(orelse, c.defined).demoted == {} && OwnsAll(AssignedInArms(elifs) + Assigned(orelse), r.env)
    ensures ToldRun(ExecElse(elifs, orelse, w, o, r, fuel), all, o, r.env)
    decreases fuel, ArmsSize(elifs) + BlockSize(orelse), 2
  {
    hide Test, ExecBlock, Calm, Reads, SurveyBlock, TestRisks, BlockRisks, Assigned, Foreseen;
    if elifs == [] {
      RunForeseen(orelse, c, all, w, o, r, fuel);
    } else {
      TestForeseen(elifs[0].cond, c, all, w, o, r);
      var t := Test(elifs[0].cond, w, o, r);
      if t.Holds? {
        if t.b { RunForeseen(elifs[0].body, c, all, t.world, o, r, fuel); } else { ElseForeseen(elifs[1..], orelse, c, all, t.world, o, r, fuel); }
      }
    }
  }

  lemma {:induction false} WhileForeseen(cond: Expr, body: Block, c: Facts, all: set<Departure>, w: World, o: Oracle, r: Rules, fuel: nat)
    requires r.how.Watched? && !r.raw && Calm(c, w, o, r.env) && TestRisks(cond, r.env) + BlockRisks(body, r.env) <= all
    requires (Reads(cond) - c.defined) + SurveyBlock(body, c.defined).demoted == {} && OwnsAll(Assigned(body), r.env)
    ensures ToldRun(ExecWhile(cond, body, w, o, r, fuel), all, o, r.env)
    decreases fuel, BlockSize(body), 2
  {
    hide Test, ExecBlock, Calm, Reads, SurveyBlock, TestRisks, BlockRisks, Assigned, Foreseen;
    TestForeseen(cond, c, all, w, o, r);
    var t := Test(cond, w, o, r);
    if t.Holds? && t.b {
      RunForeseen(body, c, all, t.world, o, r, fuel);
      SameKept(w, t.world);
      CalmPass(body, c, c, w, t.world, o, r, fuel);
      var p := PassOf(ExecBlock(body, t.world, o, r, fuel));
      if p.Again? && fuel > 0 { WhileForeseen(cond, body, c, all, p.world, o, r, fuel - 1); }
    }
  }

  lemma {:induction false} ForForeseen(s: Stmt, c: Facts, all: set<Departure>, w: World, o: Oracle, r: Rules, fuel: nat)
    requires s.kind.For? && r.how.Watched? && !r.raw && Calm(c, w, o, r.env) && StmtRisks(s, r.env) <= all
    requires SurveyStmt(s, c.defined).demoted == {} && OwnsAll(AssignedBy(s), r.env)
    ensures ToldRun(ExecStmt(s, w, o, r, fuel), all, o, r.env)
    decreases fuel, BlockSize(s.kind.body), 4
  {
    hide Range, ExecRange, Calm, Reads, SurveyBlock, RangeRisks, CounterRisks, BlockRisks, Assigned, Foreseen, Ready, Stays;
    var For(x, start, end, step, body, _) := s.kind;
    var names := Reads(start) + Reads(end) + Reads(step);
    assert names - c.defined == {};
    CalmReads(names, c, w, o, r.env);
    CalmProper(c, w, o, r.env);
    RangeTold(start, end, step, w, o, r);
    RangeProper(start, end, step, w, o, r);
    RangeWorld(start, end, step, w, o, r);
    BoundsStay(start, end, step, w, o, r);
    var bounds := Range(start, end, step, w, o, r);
    if bounds.From? {
      CalmLater(c, w, bounds.world, o, r.env);
      CounterRisk(start, end, step, r.env);
      CountForeseen(x, bounds.first, bounds.end, bounds.step, body, c, all, bounds.world, o, r, fuel);
    } else {
      Enough(bounds.error, RangeRisks(start, end, step, r.env), all, o, r.env);
    }
  }

  lemma CounterRisk(start: Expr, end: Expr, step: Expr, env: Env)
    ensures CounterRisks(start, end, step, env) == {} || CounterWrap in CounterRisks(start, end, step, env)
  {
  }

  lemma RangeWorld(start: Expr, end: Expr, step: Expr, w: World, o: Oracle, r: Rules)
    requires r.how.Watched?
    ensures var bounds := Range(start, end, step, w, o, r); bounds.From? ==> bounds.world.vars == w.vars && bounds.world.globals == w.globals
  {
    hide CodeRange;
    PythonRangeWorld(start, end, step, w, o, r);
  }

  lemma PythonRangeWorld(start: Expr, end: Expr, step: Expr, w: World, o: Oracle, r: Rules)
    ensures var bounds := PythonRange(start, end, step, w, o, r); bounds.From? ==> bounds.world.vars == w.vars && bounds.world.globals == w.globals
  {
    hide Eval, Scalar, Unboxed;
  }

  lemma {:induction false} CountForeseen(x: string, i: int, end: int, step: int, body: Block, c: Facts, all: set<Departure>, w: World, o: Oracle,
                                         r: Rules, fuel: nat)
    requires r.how.Watched? && !r.raw && Calm(c, w, o, r.env) && BlockRisks(body, r.env) <= all
    requires step != 0 && Fits(i) && (Stays(i, end, step) || CounterWrap in all)
    requires SurveyBlock(body, c.defined + {x}).demoted == {} && OwnsAll({x} + Assigned(body), r.env)
    ensures ToldRun(ExecRange(x, i, end, step, body, w, o, r, fuel), all, o, r.env)
    decreases fuel, BlockSize(body), 2
  {
    hide ExecBlock, Calm, SurveyBlock, BlockRisks, Assigned, Last, Promises;
    if !Exhausted(i, end, step) {
      var d, u := c.And({x}), Bind(w, x, VInt(i));
      CalmBind(x, VInt(i), c, w, o, r.env);
      RunForeseen(body, d, all, u, o, r, fuel);
      CalmPass(body, c, d, w, u, o, r, fuel);
      LastStep(i, end, step);
      var p := PassOf(ExecBlock(body, u, o, r, fuel));
      if p.Again? && fuel > 0 && Fits(i + step) { CountForeseen(x, i + step, end, step, body, c, all, p.world, o, r, fuel - 1); }
    }
  }

  lemma {:induction false} ForEachForeseen(s: Stmt, c: Facts, all: set<Departure>, w: World, o: Oracle, r: Rules, fuel: nat)
    requires s.kind.ForEach? && r.how.Watched? && !r.raw && Calm(c, w, o, r.env) && StmtRisks(s, r.env) <= all
    requires SurveyStmt(s, c.defined).demoted == {} && OwnsAll(AssignedBy(s), r.env)
    ensures ToldRun(ExecStmt(s, w, o, r, fuel), all, o, r.env)
    decreases fuel, BlockSize(s.kind.body), 4
  {
    hide Eval, ExecEach, Calm, SurveyBlock, ExprRisks, BlockRisks, Assigned, Reads, Promises, Ready;
    var ForEach(x, iterable, body) := s.kind;
    CalmReads(Reads(iterable), c, w, o, r.env);
    EvalTold(iterable, w, o, r.At(false));
    var v := Eval(iterable, w, o, r.At(false));
    if v.Ok? && v.value.VList? {
      CalmEvaluated(iterable, c, w, o, r.At(false));
      EachForeseen(x, v.value.at, 0, body, c, all, v.world, o, r, fuel);
    }
  }

  lemma {:induction false} EachForeseen(x: string, at: nat, i: nat, body: Block, c: Facts, all: set<Departure>, w: World, o: Oracle,
                                        r: Rules, fuel: nat)
    requires r.how.Watched? && !r.raw && Calm(c, w, o, r.env) && BlockRisks(body, r.env) <= all && (x in r.env.ints ==> Mistyped(x) in all)
    requires SurveyBlock(body, c.defined + {x}).demoted == {} && OwnsAll({x} + Assigned(body), r.env)
    ensures ToldRun(ExecEach(x, at, i, body, w, o, r, fuel), all, o, r.env)
    decreases fuel, BlockSize(body), 2
  {
    hide ExecBlock, Calm, SurveyBlock, BlockRisks, Assigned, Promises;
    if i < |Items(w.heap, at)| {
      var v := Items(w.heap, at)[i];
      if Bound(x, v, w, r).Ok? {
        var d, u := c.And({x}), Bind(w, x, v);
        assert ProperValue(v) by { CalmProper(c, w, o, r.env); }
        CalmBind(x, v, c, w, o, r.env);
        RunForeseen(body, d, all, u, o, r, fuel);
        CalmPass(body, c, d, w, u, o, r, fuel);
        var p := PassOf(ExecBlock(body, u, o, r, fuel));
        if p.Again? && fuel > 0 { EachForeseen(x, at, i + 1, body, c, all, p.world, o, r, fuel - 1); }
      }
    }
  }
}
