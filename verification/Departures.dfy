/** Python and the compiled code, compared: a watched run that does not stop is both of
    them, and one that stops has printed no more than either. */
module Departures {
  import opened Syntax
  import opened Values
  import opened MachineIntegers
  import opened SlotChoice
  import opened PythonSemantics

  function Watching(env: Env, raw: bool): Rules { Rules(Watched, env, raw) }

  // ------------------------------------------------------------- expressions

  predicate Departed(v: Evaluated) { v.Fail? && v.error.Departs? }

  /** What a watched computation says about another one: the same, unless it stops. */
  predicate Leads(watched: Evaluated, v: Evaluated) {
    if Departed(watched) then watched.out <= OutOf(v) else v == watched
  }

  predicate LeadsAll(watched: EvaluatedAll, v: EvaluatedAll) {
    if watched.Fails? && watched.error.Departs? then watched.out <= (if v.Oks? then v.world.out else v.out) else v == watched
  }

  predicate LeadsTest(watched: Tested, t: Tested) {
    if watched.Breaks? && watched.error.Departs? then watched.out <= (if t.Holds? then t.world.out else t.out) else t == watched
  }

  lemma Prefixes(a: seq<Token>, b: seq<Token>, c: seq<Token>)
    requires a <= b <= c
    ensures a <= c
  {
  }

  /** What follows a step that was left keeps what was printed. */
  lemma StillLeads(watched: Evaluated, first: seq<Token>, v: Evaluated)
    requires Departed(watched) && watched.out <= first <= OutOf(v)
    ensures Leads(watched, v)
  {
  }

  lemma ReadLeads(x: string, w: World, env: Env, raw: bool, how: How)
    ensures Leads(Read(x, w, Watching(env, raw)), Read(x, w, Rules(how, env, raw)))
  {
  }

  lemma NegateLeads(v: Value, w: World, env: Env, raw: bool, how: How)
    ensures Leads(Counted(Negate(v, Watching(env, raw)), w), Counted(Negate(v, Rules(how, env, raw)), w))
  {
  }

  lemma AskLeads(f: string, vs: seq<Value>, w: World, o: Oracle, env: Env, raw: bool, how: How)
    ensures Ask(f, vs, w, o, Rules(how, env, raw)) == Ask(f, vs, w, o, Watching(env, raw)) && !Departed(Ask(f, vs, w, o, Watching(env, raw)))
  {
  }

  lemma BinaryLeads(op: BinOp, a: Value, b: Value, w: World, o: Oracle, env: Env, raw: bool, how: How)
    ensures Leads(Binary(op, a, b, w, o, Watching(env, raw)), Binary(op, a, b, w, o, Rules(how, env, raw)))
  {
    hide Plain, Ask, Ordering;
    AskLeads("+", [a, b], w, o, env, raw, how);
    AskLeads("*", [a, b], w, o, env, raw, how);
    AskLeads("==", [a, b], w, o, env, raw, how);
  }

  lemma CoercedLeads(v: Value, lapse: Departure, w: World, env: Env, raw: bool, how: How)
    ensures Leads(Coerced(v, lapse, w, Watching(env, raw)), Coerced(v, lapse, w, Rules(how, env, raw)))
  {
  }

  lemma CalledLeads(f: string, watched: EvaluatedAll, args: EvaluatedAll, o: Oracle, env: Env, raw: bool, how: How)
    requires LeadsAll(watched, args)
    ensures Leads(Called(f, watched, o, Watching(env, raw)), Called(f, args, o, Rules(how, env, raw)))
  {
    hide Ask, Coerced, Len;
    if watched.Oks? {
      AskLeads(f, watched.values, watched.world, o, env, raw, how);
      var v := Ask(f, watched.values, watched.world, o, Watching(env, raw));
      if v.Ok? { CoercedLeads(v.value, Unkept(f), v.world, env, raw, how); }
    } else if watched.error.Departs? {
      StillLeads(Fail(watched.error, watched.out), if args.Oks? then args.world.out else args.out, Called(f, args, o, Rules(how, env, raw)));
    }
  }

  lemma SentLeads(l: Value, m: string, n: nat, watched: EvaluatedAll, args: EvaluatedAll, before: World, w: World, o: Oracle, env: Env,
                  raw: bool, how: How)
    requires LeadsAll(watched, args) && (watched.Oks? ==> |watched.values| == n) && (args.Oks? ==> |args.values| == n)
    requires before.out <= w.out <= (if watched.Oks? then watched.world.out else watched.out)
    requires w.out <= (if args.Oks? then args.world.out else args.out)
    ensures Leads(Sent(l, m, n, watched, before, w, o, Watching(env, raw)), Sent(l, m, n, args, before, w, o, Rules(how, env, raw)))
  {
    hide Ask, Appended;
    if m == "append" && n == 1 {
      var a := match watched case Oks(vs, u) => Appended(l, vs[0], u) case Fails(k, out) => Fail(k, out);
      var b := match args case Oks(vs, u) => Appended(l, vs[0], u) case Fails(k, out) => Fail(k, out);
      AppendedGrows(l, watched);
      AppendedGrows(l, args);
      AppendedFair(l, watched);
      assert Leads(a, b);
      LookedUpLeads(l, a, b, before, w, env, raw, how);
    } else if watched.Oks? {
      AskLeads("." + m, [l] + watched.values, watched.world, o, env, raw, how);
    }
  }

  lemma AppendedGrows(l: Value, args: EvaluatedAll)
    ensures args.Oks? && |args.values| == 1 ==> args.world.out <= OutOf(Appended(l, args.values[0], args.world))
  {
  }

  lemma AppendedFair(l: Value, args: EvaluatedAll)
    ensures args.Oks? && |args.values| == 1 ==> !Departed(Appended(l, args.values[0], args.world))
  {
  }

  lemma LookedUpLeads(l: Value, a: Evaluated, b: Evaluated, before: World, w: World, env: Env, raw: bool, how: How)
    requires Leads(a, b) && before.out <= w.out <= OutOf(a) && w.out <= OutOf(b)
    ensures Leads(LookedUp(l, a, before, w, Watching(env, raw)), LookedUp(l, b, before, w, Rules(how, env, raw)))
  {
  }

  lemma {:induction false} EvalLeads(e: Expr, w: World, o: Oracle, env: Env, raw: bool, how: How)
    ensures Leads(Eval(e, w, o, Watching(env, raw)), Eval(e, w, o, Rules(how, env, raw)))
    decreases e, 0
  {
    hide ConstInt, Binary, Called, Sent, Negate, EvalAll, Test, Read, Narrow, Rules.At;
    if ConstInt(e).None? {
      var rw, r := Watching(env, raw), Rules(how, env, raw);
      Unraw(env, raw, how);
      match e.kind {
        case Name(x) => ReadLeads(x, w, env, raw, how);
        case Unary(Neg, i) =>
          EvalLeads(i, w, o, env, raw, how);
          var a := Eval(i, w, o, rw);
          if a.Ok? { NegateLeads(a.value, a.world, env, raw, how); }
        case Unary(Not, i) => TestLeads(i, w, o, env, raw, how);
        case Bin(op, a, b) =>
          EvalLeads(a, w, o, env, raw, how);
          var x := Eval(a, w, o, rw);
          if x.Ok? { EvalLeads(b, x.world, o, env, raw, how); }
          BinLeads(e, op, a, b, w, o, env, raw, how);
        case Call(f, args) =>
          AllLeads(args, RawParams(f, env.sigs), f, w, o, env, raw, how);
          CalledLeads(f, EvalAll(args, RawParams(f, env.sigs), f, w, o, rw), EvalAll(args, RawParams(f, env.sigs), f, w, o, r), o, env, raw, how);
        case MethodCall(obj, m, args) =>
          EvalLeads(obj, w, o, env, false, how);
          var l := Eval(obj, w, o, Watching(env, false));
          if l.Ok? { AllLeads(args, [], m, l.world, o, env, raw, how); }
          MethodLeads(e, obj, m, args, w, o, env, raw, how);
        case _ =>
      }
    }
  }

  lemma BinLeads(e: Expr, op: BinOp, a: Expr, b: Expr, w: World, o: Oracle, env: Env, raw: bool, how: How)
    requires e.kind == Bin(op, a, b) && Leads(Eval(a, w, o, Watching(env, raw)), Eval(a, w, o, Rules(how, env, raw)))
    requires var x := Eval(a, w, o, Watching(env, raw));
      x.Ok? ==> Leads(Eval(b, x.world, o, Watching(env, raw)), Eval(b, x.world, o, Rules(how, env, raw)))
    ensures Leads(Eval(e, w, o, Watching(env, raw)), Eval(e, w, o, Rules(how, env, raw)))
  {
    hide Binary;
    var rw, r := Watching(env, raw), Rules(how, env, raw);
    var x, y := Eval(a, w, o, rw), Eval(a, w, o, r);
    if x.Ok? {
      var u, v := Eval(b, x.world, o, rw), Eval(b, x.world, o, r);
      if u.Ok? { BinaryLeads(op, x.value, u.value, u.world, o, env, raw, how); }
      else if Departed(u) { StillLeads(u, OutOf(v), Eval(e, w, o, r)); }
    } else if Departed(x) {
      StillLeads(x, OutOf(y), Eval(e, w, o, r));
    }
  }

  lemma MethodLeads(e: Expr, obj: Expr, m: string, args: seq<Expr>, w: World, o: Oracle, env: Env, raw: bool, how: How)
    requires e.kind == MethodCall(obj, m, args) && Leads(Eval(obj, w, o, Watching(env, false)), Eval(obj, w, o, Rules(how, env, false)))
    requires var l := Eval(obj, w, o, Watching(env, false));
      l.Ok? ==> LeadsAll(EvalAll(args, [], m, l.world, o, Watching(env, raw)), EvalAll(args, [], m, l.world, o, Rules(how, env, raw)))
    ensures Leads(Eval(e, w, o, Watching(env, raw)), Eval(e, w, o, Rules(how, env, raw)))
  {
    hide Sent, EvalAll;
    var rw, r := Watching(env, raw), Rules(how, env, raw);
    var l, k := Eval(obj, w, o, Watching(env, false)), Eval(obj, w, o, Rules(how, env, false));
    if l.Ok? {
      SentLeads(l.value, m, |args|, EvalAll(args, [], m, l.world, o, rw), EvalAll(args, [], m, l.world, o, r), w, l.world, o, env, raw, how);
    } else if Departed(l) && !how.Watched? {
      if k.Ok? { SentGrows(k.value, m, |args|, EvalAll(args, [], m, k.world, o, r), w, k.world, o, r); }
      StillLeads(l, OutOf(k), Eval(e, w, o, r));
    }
  }

  lemma SentGrows(l: Value, m: string, n: nat, args: EvaluatedAll, before: World, w: World, o: Oracle, r: Rules)
    requires !r.how.Watched? && (args.Oks? ==> |args.values| == n) && w.out <= OutOfAll(args)
    ensures w.out <= OutOf(Sent(l, m, n, args, before, w, o, r))
  {
    hide Ask;
  }

  lemma Unraw(env: Env, raw: bool, how: How)
    ensures forall b :: Watching(env, raw).At(b) == Watching(env, b) && Rules(how, env, raw).At(b) == Rules(how, env, b)
  {
  }

  lemma {:induction false} AllLeads(es: seq<Expr>, raws: seq<bool>, f: string, w: World, o: Oracle, env: Env, raw: bool, how: How)
    ensures LeadsAll(EvalAll(es, raws, f, w, o, Watching(env, raw)), EvalAll(es, raws, f, w, o, Rules(how, env, raw)))
    decreases es, 2
  {
    hide Slot;
    if es != [] {
      var first, rest := raws != [] && raws[0], if raws == [] then [] else raws[1..];
      SlotLeads(es[0], first, f, w, o, env, raw, how);
      var a, b := Slot(es[0], first, f, w, o, Watching(env, raw)), Slot(es[0], first, f, w, o, Rules(how, env, raw));
      if a.Ok? { AllLeads(es[1..], rest, f, a.world, o, env, raw, how); }
      else if Departed(a) && b.Ok? { Prefixes(a.out, b.world.out, OutOfAll(EvalAll(es[1..], rest, f, b.world, o, Rules(how, env, raw)))); }
    }
  }

  function OutOfAll(v: EvaluatedAll): seq<Token> { if v.Oks? then v.world.out else v.out }

  lemma {:induction false} SlotLeads(e: Expr, raws: bool, f: string, w: World, o: Oracle, env: Env, raw: bool, how: How)
    ensures Leads(Slot(e, raws, f, w, o, Watching(env, raw)), Slot(e, raws, f, w, o, Rules(how, env, raw)))
    decreases e, 1
  {
    hide Eval, Scalar, Rules.At;
    var flag := raws && Scalar(e, env);
    Unraw(env, raw, how);
    EvalLeads(e, w, o, env, flag, how);
    var a := Eval(e, w, o, Watching(env, flag));
    if a.Ok? { CoercedLeads(a.value, Misfit(f), a.world, env, raw, how); }
    else if Departed(a) { StillLeads(a, OutOf(Eval(e, w, o, Rules(how, env, flag))), Slot(e, raws, f, w, o, Rules(how, env, raw))); }
  }

  /** One boxed argument. */
  lemma OneArgument(args: seq<Expr>, f: string, w: World, o: Oracle, r: Rules)
    requires |args| == 1
    ensures var v := Eval(args[0], w, o, r.At(false));
      EvalAll(args, [], f, w, o, r) == if v.Ok? then Oks([v.value], v.world) else Fails(v.error, v.out)
  {
    hide Eval;
    assert args[1..] == [];
    assert EvalAll(args[1..], [], f, w, o, r) == Oks([], w);
    var v := Eval(args[0], w, o, r.At(false));
    assert Slot(args[0], false, f, w, o, r) == v;
    if v.Ok? { assert EvalAll(args[1..], [], f, v.world, o, r) == Oks([], v.world); }
  }

  lemma {:induction false} TestLeads(e: Expr, w: World, o: Oracle, env: Env, raw: bool, how: How)
    ensures LeadsTest(Test(e, w, o, Watching(env, raw)), Test(e, w, o, Rules(how, env, raw)))
    decreases e, 3
  {
    hide Eval, TestsRaw, Rules.At;
    if e.kind.Unary? && e.kind.op == Not {
      TestLeads(e.kind.operand, w, o, env, raw, how);
    } else {
      Unraw(env, raw, how);
      EvalLeads(e, w, o, env, TestsRaw(e, env), how);
      var a, b := Eval(e, w, o, Watching(env, TestsRaw(e, env))), Eval(e, w, o, Rules(how, env, TestsRaw(e, env)));
      if a.Ok? { TruthSpeaks(a.value, a.world); }
      else if Departed(a) && b.Ok? { TruthSpeaks(b.value, b.world); }
    }
  }

  lemma TruthSpeaks(v: Value, w: World)
    ensures var t := Truthy(v, w); if t.Holds? then t.world == w else t.out == w.out && !t.error.Departs?
  {
  }

  // -------------------------------------------------------------- statements

  predicate Leaves(y: Outcome) { y.Stopped? && y.error.Departs? }

  /** A watched run that is left has printed no more than the other run; any other is it. */
  predicate Tracks(watched: Outcome, y: Outcome) {
    if Leaves(watched) then Out(watched) <= Out(y) else y == watched
  }

  lemma StillTracks(watched: Outcome, first: seq<Token>, y: Outcome)
    requires Leaves(watched) && Out(watched) <= first <= Out(y)
    ensures Tracks(watched, y)
  {
  }

  // ----------------------------------------------------------- the comparison

  /** The watched run of a block, of which every raw name is one that holds whole numbers,
      against a run under other rules. */
  lemma {:induction false} WatchedRun(b: Block, w: World, o: Oracle, env: Env, how: How, fuel: nat)
    requires env.typed <= env.ints
    ensures Tracks(ExecBlock(b, w, o, Watching(env, false), fuel), ExecBlock(b, w, o, Rules(how, env, false), fuel))
    decreases fuel, BlockSize(b), 1
  {
    if b != [] {
      hide ExecStmt;
      StmtTracks(b[0], w, o, env, how, fuel);
      var x, y := ExecStmt(b[0], w, o, Watching(env, false), fuel), ExecStmt(b[0], w, o, Rules(how, env, false), fuel);
      if x.Next? { WatchedRun(b[1..], x.world, o, env, how, fuel); }
      else if Leaves(x) && y.Next? {
        StillTracks(x, y.world.out, ExecBlock(b, w, o, Rules(how, env, false), fuel));
      }
    }
  }

  lemma {:induction false} StmtTracks(s: Stmt, w: World, o: Oracle, env: Env, how: How, fuel: nat)
    requires env.typed <= env.ints
    ensures Tracks(ExecStmt(s, w, o, Watching(env, false), fuel), ExecStmt(s, w, o, Rules(how, env, false), fuel))
    decreases fuel, StmtSize(s), 0
  {
    hide Eval, Test, Slot, Range, ExecExpr, ExecBlock, ExecElse, ExecRange, ExecEach, ExecWhile, Bound, Scalar;
    var rw, r := Watching(env, false), Rules(how, env, false);
    match s.kind
    case Assign(x, e) => AssignTracks(x, e, w, o, env, how);
    case AnnAssign(x, e, _) => AssignTracks(x, e, w, o, env, how);
    case ExprStmt(e) => ExprTracks(e, w, o, env, how);
    case Return(Some(e)) => SlotLeads(e, env.scalar, "return", w, o, env, false, how);
    case If(c, body, elifs, orelse) =>
      TestLeads(c, w, o, env, false, how);
      var t, u := Test(c, w, o, rw), Test(c, w, o, r);
      if t.Holds? {
        if t.b { WatchedRun(body, t.world, o, env, how, fuel); } else { ElseTracks(elifs, ElseOf(orelse), t.world, o, env, how, fuel); }
      } else if t.error.Departs? && u.Holds? {
        StillTracks(Stopped(t.error, t.out), u.world.out, ExecStmt(s, w, o, r, fuel));
      }
    case While(c, body) => WhileTracks(c, body, w, o, env, how, fuel);
    case For(x, start, end, step, body, _) => ForTracks(s, w, o, env, how, fuel);
    case ForEach(x, iterable, body) => ForEachTracks(s, w, o, env, how, fuel);
    case _ =>
  }

  lemma AssignTracks(x: string, e: Expr, w: World, o: Oracle, env: Env, how: How)
    requires env.typed <= env.ints
    ensures Tracks(ExecAssign(x, e, w, o, Watching(env, false)), ExecAssign(x, e, w, o, Rules(how, env, false)))
  {
    hide Eval, Scalar, Rules.At;
    var flag := x in env.typed && Scalar(e, env);
    Unraw(env, false, how);
    EvalLeads(e, w, o, env, flag, how);
    var a, b := Eval(e, w, o, Watching(env, flag)), Eval(e, w, o, Rules(how, env, flag));
    if Departed(a) && b.Ok? {
      BoundGrows(x, b.value, b.world, Rules(how, env, false));
      StillTracks(Stopped(a.error, a.out), b.world.out, ExecAssign(x, e, w, o, Rules(how, env, false)));
    }
  }

  lemma BoundGrows(x: string, v: Value, w: World, r: Rules)
    ensures var b := Bound(x, v, w, r); if b.Ok? then b.world == w else b.out == w.out
  {
  }

  lemma ExprTracks(e: Expr, w: World, o: Oracle, env: Env, how: How)
    ensures Tracks(ExecExpr(e, w, o, Watching(env, false)), ExecExpr(e, w, o, Rules(how, env, false)))
  {
    hide Eval, PrintAll, PrintEach;
    if e.kind.Call? && e.kind.func == "print" {
      PrintTracks(e.kind.args, w, o, env, how);
    } else {
      EvalLeads(e, w, o, env, false, how);
    }
  }

  lemma PrintTracks(args: seq<Expr>, w: World, o: Oracle, env: Env, how: How)
    ensures Tracks(ExecPrint(args, w, o, Watching(env, false)), ExecPrint(args, w, o, Rules(how, env, false)))
  {
    hide PrintAll, PrintEach;
    PrintAllTracks(args, w, o, env, how);
    PrintEachTracks(args, w, o, env, how);
  }

  lemma PrintAllTracks(args: seq<Expr>, w: World, o: Oracle, env: Env, how: How)
    ensures Tracks(PrintAll(args, w, o, Watching(env, false)), PrintAll(args, w, o, Rules(how, env, false)))
  {
    hide EvalAll;
    AllLeads(args, [], "print", w, o, env, false, how);
    var a, b := EvalAll(args, [], "print", w, o, Watching(env, false)), EvalAll(args, [], "print", w, o, Rules(how, env, false));
    if a.Fails? && a.error.Departs? && b.Oks? {
      StillTracks(Stopped(a.error, a.out), b.world.out, PrintAll(args, w, o, Rules(how, env, false)));
    }
  }

  lemma {:induction false} PrintEachTracks(args: seq<Expr>, w: World, o: Oracle, env: Env, how: How)
    ensures Tracks(PrintEach(args, w, o, Watching(env, false)), PrintEach(args, w, o, Rules(how, env, false)))
    decreases |args|
  {
    hide Eval;
    if args != [] {
      EvalLeads(args[0], w, o, env, false, how);
      var a, b := Eval(args[0], w, o, Watching(env, false)), Eval(args[0], w, o, Rules(how, env, false));
      if a.Ok? {
        var u := Printed(a.value, a.world);
        if u.Ok? { PrintEachTracks(args[1..], if |args| == 1 then u.world else Put(u.world, Space), o, env, how); }
      } else if Departed(a) && b.Ok? {
        StillTracks(Stopped(a.error, a.out), b.world.out, PrintEach(args, w, o, Rules(how, env, false)));
      }
    }
  }

  lemma {:induction false} ElseTracks(elifs: seq<Arm>, orelse: Block, w: World, o: Oracle, env: Env, how: How, fuel: nat)
    requires env.typed <= env.ints
    ensures Tracks(ExecElse(elifs, orelse, w, o, Watching(env, false), fuel), ExecElse(elifs, orelse, w, o, Rules(how, env, false), fuel))
    decreases fuel, ArmsSize(elifs) + BlockSize(orelse), 2
  {
    hide Test, ExecBlock;
    var rw, r := Watching(env, false), Rules(how, env, false);
    if elifs == [] {
      WatchedRun(orelse, w, o, env, how, fuel);
    } else {
      TestLeads(elifs[0].cond, w, o, env, false, how);
      var t, u := Test(elifs[0].cond, w, o, rw), Test(elifs[0].cond, w, o, r);
      if t.Holds? {
        if t.b { WatchedRun(elifs[0].body, t.world, o, env, how, fuel); } else { ElseTracks(elifs[1..], orelse, t.world, o, env, how, fuel); }
      } else if t.error.Departs? && u.Holds? {
        StillTracks(Stopped(t.error, t.out), u.world.out, ExecElse(elifs, orelse, w, o, r, fuel));
      }
    }
  }

  /** How a pass that was left compares. */
  lemma PassTracks(x: Outcome, y: Outcome)
    requires Tracks(x, y)
    ensures Leaves(x) ==> PassOf(x) == Done(x) && Out(x) <= (if PassOf(y).Again? then PassOf(y).world.out else Out(PassOf(y).outcome))
    ensures !Leaves(x) ==> PassOf(y) == PassOf(x)
  {
  }

  lemma {:induction false} WhileTracks(c: Expr, body: Block, w: World, o: Oracle, env: Env, how: How, fuel: nat)
    requires env.typed <= env.ints
    ensures Tracks(ExecWhile(c, body, w, o, Watching(env, false), fuel), ExecWhile(c, body, w, o, Rules(how, env, false), fuel))
    decreases fuel, BlockSize(body), 2
  {
    hide Test, ExecBlock, PassOf;
    var rw, r := Watching(env, false), Rules(how, env, false);
    TestLeads(c, w, o, env, false, how);
    var t, u := Test(c, w, o, rw), Test(c, w, o, r);
    if t.Holds? {
      if t.b {
        WatchedRun(body, t.world, o, env, how, fuel);
        var x, y := ExecBlock(body, t.world, o, rw, fuel), ExecBlock(body, t.world, o, r, fuel);
        PassTracks(x, y);
        var p, q := PassOf(x), PassOf(y);
        if Leaves(x) {
          StillTracks(x, if q.Again? then q.world.out else Out(q.outcome), ExecWhile(c, body, w, o, r, fuel));
        } else if p.Again? && fuel > 0 {
          WhileTracks(c, body, p.world, o, env, how, fuel - 1);
        }
      }
    } else if t.error.Departs? {
      if u.Holds? { WhileGoesOn(c, body, u, w, o, r, fuel); }
      StillTracks(Stopped(t.error, t.out), if u.Holds? then u.world.out else u.out, ExecWhile(c, body, w, o, r, fuel));
    }
  }

  lemma WhileGoesOn(c: Expr, body: Block, t: Tested, w: World, o: Oracle, r: Rules, fuel: nat)
    requires t == Test(c, w, o, r) && t.Holds?
    ensures t.world.out <= Out(ExecWhile(c, body, w, o, r, fuel))
  {
    hide Test, ExecBlock;
  }

  predicate LeadsBounds(watched: Bounds, b: Bounds) {
    if watched.Unbounded? && watched.error.Departs? then watched.out <= OutOfBounds(b) else b == watched
  }

  lemma PythonRangeLeads(start: Expr, end: Expr, step: Expr, w: World, o: Oracle, env: Env, how: How)
    ensures LeadsBounds(PythonRange(start, end, step, w, o, Watching(env, false)), PythonRange(start, end, step, w, o, Rules(how, env, false)))
  {
    hide Eval, Scalar, Rules.At, Unboxed;
    Unraw(env, false, how);
    EvalLeads(start, w, o, env, Scalar(start, env), how);
    var a := Eval(start, w, o, Watching(env, Scalar(start, env)));
    if a.Ok? {
      EvalLeads(end, a.world, o, env, Scalar(end, env), how);
      var b := Eval(end, a.world, o, Watching(env, Scalar(end, env)));
      if b.Ok? { EvalLeads(step, b.world, o, env, false, how); }
    }
  }

  lemma NumeralLeads(e: Expr, w: World, o: Oracle, env: Env, how: How)
    ensures Leads(Numeral(e, w, o, Watching(env, false)), Numeral(e, w, o, Rules(how, env, false)))
  {
    hide Eval, Scalar, Rules.At;
    Unraw(env, false, how);
    EvalLeads(e, w, o, env, Scalar(e, env), how);
  }

  lemma CodeRangeLeads(start: Expr, end: Expr, step: Expr, w: World, o: Oracle, env: Env, how: How)
    ensures LeadsBounds(CodeRange(start, end, step, w, o, Watching(env, false)), CodeRange(start, end, step, w, o, Rules(how, env, false)))
  {
    hide Numeral, ConstInt;
    NumeralLeads(start, w, o, env, how);
    NumeralLeads(end, w, o, env, how);
    var b, c := Numeral(end, w, o, Watching(env, false)), Numeral(end, w, o, Rules(how, env, false));
    if b.Ok? { NumeralLeads(start, b.world, o, env, how); }
  }

  lemma RangeLeads(start: Expr, end: Expr, step: Expr, w: World, o: Oracle, env: Env, how: How)
    ensures LeadsBounds(Range(start, end, step, w, o, Watching(env, false)), Range(start, end, step, w, o, Rules(how, env, false)))
  {
    hide PythonRange, CodeRange;
    PythonRangeLeads(start, end, step, w, o, env, how);
    CodeRangeLeads(start, end, step, w, o, env, how);
  }

  lemma {:induction false} ForTracks(s: Stmt, w: World, o: Oracle, env: Env, how: How, fuel: nat)
    requires s.kind.For? && env.typed <= env.ints
    ensures Tracks(ExecStmt(s, w, o, Watching(env, false), fuel), ExecStmt(s, w, o, Rules(how, env, false), fuel))
    decreases fuel, BlockSize(s.kind.body), 4
  {
    hide Range, ExecRange;
    var For(x, start, end, step, body, _) := s.kind;
    var rw, r := Watching(env, false), Rules(how, env, false);
    RangeLeads(start, end, step, w, o, env, how);
    var a, b := Range(start, end, step, w, o, rw), Range(start, end, step, w, o, r);
    if a.From? {
      CountTracks(x, a.first, a.end, a.step, body, a.world, o, env, how, fuel);
    } else if a.error.Departs? && b.From? {
      StillTracks(Stopped(a.error, a.out), b.world.out, ExecStmt(s, w, o, r, fuel));
    }
  }

  /** Only a counter that leaves 32 bits is stepped differently. */
  lemma SteppedLeads(c: int, step: int, env: Env, how: How)
    ensures Stepped(c, step, Watching(env, false)).Num? ==> Stepped(c, step, Rules(how, env, false)) == Stepped(c, step, Watching(env, false))
    ensures Stepped(c, step, Watching(env, false)).NoNum? ==> Stepped(c, step, Watching(env, false)).error == Departs(CounterWrap)
  {
    hide Wrap;
    WrapExact(c + step, 0x8000_0000);
  }

  lemma {:induction false} CountTracks(x: string, c: int, end: int, step: int, body: Block, w: World, o: Oracle, env: Env, how: How, fuel: nat)
    requires env.typed <= env.ints
    ensures Tracks(ExecRange(x, c, end, step, body, w, o, Watching(env, false), fuel), ExecRange(x, c, end, step, body, w, o, Rules(how,
      env, false), fuel))
    decreases fuel, BlockSize(body), 2
  {
    hide ExecBlock, PassOf, Exhausted, Stepped;
    var rw, r := Watching(env, false), Rules(how, env, false);
    if !Exhausted(c, end, step) {
      var w1 := Bind(w, x, VInt(c));
      WatchedRun(body, w1, o, env, how, fuel);
      var y, z := ExecBlock(body, w1, o, rw, fuel), ExecBlock(body, w1, o, r, fuel);
      PassTracks(y, z);
      SteppedLeads(c, step, env, how);
      var p, q, d, e := PassOf(y), PassOf(z), Stepped(c, step, rw), Stepped(c, step, r);
      if Leaves(y) {
        StillTracks(y, if q.Again? then q.world.out else Out(q.outcome), ExecRange(x, c, end, step, body, w, o, r, fuel));
      } else if p.Again? && d.NoNum? {
        StillTracks(Stopped(d.error, p.world.out), q.world.out, ExecRange(x, c, end, step, body, w, o, r, fuel));
      } else if p.Again? && fuel > 0 {
        CountTracks(x, d.n, end, step, body, p.world, o, env, how, fuel - 1);
      }
    }
  }

  lemma {:induction false} ForEachTracks(s: Stmt, w: World, o: Oracle, env: Env, how: How, fuel: nat)
    requires s.kind.ForEach? && env.typed <= env.ints
    ensures Tracks(ExecStmt(s, w, o, Watching(env, false), fuel), ExecStmt(s, w, o, Rules(how, env, false), fuel))
    decreases fuel, BlockSize(s.kind.body), 4
  {
    hide Eval, ExecEach;
    var ForEach(x, iterable, body) := s.kind;
    EvalLeads(iterable, w, o, env, false, how);
    var a, b := Eval(iterable, w, o, Watching(env, false)), Eval(iterable, w, o, Rules(how, env, false));
    if a.Ok? {
      if a.value.VList? { EachTracks(x, a.value.at, 0, body, a.world, o, env, how, fuel); }
    } else if Departed(a) && b.Ok? {
      StillTracks(Stopped(a.error, a.out), b.world.out, ExecStmt(s, w, o, Rules(how, env, false), fuel));
    }
  }

  lemma {:induction false} EachTracks(x: string, at: nat, i: nat, body: Block, w: World, o: Oracle, env: Env, how: How, fuel: nat)
    requires env.typed <= env.ints
    ensures Tracks(ExecEach(x, at, i, body, w, o, Watching(env, false), fuel), ExecEach(x, at, i, body, w, o, Rules(how, env, false), fuel))
    decreases fuel, BlockSize(body), 2
  {
    hide ExecBlock, PassOf, Items;
    var rw, r := Watching(env, false), Rules(how, env, false);
    if i < |Items(w.heap, at)| {
      var v := Bound(x, Items(w.heap, at)[i], w, rw);
      if v.Ok? {
        assert Bound(x, Items(w.heap, at)[i], w, r) == v;
        var w1 := Bind(w, x, v.value);
        WatchedRun(body, w1, o, env, how, fuel);
        var y, z := ExecBlock(body, w1, o, rw, fuel), ExecBlock(body, w1, o, r, fuel);
        PassTracks(y, z);
        var p, q := PassOf(y), PassOf(z);
        if Leaves(y) {
          StillTracks(y, if q.Again? then q.world.out else Out(q.outcome), ExecEach(x, at, i, body, w, o, r, fuel));
        } else if p.Again? && fuel > 0 {
          EachTracks(x, at, i + 1, body, p.world, o, env, how, fuel - 1);
        }
      }
    }
  }
}
