/** The analysis behind raw slots (src/codegen.rs): which names might be read before they
    are assigned, and why no run reads any other name too early. */
module DefiniteAssignment {
  import opened Syntax
  import opened Values
  import opened MachineIntegers
  import opened SlotChoice
  import opened PythonSemantics

  // ------------------------------------------------------------ the analysis

  /** The names an expression reads. */
  function Reads(e: Expr): set<string> {
    match e.kind
    case Name(x) => {x}
    case Unary(_, i) => Reads(i)
    case Bin(_, a, b) => Reads(a) + Reads(b)
    case Call(_, args) => ReadsAll(args)
    case MethodCall(obj, _, args) => Reads(obj) + ReadsAll(args)
    case _ => {}
  }

  function ReadsAll(es: seq<Expr>): set<string> {
    if es == [] then {} else Reads(es[0]) + ReadsAll(es[1..])
  }

  /** `defined`: names assigned on every path so far; `demoted`: names read outside it. */
  datatype Survey = Survey(defined: set<string>, demoted: set<string>)

  function SurveyBlock(b: Block, defined: set<string>): Survey
    decreases BlockSize(b), 1
  {
    if b == [] then Survey(defined, {})
    else
      var first := SurveyStmt(b[0], defined);
      var rest := SurveyBlock(b[1..], first.defined);
      Survey(rest.defined, first.demoted + rest.demoted)
  }

  /** Assignments inside a branch or a loop do not count for the code after it. */
  function SurveyStmt(s: Stmt, defined: set<string>): Survey
    decreases StmtSize(s), 0
  {
    match s.kind
    case Assign(x, e) => Survey(defined + {x}, Reads(e) - defined)
    case AnnAssign(x, e, _) => Survey(defined + {x}, Reads(e) - defined)
    case ExprStmt(e) => Survey(defined, Reads(e) - defined)
    case Return(Some(e)) => Survey(defined, Reads(e) - defined)
    case If(c, body, elifs, orelse) =>
      Survey(defined, (Reads(c) - defined) + SurveyBlock(body, defined).demoted
                      + SurveyArms(elifs, defined) + SurveyBlock(ElseOf(orelse), defined).demoted)
    case While(c, body) => Survey(defined, (Reads(c) - defined) + SurveyBlock(body, defined).demoted)
    case For(x, start, end, step, body, _) =>
      Survey(defined, (Reads(start) - defined) + (Reads(end) - defined) + (Reads(step) - defined)
                      + SurveyBlock(body, defined + {x}).demoted)
    case ForEach(x, iterable, body) =>
      Survey(defined, (Reads(iterable) - defined) + SurveyBlock(body, defined + {x}).demoted)
    case _ => Survey(defined, {})
  }

  function SurveyArms(elifs: seq<Arm>, defined: set<string>): set<string>
    decreases ArmsSize(elifs), 1
  {
    if elifs == [] then {}
    else (Reads(elifs[0].cond) - defined) + SurveyBlock(elifs[0].body, defined).demoted + SurveyArms(elifs[1..], defined)
  }

  /** The names a body must not keep in raw slots. */
  function Demoted(b: Block): set<string> { SurveyBlock(b, {}).demoted }

  // ------------------------------------------- the analysis as it is written

  /** The walk over one expression, which only adds to `demote`. */
  method CollectReads(e: Expr, defined: set<string>, demote: set<string>) returns (out: set<string>)
    ensures out == demote + (Reads(e) - defined)
    decreases e, 0
  {
    out := demote;
    match e.kind {
      case Name(x) => if x !in defined { out := out + {x}; }
      case Unary(_, i) => out := CollectReads(i, defined, out);
      case Bin(_, a, b) =>
        out := CollectReads(a, defined, out);
        out := CollectReads(b, defined, out);
      case Call(_, args) => out := CollectReadsAll(args, defined, out);
      case MethodCall(obj, _, args) =>
        out := CollectReads(obj, defined, out);
        out := CollectReadsAll(args, defined, out);
      case _ =>
    }
  }

  method CollectReadsAll(es: seq<Expr>, defined: set<string>, demote: set<string>) returns (out: set<string>)
    ensures out == demote + (ReadsAll(es) - defined)
    decreases es, 1
  {
    out := demote;
    var i := 0;
    assert es[0..] == es;
    while i < |es|
      invariant 0 <= i <= |es| && out + (ReadsAll(es[i..]) - defined) == demote + (ReadsAll(es) - defined)
    {
      assert es[i..][0] == es[i] && es[i..][1..] == es[i + 1..];
      out := CollectReads(es[i], defined, out);
      i := i + 1;
    }
  }

  lemma SurveyTail(b: Block, i: nat, defined: set<string>)
    requires i < |b|
    ensures BlockSize(b[i..]) == StmtSize(b[i]) + BlockSize(b[i + 1..])
    ensures var first := SurveyStmt(b[i], defined);
      var rest := SurveyBlock(b[i + 1..], first.defined);
      SurveyBlock(b[i..], defined) == Survey(rest.defined, first.demoted + rest.demoted)
  {
    hide SurveyStmt;
    assert b[i..][0] == b[i] && b[i..][1..] == b[i + 1..];
  }

  method CollectMaybeUnassignedReads(b: Block, defined0: set<string>, demote0: set<string>)
    returns (defined: set<string>, demote: set<string>)
    ensures defined == SurveyBlock(b, defined0).defined
    ensures demote == demote0 + SurveyBlock(b, defined0).demoted
    decreases BlockSize(b), 1
  {
    assert forall d :: SurveyBlock([], d).defined == d && SurveyBlock([], d).demoted == {};
    hide SurveyBlock, SurveyStmt;
    defined, demote := defined0, demote0;
    var i := 0;
    assert b[0..] == b;
    while i < |b|
      invariant 0 <= i <= |b| && BlockSize(b[i..]) <= BlockSize(b)
      invariant SurveyBlock(b, defined0).defined == SurveyBlock(b[i..], defined).defined
      invariant demote0 + SurveyBlock(b, defined0).demoted == demote + SurveyBlock(b[i..], defined).demoted
    {
      SurveyTail(b, i, defined);
      defined, demote := CollectStmt(b[i], defined, demote);
      i := i + 1;
    }
    assert b[i..] == [];
  }

  method CollectStmt(s: Stmt, defined0: set<string>, demote0: set<string>) returns (defined: set<string>, demote: set<string>)
    ensures defined == SurveyStmt(s, defined0).defined
    ensures demote == demote0 + SurveyStmt(s, defined0).demoted
    decreases StmtSize(s), 0
  {
    assert SurveyBlock([], defined0).demoted == {};
    hide Reads, SurveyBlock, SurveyArms;
    defined, demote := defined0, demote0;
    var inner;
    match s.kind {
      case Assign(x, e) =>
        demote := CollectReads(e, defined, demote);
        defined := defined + {x};
      case AnnAssign(x, e, _) =>
        demote := CollectReads(e, defined, demote);
        defined := defined + {x};
      case ExprStmt(e) => demote := CollectReads(e, defined, demote);
      case Return(Some(e)) => demote := CollectReads(e, defined, demote);
      case If(c, body, elifs, orelse) =>
        demote := CollectReads(c, defined, demote);
        inner, demote := CollectMaybeUnassignedReads(body, defined, demote);
        demote := CollectArms(elifs, defined, demote);
        if orelse.Else? {
          inner, demote := CollectMaybeUnassignedReads(orelse.block, defined, demote);
        }
      case While(c, body) =>
        demote := CollectReads(c, defined, demote);
        inner, demote := CollectMaybeUnassignedReads(body, defined, demote);
      case For(x, start, end, step, body, _) =>
        demote := CollectReads(start, defined, demote);
        demote := CollectReads(end, defined, demote);
        demote := CollectReads(step, defined, demote);
        inner, demote := CollectMaybeUnassignedReads(body, defined + {x}, demote);
      case ForEach(x, iterable, body) =>
        demote := CollectReads(iterable, defined, demote);
        inner, demote := CollectMaybeUnassignedReads(body, defined + {x}, demote);
      case _ =>
    }
  }

  method CollectArms(elifs: seq<Arm>, defined: set<string>, demote0: set<string>) returns (demote: set<string>)
    ensures demote == demote0 + SurveyArms(elifs, defined)
    decreases ArmsSize(elifs), 2
  {
    hide Reads, SurveyBlock;
    demote := demote0;
    var inner;
    var i := 0;
    assert elifs[0..] == elifs;
    while i < |elifs|
      invariant 0 <= i <= |elifs| && ArmsSize(elifs[i..]) <= ArmsSize(elifs)
      invariant demote0 + SurveyArms(elifs, defined) == demote + SurveyArms(elifs[i..], defined)
    {
      assert elifs[i..][0] == elifs[i] && elifs[i..][1..] == elifs[i + 1..];
      demote := CollectReads(elifs[i].cond, defined, demote);
      inner, demote := CollectMaybeUnassignedReads(elifs[i].body, defined, demote);
      i := i + 1;
    }
  }

  // ------------------------------------------------------------- soundness

  /** The name an error reports as unassigned; with `modules`, only a module's variable. */
  function Missed(k: Error, modules: bool): set<string> {
    match k
    case NameError(x, ofModule) => if modules && !ofModule then {} else {x}
    case Departs(ReadUnassigned(x)) => if modules then {} else {x}
    case _ => {}
  }

  /** The module variable a called function, however deep, reports as unassigned. */
  function MissedBelow(k: Error): set<string> {
    match k
    case InCallee(NameError(x, ofModule)) => if ofModule then {x} else {}
    case InCallee(e) => MissedBelow(e)
    case _ => {}
  }

  /** What an analysis may rely on: `defined` names that are assigned (with `modules`, if they
      are the module's; others are of no interest), and module variables `present` at every
      call, which is why no callee reports any of `spared`. */
  datatype Facts = Facts(defined: set<string>, modules: bool, present: set<string>, spared: set<string>) {
    function And(names: set<string>): Facts { this.(defined := defined + names) }
  }

  /** Callees that find all of `present` assigned report none of `spared`. */
  ghost predicate Trusts(o: Oracle, present: set<string>, spared: set<string>) {
    forall q: Query :: present <= q.globals.Keys && o(q).Raises? ==> MissedBelow(InCallee(o(q).error)) !! spared
  }

  ghost predicate Assured(names: set<string>, c: Facts, vars: map<string, Value>, globals: map<string, Value>, env: Env) {
    forall x :: x in names ==> if env.Owns(x) then c.modules || x in vars else x in globals
  }

  ghost predicate Grounded(c: Facts, vars: map<string, Value>, globals: map<string, Value>, o: Oracle, env: Env) {
    Assured(c.defined, c, vars, globals, env) && c.present <= (if env.top then vars else globals).Keys && Trusts(o, c.present, c.spared)
  }

  /** An error blames one of `names` at most. */
  ghost predicate Fair(k: Error, names: set<string>, c: Facts) {
    Missed(k, c.modules) <= names && MissedBelow(k) !! c.spared
  }

  ghost predicate FairlyFails(v: Evaluated, names: set<string>, c: Facts) { v.Fail? ==> Fair(v.error, names, c) }

  lemma AskFair(f: string, vs: seq<Value>, w: World, o: Oracle, r: Rules, c: Facts)
    requires Grounded(c, w.vars, w.globals, o, r.env)
    ensures FairlyFails(Ask(f, vs, w, o, r), {}, c)
  {
    var q := Query(w.calls, f, vs, w.heap, Seen(w, r.env));
    assert o(q).Raises? ==> MissedBelow(InCallee(o(q).error)) !! c.spared;
  }

  lemma BinaryFair(op: BinOp, a: Value, b: Value, w: World, o: Oracle, r: Rules, c: Facts)
    requires Grounded(c, w.vars, w.globals, o, r.env)
    ensures FairlyFails(Binary(op, a, b, w, o, r), {}, c)
  {
    hide Plain, Ask, Grounded, Ordering;
    AskFair("+", [a, b], w, o, r, c);
    AskFair("*", [a, b], w, o, r, c);
    AskFair("==", [a, b], w, o, r, c);
    AskFair(Ordering(op), [a, b], w, o, r, c);
    PlainBlameless(op, a, b, w);
  }

  /** An error that is not about names. */
  predicate Blameless(k: Error) { Missed(k, false) == {} && MissedBelow(k) == {} }

  lemma NumbersFair(op: BinOp, a: Value, b: Value)
    ensures Unboxed(a).NoNum? ==> Blameless(Unboxed(a).error)
    ensures Unboxed(b).NoNum? ==> Blameless(Unboxed(b).error)
    ensures forall x, y :: Arithmetic(op, x, y).NoNum? ==> Blameless(Arithmetic(op, x, y).error)
  {
    hide FloorQuotient, FloorRemainder;
  }

  lemma PlainBlameless(op: BinOp, a: Value, b: Value, w: World)
    ensures var v := Plain(op, a, b, w); v.Fail? ==> Blameless(v.error)
  {
    hide Arithmetic;
    NumbersFair(op, a, b);
  }

  lemma NegateFair(v: Value, r: Rules)
    ensures Negate(v, r).NoNum? ==> Blameless(Negate(v, r).error)
  {
  }

  lemma CalledFair(f: string, args: EvaluatedAll, o: Oracle, r: Rules, names: set<string>, c: Facts)
    requires args.Oks? ==> Grounded(c, args.world.vars, args.world.globals, o, r.env)
    requires args.Fails? ==> Fair(args.error, names, c)
    ensures FairlyFails(Called(f, args, o, r), names, c)
  {
    hide Ask, Grounded;
    if args.Oks? { AskFair(f, args.values, args.world, o, r, c); }
  }

  lemma SentFair(l: Value, m: string, n: nat, args: EvaluatedAll, before: World, w: World, o: Oracle, r: Rules, names: set<string>, c: Facts)
    requires args.Oks? ==> |args.values| == n && Grounded(c, args.world.vars, args.world.globals, o, r.env)
    requires args.Fails? ==> Fair(args.error, names, c)
    ensures FairlyFails(Sent(l, m, n, args, before, w, o, r), names, c)
  {
    hide Ask, Grounded;
    if args.Oks? { AskFair("." + m, [l] + args.values, args.world, o, r, c); }
  }

  lemma {:induction false} EvalFair(e: Expr, w: World, o: Oracle, r: Rules, c: Facts)
    requires Grounded(c, w.vars, w.globals, o, r.env)
    ensures FairlyFails(Eval(e, w, o, r), Reads(e) - c.defined, c)
    decreases e, 0
  {
    hide ConstInt, Grounded, Binary, Called, Sent, Negate, EvalAll, Test, ReadsAll;
    if ConstInt(e).None? {
      match e.kind {
        case Name(x) => ReadFair(x, w, o, r, c);
        case Unary(Neg, i) =>
          EvalFair(i, w, o, r, c);
          var v := Eval(i, w, o, r);
          if v.Ok? { NegateFair(v.value, r); }
        case Unary(Not, i) => TestFair(i, w, o, r, c);
        case Bin(op, a, b) =>
          EvalFair(a, w, o, r, c);
          var x := Eval(a, w, o, r);
          if x.Ok? {
            EvalFair(b, x.world, o, r, c);
            var y := Eval(b, x.world, o, r);
            if y.Ok? { BinaryFair(op, x.value, y.value, y.world, o, r, c); }
          }
        case Call(f, args) =>
          AllFair(args, RawParams(f, r.env.sigs), f, w, o, r, c);
          CalledFair(f, EvalAll(args, RawParams(f, r.env.sigs), f, w, o, r), o, r, Reads(e) - c.defined, c);
        case MethodCall(obj, m, args) =>
          EvalFair(obj, w, o, r.At(false), c);
          var l := Eval(obj, w, o, r.At(false));
          if l.Ok? {
            AllFair(args, [], m, l.world, o, r, c);
            SentFair(l.value, m, |args|, EvalAll(args, [], m, l.world, o, r), w, l.world, o, r, Reads(e) - c.defined, c);
          }
        case _ =>
      }
    }
  }

  lemma ReadFair(x: string, w: World, o: Oracle, r: Rules, c: Facts)
    requires Grounded(c, w.vars, w.globals, o, r.env)
    ensures FairlyFails(Read(x, w, r), {x} - c.defined, c)
  {
  }

  lemma {:induction false} AllFair(es: seq<Expr>, raws: seq<bool>, f: string, w: World, o: Oracle, r: Rules, c: Facts)
    requires Grounded(c, w.vars, w.globals, o, r.env)
    ensures var v := EvalAll(es, raws, f, w, o, r); v.Fails? ==> Fair(v.error, ReadsAll(es) - c.defined, c)
    decreases es, 2
  {
    hide Grounded, Slot;
    if es != [] {
      var raw := raws != [] && raws[0];
      SlotFair(es[0], raw, f, w, o, r, c);
      var v := Slot(es[0], raw, f, w, o, r);
      if v.Ok? { AllFair(es[1..], if raws == [] then [] else raws[1..], f, v.world, o, r, c); }
    }
  }

  lemma {:induction false} SlotFair(e: Expr, raw: bool, name: string, w: World, o: Oracle, r: Rules, c: Facts)
    requires Grounded(c, w.vars, w.globals, o, r.env)
    ensures FairlyFails(Slot(e, raw, name, w, o, r), Reads(e) - c.defined, c)
    decreases e, 1
  {
    hide Grounded, Eval, Reads;
    EvalFair(e, w, o, r.At(raw && Scalar(e, r.env)), c);
  }

  lemma {:induction false} TestFair(e: Expr, w: World, o: Oracle, r: Rules, c: Facts)
    requires Grounded(c, w.vars, w.globals, o, r.env)
    ensures var t := Test(e, w, o, r); t.Breaks? ==> Fair(t.error, Reads(e) - c.defined, c)
    decreases e, 3
  {
    hide Grounded, Eval;
    if e.kind.Unary? && e.kind.op == Not {
      TestFair(e.kind.operand, w, o, r, c);
    } else {
      EvalFair(e, w, o, r.At(TestsRaw(e, r.env)), c);
    }
  }

  // ------------------------------------------------------------- statements

  /** Nothing is forgotten, and the module's variables stay. */
  ghost predicate Keeps(w: World, u: World) { w.vars.Keys <= u.vars.Keys && u.globals == w.globals }

  /** An outcome blames only `demoted` names, keeps what was assigned, and a normal end
      leaves all of `after` assigned. */
  ghost predicate Sound(y: Outcome, w: World, after: set<string>, demoted: set<string>, c: Facts, env: Env) {
    match y
    case Next(u) => Keeps(w, u) && Assured(after, c, u.vars, u.globals, env)
    case Broke(u) => Keeps(w, u)
    case Continued(u) => Keeps(w, u)
    case Returned(_, u) => Keeps(w, u)
    case Stopped(k, _) => Fair(k, demoted, c)
    case Timeout(_) => true
  }

  lemma GroundedLater(c: Facts, w: World, u: World, o: Oracle, env: Env)
    requires Grounded(c, w.vars, w.globals, o, env) && Keeps(w, u)
    ensures Grounded(c, u.vars, u.globals, o, env)
  {
  }

  /** Assigning a name of one's own makes it one to rely on. */
  lemma GroundedBind(x: string, v: Value, c: Facts, w: World, o: Oracle, env: Env)
    requires Grounded(c, w.vars, w.globals, o, env) && env.Owns(x)
    ensures Grounded(c.And({x}), Bind(w, x, v).vars, w.globals, o, env) && Keeps(w, Bind(w, x, v))
  {
  }

  lemma GroundedMore(names: set<string>, c: Facts, w: World, o: Oracle, env: Env)
    requires Grounded(c, w.vars, w.globals, o, env) && Assured(names, c, w.vars, w.globals, env)
    ensures Grounded(c.(defined := names), w.vars, w.globals, o, env)
  {
  }

  /** The names bound belong to the body. */
  predicate OwnsAll(names: set<string>, env: Env) { env.top || names <= env.vars }

  lemma SoundLater(y: Outcome, w: World, u: World, after: set<string>, less: set<string>, demoted: set<string>, more: set<string>,
                   c: Facts, d: Facts, env: Env)
    requires Sound(y, u, after, demoted, d, env) && Keeps(w, u) && less <= after && demoted <= more && c.modules == d.modules && c.spared == d.spared
    ensures Sound(y, w, less, more, c, env)
  {
  }

  /** Running a body: errors blame names the survey demoted, and nothing else. */
  lemma {:induction false} NameErrorsDemoted(b: Block, c: Facts, w: World, o: Oracle, r: Rules, fuel: nat)
    requires Grounded(c, w.vars, w.globals, o, r.env) && OwnsAll(Assigned(b), r.env)
    ensures var s := SurveyBlock(b, c.defined); Sound(ExecBlock(b, w, o, r, fuel), w, s.defined, s.demoted, c, r.env)
    decreases fuel, BlockSize(b), 1
  {
    if b != [] {
      hide Grounded, ExecStmt, SurveyStmt, AssignedBy, Assured, Fair;
      StmtSound(b[0], c, w, o, r, fuel);
      var y := ExecStmt(b[0], w, o, r, fuel);
      if y.Next? {
        var next := c.(defined := SurveyStmt(b[0], c.defined).defined);
        GroundedLater(c, w, y.world, o, r.env);
        GroundedMore(next.defined, c, y.world, o, r.env);
        NameErrorsDemoted(b[1..], next, y.world, o, r, fuel);
        var s, t := SurveyBlock(b[1..], next.defined), SurveyBlock(b, c.defined);
        SoundLater(ExecBlock(b[1..], y.world, o, r, fuel), w, y.world, s.defined, t.defined, s.demoted, t.demoted, c, next, r.env);
      } else {
        assert SurveyStmt(b[0], c.defined).demoted <= SurveyBlock(b, c.defined).demoted;
        SoundEarly(y, w, SurveyStmt(b[0], c.defined), SurveyBlock(b, c.defined), c, r.env);
      }
    }
  }

  lemma SoundEarly(y: Outcome, w: World, s: Survey, t: Survey, c: Facts, env: Env)
    requires Sound(y, w, s.defined, s.demoted, c, env) && !y.Next? && s.demoted <= t.demoted
    ensures Sound(y, w, t.defined, t.demoted, c, env)
  {
  }

  lemma {:induction false} StmtSound(s: Stmt, c: Facts, w: World, o: Oracle, r: Rules, fuel: nat)
    requires Grounded(c, w.vars, w.globals, o, r.env) && OwnsAll(AssignedBy(s), r.env)
    ensures var v := SurveyStmt(s, c.defined); Sound(ExecStmt(s, w, o, r, fuel), w, v.defined, v.demoted, c, r.env)
    decreases fuel, StmtSize(s), 0
  {
    assert Assured(c.defined, c, w.vars, w.globals, r.env);
    hide Eval, Test, Range, Reads, SurveyBlock, SurveyArms, ExecExpr, ExecAssign, ExecReturn, ExecBlock, ExecElse, ExecRange, ExecEach, ExecWhile,
      Grounded, Assured, Assigned, AssignedInArms, Fair;
    match s.kind
    case Assign(x, e) => AssignSound(x, e, c, w, o, r);
    case AnnAssign(x, e, _) => AssignSound(x, e, c, w, o, r);
    case ExprStmt(e) => ExprSound(e, c, w, o, r);
    case Return(Some(e)) => ReturnSound(e, c, w, o, r);
    case If(cond, body, elifs, orelse) => IfSound(s, c, w, o, r, fuel);
    case While(cond, body) => WhileSound(cond, body, c, w, o, r, fuel);
    case For(x, start, end, step, body, _) =>
      RangeFair(start, end, step, w, o, r, c);
      var bounds := Range(start, end, step, w, o, r);
      if bounds.From? {
        GroundedLater(c, w, bounds.world, o, r.env);
        RangeSound(x, bounds.first, bounds.end, bounds.step, body, c, bounds.world, o, r, fuel);
        SoundLater(ExecStmt(s, w, o, r, fuel), w, bounds.world, c.defined, c.defined, SurveyBlock(body, c.defined + {x}).demoted,
                   SurveyStmt(s, c.defined).demoted, c, c, r.env);
      } else {
        FairMore(bounds.error, (Reads(start) - c.defined) + (Reads(end) - c.defined) + (Reads(step) - c.defined), SurveyStmt(s,
          c.defined).demoted, c);
      }
    case ForEach(x, iterable, body) => ForEachSound(s, c, w, o, r, fuel);
    case _ =>
  }

  lemma FairMore(k: Error, names: set<string>, more: set<string>, c: Facts)
    requires Fair(k, names, c) && names <= more
    ensures Fair(k, more, c)
  {
  }

  lemma AssignSound(x: string, e: Expr, c: Facts, w: World, o: Oracle, r: Rules)
    requires Grounded(c, w.vars, w.globals, o, r.env) && r.env.Owns(x)
    ensures Sound(ExecAssign(x, e, w, o, r), w, c.defined + {x}, Reads(e) - c.defined, c, r.env)
  {
    hide Eval, Reads, Grounded;
    EvalFair(e, w, o, r.At(x in r.env.typed && Scalar(e, r.env)), c);
    var v := Eval(e, w, o, r.At(x in r.env.typed && Scalar(e, r.env)));
    if v.Ok? {
      var b := Bound(x, v.value, v.world, r);
      if b.Ok? {
        GroundedBind(x, b.value, c, v.world, o, r.env);
        KnownBind(x, b.value, c, v.world, o, r.env);
      }
    }
  }

  lemma KnownBind(x: string, v: Value, c: Facts, w: World, o: Oracle, env: Env)
    requires Grounded(c, w.vars, w.globals, o, env) && env.Owns(x)
    ensures Assured(c.defined + {x}, c, Bind(w, x, v).vars, w.globals, env)
  {
  }

  lemma ReturnSound(e: Expr, c: Facts, w: World, o: Oracle, r: Rules)
    requires Grounded(c, w.vars, w.globals, o, r.env)
    ensures Sound(ExecReturn(e, w, o, r), w, c.defined, Reads(e) - c.defined, c, r.env)
  {
    hide Slot, Reads, Grounded;
    SlotFair(e, r.env.scalar, "return", w, o, r, c);
  }

  lemma ExprSound(e: Expr, c: Facts, w: World, o: Oracle, r: Rules)
    requires Grounded(c, w.vars, w.globals, o, r.env)
    ensures Sound(ExecExpr(e, w, o, r), w, c.defined, Reads(e) - c.defined, c, r.env)
  {
    if e.kind.Call? && e.kind.func == "print" {
      hide Grounded, ExecPrint, Sound;
      PrintSound(e.kind.args, c, w, o, r);
    } else {
      assert Assured(c.defined, c, w.vars, w.globals, r.env);
      hide Eval, Reads, Grounded, Assured;
      EvalFair(e, w, o, r.At(false), c);
    }
  }

  lemma PrintSound(args: seq<Expr>, c: Facts, w: World, o: Oracle, r: Rules)
    requires Grounded(c, w.vars, w.globals, o, r.env)
    ensures Sound(ExecPrint(args, w, o, r), w, c.defined, ReadsAll(args) - c.defined, c, r.env)
  {
    hide Grounded, PrintAll, PrintEach, ReadsAll, Sound, Fair;
    PrintAllSound(args, c, w, o, r);
    PrintEachSound(args, c, w, o, r);
    OddFair(c);
    SoundStop(Departs(Reordered), w.out, w, c.defined, ReadsAll(args) - c.defined, c, r.env);
    SoundStop(Departs(PrintedBefore), Out(PrintAll(args, w, o, r)), w, c.defined, ReadsAll(args) - c.defined, c, r.env);
  }

  lemma PrintAllSound(args: seq<Expr>, c: Facts, w: World, o: Oracle, r: Rules)
    requires Grounded(c, w.vars, w.globals, o, r.env)
    ensures Sound(PrintAll(args, w, o, r), w, c.defined, ReadsAll(args) - c.defined, c, r.env)
  {
    assert Assured(c.defined, c, w.vars, w.globals, r.env);
    hide EvalAll, ReadsAll, Grounded, PrintValues, Assured;
    AllFair(args, [], "print", w, o, r, c);
  }

  lemma {:induction false} PrintEachSound(args: seq<Expr>, c: Facts, w: World, o: Oracle, r: Rules)
    requires Grounded(c, w.vars, w.globals, o, r.env)
    ensures Sound(PrintEach(args, w, o, r), w, c.defined, ReadsAll(args) - c.defined, c, r.env)
    decreases |args|
  {
    assert Assured(c.defined, c, w.vars, w.globals, r.env);
    hide Eval, Grounded, Reads, Assured;
    if args != [] {
      EvalFair(args[0], w, o, r.At(false), c);
      var v := Eval(args[0], w, o, r.At(false));
      if v.Ok? {
        var u := Printed(v.value, v.world);
        if u.Ok? { PrintEachSound(args[1..], c, if |args| == 1 then u.world else Put(u.world, Space), o, r); }
      }
    }
  }

  lemma {:induction false} BlockKeeps(b: Block, defined: set<string>)
    ensures defined <= SurveyBlock(b, defined).defined
    decreases |b|
  {
    if b != [] { BlockKeeps(b[1..], SurveyStmt(b[0], defined).defined); }
  }

  lemma {:induction false} IfSound(s: Stmt, c: Facts, w: World, o: Oracle, r: Rules, fuel: nat)
    requires s.kind.If? && Grounded(c, w.vars, w.globals, o, r.env) && OwnsAll(AssignedBy(s), r.env)
    ensures Sound(ExecStmt(s, w, o, r, fuel), w, c.defined, SurveyStmt(s, c.defined).demoted, c, r.env)
    decreases fuel, BlockSize(s.kind.body) + ArmsSize(s.kind.elifs) + BlockSize(ElseOf(s.kind.orelse)), 3
  {
    hide Test, Reads, SurveyBlock, SurveyArms, ExecBlock, ExecElse, Grounded, Assured, Assigned, AssignedInArms, Sound, Fair;
    var If(cond, body, elifs, orelse) := s.kind;
    TestFair(cond, w, o, r, c);
    var t, all := Test(cond, w, o, r), SurveyStmt(s, c.defined).demoted;
    if t.Breaks? {
      FairMore(t.error, Reads(cond) - c.defined, all, c);
      SoundStop(t.error, t.out, w, c.defined, all, c, r.env);
    } else {
      GroundedLater(c, w, t.world, o, r.env);
      if t.b {
        NameErrorsDemoted(body, c, t.world, o, r, fuel);
        BlockKeeps(body, c.defined);
        SoundLater(ExecBlock(body, t.world, o, r, fuel), w, t.world, SurveyBlock(body, c.defined).defined, c.defined,
                   SurveyBlock(body, c.defined).demoted, all, c, c, r.env);
      } else {
        ElseSound(elifs, ElseOf(orelse), c, t.world, o, r, fuel);
        SoundLater(ExecElse(elifs, ElseOf(orelse), t.world, o, r, fuel), w, t.world, c.defined, c.defined,
                   SurveyArms(elifs, c.defined) + SurveyBlock(ElseOf(orelse), c.defined).demoted, all, c, c, r.env);
      }
    }
  }

  lemma SoundStop(k: Error, out: seq<Token>, w: World, after: set<string>, demoted: set<string>, c: Facts, env: Env)
    requires Fair(k, demoted, c)
    ensures Sound(Stopped(k, out), w, after, demoted, c, env)
  {
  }

  lemma {:induction false} ElseSound(elifs: seq<Arm>, orelse: Block, c: Facts, w: World, o: Oracle, r: Rules, fuel: nat)
    requires Grounded(c, w.vars, w.globals, o, r.env) && OwnsAll(AssignedInArms(elifs) + Assigned(orelse), r.env)
    ensures Sound(ExecElse(elifs, orelse, w, o, r, fuel), w, c.defined, SurveyArms(elifs, c.defined) + SurveyBlock(orelse,
      c.defined).demoted, c, r.env)
    decreases fuel, ArmsSize(elifs) + BlockSize(orelse), 2
  {
    hide Test, Reads, SurveyBlock, ExecBlock, Grounded, Assured, Assigned, Sound, Fair;
    var all := SurveyArms(elifs, c.defined) + SurveyBlock(orelse, c.defined).demoted;
    if elifs == [] {
      NameErrorsDemoted(orelse, c, w, o, r, fuel);
      BlockKeeps(orelse, c.defined);
      KeepsSelf(w);
      SoundLater(ExecBlock(orelse, w, o, r, fuel), w, w, SurveyBlock(orelse, c.defined).defined, c.defined,
                 SurveyBlock(orelse, c.defined).demoted, all, c, c, r.env);
    } else {
      var Arm(cond, body) := elifs[0];
      TestFair(cond, w, o, r, c);
      var t := Test(cond, w, o, r);
      if t.Breaks? {
        FairMore(t.error, Reads(cond) - c.defined, all, c);
        SoundStop(t.error, t.out, w, c.defined, all, c, r.env);
      } else {
        GroundedLater(c, w, t.world, o, r.env);
        if t.b {
          NameErrorsDemoted(body, c, t.world, o, r, fuel);
          BlockKeeps(body, c.defined);
          SoundLater(ExecBlock(body, t.world, o, r, fuel), w, t.world, SurveyBlock(body, c.defined).defined, c.defined,
                     SurveyBlock(body, c.defined).demoted, all, c, c, r.env);
        } else {
          ElseSound(elifs[1..], orelse, c, t.world, o, r, fuel);
          SoundLater(ExecElse(elifs[1..], orelse, t.world, o, r, fuel), w, t.world, c.defined, c.defined,
                     SurveyArms(elifs[1..], c.defined) + SurveyBlock(orelse, c.defined).demoted, all, c, c, r.env);
        }
      }
    }
  }

  lemma KeepsSelf(w: World)
    ensures Keeps(w, w)
  {
  }

  /** What a pass of a loop's body leaves to the next one. */
  lemma PassSound(y: Outcome, w: World, u: World, after: set<string>, demoted: set<string>, c: Facts, d: Facts, env: Env)
    requires Sound(y, u, after, demoted, d, env) && Keeps(w, u) && c.modules == d.modules && c.spared == d.spared
    requires Assured(c.defined, c, w.vars, w.globals, env)
    ensures PassOf(y).Again? ==> Keeps(w, PassOf(y).world)
    ensures PassOf(y).Done? ==> Sound(PassOf(y).outcome, w, c.defined, demoted, c, env)
  {
  }

  lemma SoundTimeout(out: seq<Token>, w: World, after: set<string>, demoted: set<string>, c: Facts, env: Env)
    ensures Sound(Timeout(out), w, after, demoted, c, env)
  {
  }

  lemma Reliable(c: Facts, w: World, o: Oracle, env: Env)
    requires Grounded(c, w.vars, w.globals, o, env)
    ensures Assured(c.defined, c, w.vars, w.globals, env)
  {
  }

  lemma SoundNext(w: World, u: World, demoted: set<string>, c: Facts, o: Oracle, env: Env)
    requires Grounded(c, w.vars, w.globals, o, env) && Keeps(w, u)
    ensures Sound(Next(u), w, c.defined, demoted, c, env)
  {
  }

  lemma {:induction false} WhileSound(cond: Expr, body: Block, c: Facts, w: World, o: Oracle, r: Rules, fuel: nat)
    requires Grounded(c, w.vars, w.globals, o, r.env) && OwnsAll(Assigned(body), r.env)
    ensures Sound(ExecWhile(cond, body, w, o, r, fuel), w, c.defined, (Reads(cond) - c.defined) + SurveyBlock(body, c.defined).demoted, c, r.env)
    decreases fuel, BlockSize(body), 2
  {
    hide Test, Reads, SurveyBlock, ExecBlock, Grounded, Assured, Assigned, Sound, Fair, Keeps;
    var inside := SurveyBlock(body, c.defined);
    var all := (Reads(cond) - c.defined) + inside.demoted;
    TestFair(cond, w, o, r, c);
    KeepsSelf(w);
    var t := Test(cond, w, o, r);
    if t.Breaks? {
      FairMore(t.error, Reads(cond) - c.defined, all, c);
      SoundStop(t.error, t.out, w, c.defined, all, c, r.env);
    } else {
      assert Keeps(w, t.world) by { SameKept(w, t.world); }
      GroundedLater(c, w, t.world, o, r.env);
      Reliable(c, w, o, r.env);
      if !t.b {
        SoundNext(w, t.world, all, c, o, r.env);
      } else {
        NameErrorsDemoted(body, c, t.world, o, r, fuel);
        var y := ExecBlock(body, t.world, o, r, fuel);
        SoundLater(y, t.world, t.world, inside.defined, inside.defined, inside.demoted, all, c, c, r.env) by { KeepsSelf(t.world); }
        PassSound(y, w, t.world, inside.defined, all, c, c, r.env);
        var p := PassOf(y);
        if p.Again? {
          if fuel == 0 {
            SoundTimeout(p.world.out, w, c.defined, all, c, r.env);
          } else {
            GroundedLater(c, w, p.world, o, r.env);
            WhileSound(cond, body, c, p.world, o, r, fuel - 1);
            SoundLater(ExecWhile(cond, body, p.world, o, r, fuel - 1), w, p.world, c.defined, c.defined, all, all, c, c, r.env);
          }
        }
      }
    }
  }

  lemma SameKept(w: World, u: World)
    requires u.vars == w.vars && u.globals == w.globals
    ensures Keeps(w, u)
  {
  }

  lemma RangeFair(start: Expr, end: Expr, step: Expr, w: World, o: Oracle, r: Rules, c: Facts)
    requires Grounded(c, w.vars, w.globals, o, r.env)
    ensures var bounds := Range(start, end, step, w, o, r);
      if bounds.Unbounded? then Fair(bounds.error, (Reads(start) - c.defined) + (Reads(end) - c.defined) + (Reads(step) - c.defined), c)
      else Keeps(w, bounds.world)
  {
    hide PythonRange, CodeRange, Grounded, Fair;
    PythonRangeFair(start, end, step, w, o, r, c);
    CodeRangeFair(start, end, step, w, o, r, c);
    assert forall names :: Fair(Departs(Reordered), names, c) && Fair(Departs(OtherError), names, c) by { OddFair(c); }
  }

  lemma OddFair(c: Facts)
    ensures forall names :: Fair(ValueError, names, c) && Fair(TypeError, names, c) && Fair(Unassigned, names, c)
    ensures forall names :: Fair(Departs(Reordered), names, c) && Fair(Departs(CounterWrap), names, c)
    ensures forall names :: Fair(Departs(OtherError), names, c) && Fair(Departs(PrintedBefore), names, c)
  {
  }

  lemma PythonRangeFair(start: Expr, end: Expr, step: Expr, w: World, o: Oracle, r: Rules, c: Facts)
    requires Grounded(c, w.vars, w.globals, o, r.env)
    ensures var bounds := PythonRange(start, end, step, w, o, r);
      if bounds.Unbounded? then Fair(bounds.error, (Reads(start) - c.defined) + (Reads(end) - c.defined) + (Reads(step) - c.defined), c)
      else Keeps(w, bounds.world)
  {
    hide Eval, Grounded, Reads, Scalar, Unboxed;
    EvalFair(start, w, o, r.At(Scalar(start, r.env)), c);
    var a := Eval(start, w, o, r.At(Scalar(start, r.env)));
    if a.Ok? {
      EvalFair(end, a.world, o, r.At(Scalar(end, r.env)), c);
      var b := Eval(end, a.world, o, r.At(Scalar(end, r.env)));
      if b.Ok? { EvalFair(step, b.world, o, r.At(false), c); }
    }
  }

  lemma NumeralFair(e: Expr, w: World, o: Oracle, r: Rules, c: Facts)
    requires Grounded(c, w.vars, w.globals, o, r.env)
    ensures var v := Numeral(e, w, o, r);
      FairlyFails(v, Reads(e) - c.defined, c) && (v.Ok? ==> v.world.vars == w.vars && v.world.globals == w.globals)
  {
    hide Eval, Grounded, Reads, Scalar;
    EvalFair(e, w, o, r.At(Scalar(e, r.env)), c);
  }

  lemma CodeRangeFair(start: Expr, end: Expr, step: Expr, w: World, o: Oracle, r: Rules, c: Facts)
    requires Grounded(c, w.vars, w.globals, o, r.env)
    ensures var bounds := CodeRange(start, end, step, w, o, r);
      if bounds.Unbounded? then Fair(bounds.error, (Reads(start) - c.defined) + (Reads(end) - c.defined) + (Reads(step) - c.defined), c)
      else Keeps(w, bounds.world)
  {
    hide Numeral, Grounded, Reads, ConstInt;
    NumeralFair(start, w, o, r, c);
    NumeralFair(end, w, o, r, c);
    var b := Numeral(end, w, o, r);
    if b.Ok? { NumeralFair(start, b.world, o, r, c); }
  }

  lemma {:induction false} RangeSound(x: string, i: int, end: int, step: int, body: Block, c: Facts, w: World, o: Oracle, r: Rules, fuel: nat)
    requires Grounded(c, w.vars, w.globals, o, r.env) && OwnsAll({x} + Assigned(body), r.env)
    ensures Sound(ExecRange(x, i, end, step, body, w, o, r, fuel), w, c.defined, SurveyBlock(body, c.defined + {x}).demoted, c, r.env)
    decreases fuel, BlockSize(body), 3
  {
    hide SurveyBlock, ExecBlock, Grounded, Assured, Assigned, Sound, Fair, Exhausted;
    var all := SurveyBlock(body, c.defined + {x}).demoted;
    if Exhausted(i, end, step) {
      KeepsSelf(w);
      SoundNext(w, w, all, c, o, r.env);
    } else {
      EachPassSound(x, VInt(i), body, c, w, o, r, fuel);
      var p := PassOf(ExecBlock(body, Bind(w, x, VInt(i)), o, r, fuel));
      if p.Again? {
        var d := Stepped(i, step, r);
        if d.NoNum? {
          OddFair(c);
          SoundStop(d.error, p.world.out, w, c.defined, all, c, r.env);
        } else if fuel == 0 {
          SoundTimeout(p.world.out, w, c.defined, all, c, r.env);
        } else {
          GroundedLater(c, w, p.world, o, r.env);
          RangeSound(x, d.n, end, step, body, c, p.world, o, r, fuel - 1);
          SoundLater(ExecRange(x, d.n, end, step, body, p.world, o, r, fuel - 1), w, p.world, c.defined, c.defined, all, all, c, c, r.env);
        }
      }
    }
  }

  /** One pass with the loop variable bound. */
  lemma {:induction false} EachPassSound(x: string, v: Value, body: Block, c: Facts, w: World, o: Oracle, r: Rules, fuel: nat)
    requires Grounded(c, w.vars, w.globals, o, r.env) && OwnsAll({x} + Assigned(body), r.env)
    ensures var p := PassOf(ExecBlock(body, Bind(w, x, v), o, r, fuel));
      if p.Again? then Keeps(w, p.world) else Sound(p.outcome, w, c.defined, SurveyBlock(body, c.defined + {x}).demoted, c, r.env)
    decreases fuel, BlockSize(body), 2
  {
    hide SurveyBlock, ExecBlock, Grounded, Assured, Assigned, Sound, Fair;
    var d, u := c.And({x}), Bind(w, x, v);
    GroundedBind(x, v, c, w, o, r.env);
    NameErrorsDemoted(body, d, u, o, r, fuel);
    Reliable(c, w, o, r.env);
    PassSound(ExecBlock(body, u, o, r, fuel), w, u, SurveyBlock(body, d.defined).defined, SurveyBlock(body, d.defined).demoted, c, d, r.env);
  }

  lemma {:induction false} ForEachSound(s: Stmt, c: Facts, w: World, o: Oracle, r: Rules, fuel: nat)
    requires s.kind.ForEach? && Grounded(c, w.vars, w.globals, o, r.env) && OwnsAll(AssignedBy(s), r.env)
    ensures Sound(ExecStmt(s, w, o, r, fuel), w, c.defined, SurveyStmt(s, c.defined).demoted, c, r.env)
    decreases fuel, BlockSize(s.kind.body), 4
  {
    hide Eval, Reads, SurveyBlock, ExecBlock, ExecEach, Grounded, Assured, Assigned, Sound, Fair;
    var ForEach(x, iterable, body) := s.kind;
    var all := SurveyStmt(s, c.defined).demoted;
    EvalFair(iterable, w, o, r.At(false), c);
    var v := Eval(iterable, w, o, r.At(false));
    if v.Fail? {
      FairMore(v.error, Reads(iterable) - c.defined, all, c);
      SoundStop(v.error, v.out, w, c.defined, all, c, r.env);
    } else if v.value.VList? {
      GroundedLater(c, w, v.world, o, r.env);
      EachSound(x, v.value.at, 0, body, c, v.world, o, r, fuel);
      SoundLater(ExecStmt(s, w, o, r, fuel), w, v.world, c.defined, c.defined, SurveyBlock(body, c.defined + {x}).demoted, all, c, c, r.env);
    } else {
      OddFair(c);
      SoundStop(TypeError, v.world.out, w, c.defined, all, c, r.env);
    }
  }

  lemma {:induction false} EachSound(x: string, at: nat, i: nat, body: Block, c: Facts, w: World, o: Oracle, r: Rules, fuel: nat)
    requires Grounded(c, w.vars, w.globals, o, r.env) && OwnsAll({x} + Assigned(body), r.env)
    ensures Sound(ExecEach(x, at, i, body, w, o, r, fuel), w, c.defined, SurveyBlock(body, c.defined + {x}).demoted, c, r.env)
    decreases fuel, BlockSize(body), 3
  {
    hide SurveyBlock, ExecBlock, Grounded, Assured, Assigned, Sound, Fair, Items;
    var all := SurveyBlock(body, c.defined + {x}).demoted;
    if i >= |Items(w.heap, at)| {
      KeepsSelf(w);
      SoundNext(w, w, all, c, o, r.env);
    } else {
      var v := Bound(x, Items(w.heap, at)[i], w, r);
      if v.Fail? {
        BoundFair(x, Items(w.heap, at)[i], w, r, all, c);
        SoundStop(v.error, v.out, w, c.defined, all, c, r.env);
      } else {
        EachPassSound(x, v.value, body, c, w, o, r, fuel);
        var p := PassOf(ExecBlock(body, Bind(w, x, v.value), o, r, fuel));
        if p.Again? {
          if fuel == 0 {
            SoundTimeout(p.world.out, w, c.defined, all, c, r.env);
          } else {
            GroundedLater(c, w, p.world, o, r.env);
            EachSound(x, at, i + 1, body, c, p.world, o, r, fuel - 1);
            SoundLater(ExecEach(x, at, i + 1, body, p.world, o, r, fuel - 1), w, p.world, c.defined, c.defined, all, all, c, c, r.env);
          }
        }
      }
    }
  }

  lemma BoundFair(x: string, v: Value, w: World, r: Rules, names: set<string>, c: Facts)
    ensures Bound(x, v, w, r).Fail? ==> Fair(Bound(x, v, w, r).error, names, c)
  {
  }

  /** No run of a body, whatever it calls, reports a name that was not demoted as read
      before it is assigned. */
  lemma DefinitelyAssigned(b: Block, w: World, o: Oracle, r: Rules, fuel: nat, x: string)
    requires x !in Demoted(b) && OwnsAll(Assigned(b), r.env)
    ensures var y := ExecBlock(b, w, o, r, fuel); y.Stopped? ==> x !in Missed(y.error, false)
  {
    hide ExecBlock, SurveyBlock, Missed;
    NameErrorsDemoted(b, Facts({}, false, {}, {}), w, o, r, fuel);
  }

  // ------------------------------------------------ what is demoted is outside

  lemma {:induction false} DemotedOutside(b: Block, defined: set<string>)
    ensures SurveyBlock(b, defined).demoted !! defined && defined <= SurveyBlock(b, defined).defined
    decreases BlockSize(b), 1
  {
    hide SurveyStmt;
    if b != [] {
      StmtDemotedOutside(b[0], defined);
      DemotedOutside(b[1..], SurveyStmt(b[0], defined).defined);
    }
  }

  lemma {:induction false} StmtDemotedOutside(s: Stmt, defined: set<string>)
    ensures SurveyStmt(s, defined).demoted !! defined && defined <= SurveyStmt(s, defined).defined
    decreases StmtSize(s), 0
  {
    hide SurveyBlock, SurveyArms, Reads;
    match s.kind
    case If(c, body, elifs, orelse) =>
      DemotedOutside(body, defined);
      DemotedOutside(ElseOf(orelse), defined);
      ArmsDemotedOutside(elifs, defined);
    case While(c, body) => DemotedOutside(body, defined);
    case For(x, _, _, _, body, _) => DemotedOutside(body, defined + {x});
    case ForEach(x, _, body) => DemotedOutside(body, defined + {x});
    case _ =>
  }

  lemma {:induction false} ArmsDemotedOutside(elifs: seq<Arm>, defined: set<string>)
    ensures SurveyArms(elifs, defined) !! defined
    decreases ArmsSize(elifs), 1
  {
    hide SurveyBlock, Reads;
    if elifs != [] {
      DemotedOutside(elifs[0].body, defined);
      ArmsDemotedOutside(elifs[1..], defined);
    }
  }
}
