/** Module variables in raw slots (src/codegen.rs): which ones the compiler keeps, why no
    function ever finds one of those unassigned, and where the rule falls short. */
module TopLevel {
  import opened Syntax
  import opened Values
  import opened SlotChoice
  import opened PythonSemantics
  import opened DefiniteAssignment
  import opened ProperRuns

  // ------------------------------------------------------- the retain rule

  function SetOf(xs: seq<string>): set<string> { set x | x in xs }

  /** The module variables the functions of a program read. */
  function FnReads(p: Block): set<string> {
    if p == [] then {}
    else
      match p[0].kind
      case Def(_, params, body) => SurveyBlock(body, Assigned(body) + SetOf(params)).demoted + FnReads(p[1..])
      case _ => FnReads(p[1..])
  }

  predicate IsAssign(s: Stmt) { s.kind.Assign? || s.kind.AnnAssign? }

  predicate EndsPrefix(s: Stmt) { !IsAssign(s) && !s.kind.Def? && !s.kind.Import? }

  function TargetOf(s: Stmt): string
    requires IsAssign(s)
  {
    match s.kind case Assign(x, _) => x case AnnAssign(x, _, _) => x
  }

  function AssignedValue(s: Stmt): Expr
    requires IsAssign(s)
  {
    match s.kind case Assign(_, e) => e case AnnAssign(_, e, _) => e
  }

  /** The names bound by the leading assignments. */
  function PrefixNames(p: Block): set<string> {
    if p == [] || EndsPrefix(p[0]) then {}
    else (if IsAssign(p[0]) then {TargetOf(p[0])} else {}) + PrefixNames(p[1..])
  }

  /** Statement `i` assigns `x`, behind nothing but assignments, functions and imports. */
  predicate BoundInFront(p: Block, x: string, i: nat) {
    && i < |p| && (p[i].kind.Assign? || p[i].kind.AnnAssign?) && p[i].kind.target == x
    && forall k :: 0 <= k < i ==> p[k].kind.Assign? || p[k].kind.AnnAssign? || p[k].kind.Def? || p[k].kind.Import?
  }

  lemma {:induction false} PrefixExactly(p: Block, x: string)
    ensures x in PrefixNames(p) <==> exists i: nat :: BoundInFront(p, x, i)
    decreases |p|
  {
    if p != [] {
      PrefixExactly(p[1..], x);
      if x in PrefixNames(p[1..]) && !EndsPrefix(p[0]) {
        var i: nat :| BoundInFront(p[1..], x, i);
        assert p[i + 1] == p[1..][i] && forall k :: 0 < k < i + 1 ==> p[k] == p[1..][k - 1];
        assert BoundInFront(p, x, i + 1);
      }
      if i: nat :| BoundInFront(p, x, i) {
        if i == 0 {
          assert !EndsPrefix(p[0]);
        } else {
          assert p[1..][i - 1] == p[i] && forall k :: 0 <= k < i - 1 ==> p[1..][k] == p[k + 1];
          assert BoundInFront(p[1..], x, i - 1);
        }
      } else if IsAssign(p[0]) && TargetOf(p[0]) == x {
        assert BoundInFront(p, x, 0);
      }
    }
  }

  /** Variables of `for ... in` loops, which are always bound boxed. */
  function EachVars(b: Block): set<string>
    decreases BlockSize(b), 1
  {
    if b == [] then {} else EachVarsOf(b[0]) + EachVars(b[1..])
  }

  function EachVarsOf(s: Stmt): set<string>
    decreases StmtSize(s), 0
  {
    match s.kind
    case For(_, _, _, _, body, _) => EachVars(body)
    case ForEach(x, _, body) => {x} + EachVars(body)
    case While(_, body) => EachVars(body)
    case If(_, body, elifs, orelse) => EachVars(body) + EachVarsInArms(elifs) + EachVars(ElseOf(orelse))
    case _ => {}
  }

  function EachVarsInArms(elifs: seq<Arm>): set<string>
    decreases ArmsSize(elifs), 1
  {
    if elifs == [] then {} else EachVars(elifs[0].body) + EachVarsInArms(elifs[1..])
  }

  /** Whether the rule keeps a module variable in a raw slot, if its type allows. */
  predicate Retains(p: Block, x: string) {
    x !in Demoted(p) && x !in EachVars(p) && (x in FnReads(p) ==> x in PrefixNames(p))
  }

  method ReadsOfFunctions(p: Block) returns (found: set<string>)
    ensures found == FnReads(p)
  {
    hide SurveyBlock, Assigned;
    found := {};
    var i := 0;
    assert p[0..] == p;
    while i < |p|
      invariant 0 <= i <= |p| && found + FnReads(p[i..]) == FnReads(p)
    {
      assert p[i..][0] == p[i] && p[i..][1..] == p[i + 1..];
      match p[i].kind {
        case Def(_, params, body) =>
          var locals;
          locals, found := CollectMaybeUnassignedReads(body, Assigned(body) + SetOf(params), found);
        case _ =>
      }
      i := i + 1;
    }
  }

  method PrefixBound(p: Block) returns (names: set<string>)
    ensures names == PrefixNames(p)
  {
    names := {};
    var i := 0;
    assert p[0..] == p;
    while i < |p| && !EndsPrefix(p[i])
      invariant 0 <= i <= |p|
      invariant names + PrefixNames(p[i..]) == PrefixNames(p)
    {
      assert p[i..][0] == p[i] && p[i..][1..] == p[i + 1..];
      if IsAssign(p[i]) { names := names + {TargetOf(p[i])}; }
      i := i + 1;
    }
  }

  /** The rule as it is written: three gatherings and a filter. */
  method TypedGlobals(p: Block, inferred: set<string>) returns (kept: set<string>)
    ensures kept == set x | x in inferred && Retains(p, x)
  {
    var defined, demoted := CollectMaybeUnassignedReads(p, {}, EachVars(p));
    var fnReads := ReadsOfFunctions(p);
    var prefixBound := PrefixBound(p);
    kept := set x | x in inferred && x !in demoted && (x !in fnReads || x in prefixBound);
  }

  // ------------------------------------------------- programs that call themselves

  datatype Function = Function(params: seq<string>, body: Block)

  predicate IsIdentifier(f: string) { f != "" && (f[0] == '_' || 'a' <= f[0] <= 'z' || 'A' <= f[0] <= 'Z') }

  function FunctionOf(p: Block, f: string): Option<Function> {
    if p == [] || !IsIdentifier(f) then None
    else
      match p[0].kind
      case Def(name, params, body) => if name == f then Some(Function(params, body)) else FunctionOf(p[1..], f)
      case _ => FunctionOf(p[1..], f)
  }

  /** The rules for a function's body: its names are its parameters and what it assigns. */
  function Inside(fn: Function, sigs: map<string, Sig>): Rules {
    Rules(Python, Env(false, Assigned(fn.body) + SetOf(fn.params), {}, {}, {}, sigs, false), false)
  }

  function BindAll(params: seq<string>, args: seq<Value>): map<string, Value>
    requires |params| == |args|
  {
    if params == [] then map[] else BindAll(params[1..], args[1..])[params[0] := args[0]]
  }

  function Entering(fn: Function, q: Query): World
    requires |fn.params| == |q.args|
  {
    World(BindAll(fn.params, q.args), q.globals, q.heap, [], 0)
  }

  function AnswerOf(y: Outcome): Answer {
    match y
    case Next(w) => Gives(VNone, w.heap, w.out)
    case Returned(None, w) => Gives(VNone, w.heap, w.out)
    case Returned(Some(v), w) => Gives(v, w.heap, w.out)
    case Stopped(k, out) => Raises(k, out)
    case Timeout(out) => Raises(NoReply, out)
    case Broke(w) => Raises(NoReply, w.out)
    case Continued(w) => Raises(NoReply, w.out)
  }

  ghost function Replied(a: Answer): Reply { if Proper(a) then a else Raises(NoReply, []) }

  /** What calls do in a program: its own functions run, `depth` calls deep at most, and may
      call again; anything else is up to `base`, told by the path of calls that led there. */
  ghost function Linked(p: Block, sigs: map<string, Sig>, base: seq<nat> -> Oracle, path: seq<nat>, depth: nat): Oracle
    decreases depth
  {
    (q: Query) =>
      match FunctionOf(p, q.callee)
      case None => base(path)(q)
      case Some(fn) =>
        if depth == 0 then Raises(NoReply, [])
        else if |fn.params| != |q.args| then Raises(TypeError, [])
        else Replied(AnswerOf(ExecBlock(fn.body, Entering(fn, q), Linked(p, sigs, base, path + [q.nth], depth - 1), Inside(fn, sigs), depth)))
  }

  /** Answers need no repair: asked with proper values, a function gives back proper ones. */
  lemma RepliesExact(p: Block, sigs: map<string, Sig>, base: seq<nat> -> Oracle, path: seq<nat>, depth: nat, q: Query)
    requires ProperVars(q.globals) && ProperHeap(q.heap) && forall i :: 0 <= i < |q.args| ==> ProperValue(q.args[i])
    requires depth > 0 && FunctionOf(p, q.callee).Some? && |FunctionOf(p, q.callee).value.params| == |q.args|
    ensures var fn := FunctionOf(p, q.callee).value;
      Linked(p, sigs, base, path, depth)(q) ==
        AnswerOf(ExecBlock(fn.body, Entering(fn, q), Linked(p, sigs, base, path + [q.nth], depth - 1), Inside(fn, sigs), depth))
  {
    hide ExecBlock, FunctionOf, ProperHeap;
    var fn, o := FunctionOf(p, q.callee).value, Linked(p, sigs, base, path + [q.nth], depth - 1);
    BindAllProper(fn.params, q.args);
    var w := Entering(fn, q);
    RunProper(fn.body, w, o, Inside(fn, sigs), depth);
    assert ProperValue(VNone);
  }

  lemma {:induction false} BindAllProper(params: seq<string>, args: seq<Value>)
    requires |params| == |args| && forall i :: 0 <= i < |args| ==> ProperValue(args[i])
    ensures ProperVars(BindAll(params, args))
    decreases |params|
  {
    if params != [] { BindAllProper(params[1..], args[1..]); }
  }

  /** The world outside the program never reports a name. */
  ghost predicate Innocent(base: seq<nat> -> Oracle) {
    forall path, q :: base(path)(q).Raises? ==> MissedBelow(InCallee(base(path)(q).error)) == {}
  }

  // --------------------------------------------------- functions never miss what is kept

  lemma {:induction false} FnReadsAt(p: Block, f: string)
    requires FunctionOf(p, f).Some?
    ensures var fn := FunctionOf(p, f).value; SurveyBlock(fn.body, Assigned(fn.body) + SetOf(fn.params)).demoted <= FnReads(p)
    decreases |p|
  {
    hide SurveyBlock, Assigned;
    match p[0].kind
    case Def(name, _, _) => if name != f { FnReadsAt(p[1..], f); }
    case _ => FnReadsAt(p[1..], f);
  }

  /** However deep the calls go, no function reports `x`: either none reads it, or all of
      them find it assigned. */
  lemma {:induction false} LinkedTrusts(p: Block, sigs: map<string, Sig>, base: seq<nat> -> Oracle, path: seq<nat>, depth: nat, x: string,
                                        present: set<string>)
    requires Innocent(base) && (x in FnReads(p) ==> x in present)
    ensures Trusts(Linked(p, sigs, base, path, depth), present, {x})
    decreases depth
  {
    hide Linked, Innocent, FnReads;
    var o := Linked(p, sigs, base, path, depth);
    forall q: Query | present <= q.globals.Keys && o(q).Raises? ensures MissedBelow(InCallee(o(q).error)) !! {x} {
      if depth > 0 { LinkedTrusts(p, sigs, base, path + [q.nth], depth - 1, x, present); }
      ReplyTrusts(p, sigs, base, path, depth, q, x, present);
    }
  }

  /** One reply, if the calls below it can be trusted. */
  lemma ReplyTrusts(p: Block, sigs: map<string, Sig>, base: seq<nat> -> Oracle, path: seq<nat>, depth: nat, q: Query, x: string, present: set<string>)
    requires Innocent(base) && (x in FnReads(p) ==> x in present) && present <= q.globals.Keys
    requires depth > 0 ==> Trusts(Linked(p, sigs, base, path + [q.nth], depth - 1), present, {x})
    ensures var a := Linked(p, sigs, base, path, depth)(q); a.Raises? ==> MissedBelow(InCallee(a.error)) !! {x}
  {
    hide ExecBlock, Innocent, FunctionOf, FnReads, Trusts, Inside, BindAll;
    var o, fn := Linked(p, sigs, base, path, depth), FunctionOf(p, q.callee);
    if fn.None? {
      assert o(q) == base(path)(q);
      if o(q).Raises? { InnocentAt(base, path, q); }
    } else if depth > 0 && |fn.value.params| == |q.args| {
      var inner, w := Linked(p, sigs, base, path + [q.nth], depth - 1), Entering(fn.value, q);
      var y := ExecBlock(fn.value.body, w, inner, Inside(fn.value, sigs), depth);
      BodyTrusts(p, q.callee, sigs, inner, w, depth, x, present);
      assert o(q) == Replied(AnswerOf(y));
      RaisedOnly(y, x);
    }
  }

  /** A reply that raises comes from a run that stopped, or from none. */
  lemma RaisedOnly(y: Outcome, x: string)
    requires y.Stopped? ==> MissedBelow(InCallee(y.error)) !! {x}
    ensures Replied(AnswerOf(y)).Raises? ==> MissedBelow(InCallee(Replied(AnswerOf(y)).error)) !! {x}
  {
    hide ProperHeap;
  }

  lemma InnocentAt(base: seq<nat> -> Oracle, path: seq<nat>, q: Query)
    requires Innocent(base) && base(path)(q).Raises?
    ensures MissedBelow(InCallee(base(path)(q).error)) == {}
  {
  }

  /** One body, run with callees that do not report `x`. */
  lemma BodyTrusts(p: Block, f: string, sigs: map<string, Sig>, o: Oracle, w: World, fuel: nat, x: string, present: set<string>)
    requires FunctionOf(p, f).Some? && Trusts(o, present, {x}) && present <= w.globals.Keys && (x in FnReads(p) ==> x in present)
    ensures var fn := FunctionOf(p, f).value;
      var y := ExecBlock(fn.body, w, o, Inside(fn, sigs), fuel);
      y.Stopped? ==> MissedBelow(InCallee(y.error)) !! {x}
  {
    hide ExecBlock, Trusts, FunctionOf, FnReads, SurveyBlock, Assigned;
    var fn := FunctionOf(p, f).value;
    var locals := Assigned(fn.body) + SetOf(fn.params);
    var c := Facts(locals + present, true, present, {x});
    NameErrorsDemoted(fn.body, c, w, o, Inside(fn, sigs), fuel);
    DemotedOutside(fn.body, c.defined);
    FnReadsAt(p, f);
    if x !in present { assert locals + {} == locals; SurveyShrinks(fn.body, locals, c.defined); }
    var y := ExecBlock(fn.body, w, o, Inside(fn, sigs), fuel);
    if y.Stopped? { BelowOrHere(y.error, x, c, SurveyBlock(fn.body, c.defined).demoted); }
  }

  lemma BelowOrHere(k: Error, x: string, c: Facts, demoted: set<string>)
    requires Fair(k, demoted, c) && c.modules && c.spared == {x} && x !in demoted
    ensures MissedBelow(InCallee(k)) !! {x}
  {
  }

  /** The more is known to be assigned, the less is demoted. */
  lemma {:induction false} SurveyShrinks(b: Block, d: set<string>, e: set<string>)
    requires d <= e
    ensures SurveyBlock(b, e).demoted <= SurveyBlock(b, d).demoted && SurveyBlock(b, d).defined <= SurveyBlock(b, e).defined
    decreases BlockSize(b), 1
  {
    hide SurveyStmt;
    if b != [] {
      StmtShrinks(b[0], d, e);
      SurveyShrinks(b[1..], SurveyStmt(b[0], d).defined, SurveyStmt(b[0], e).defined);
    }
  }

  lemma {:induction false} StmtShrinks(s: Stmt, d: set<string>, e: set<string>)
    requires d <= e
    ensures SurveyStmt(s, e).demoted <= SurveyStmt(s, d).demoted && SurveyStmt(s, d).defined <= SurveyStmt(s, e).defined
    decreases StmtSize(s), 0
  {
    hide SurveyBlock, SurveyArms, Reads;
    match s.kind
    case If(c, body, elifs, orelse) =>
      SurveyShrinks(body, d, e);
      SurveyShrinks(ElseOf(orelse), d, e);
      ArmsShrink(elifs, d, e);
    case While(c, body) => SurveyShrinks(body, d, e);
    case For(x, _, _, _, body, _) => SurveyShrinks(body, d + {x}, e + {x});
    case ForEach(x, _, body) => SurveyShrinks(body, d + {x}, e + {x});
    case _ =>
  }

  lemma {:induction false} ArmsShrink(elifs: seq<Arm>, d: set<string>, e: set<string>)
    requires d <= e
    ensures SurveyArms(elifs, e) <= SurveyArms(elifs, d)
    decreases ArmsSize(elifs), 1
  {
    hide SurveyBlock, Reads;
    if elifs != [] {
      SurveyShrinks(elifs[0].body, d, e);
      ArmsShrink(elifs[1..], d, e);
    }
  }

  // ------------------------------------------------------------- quiet prefixes

  /** Whether computing an expression may run one of the program's functions. */
  predicate CallsUser(e: Expr, p: Block) {
    match e.kind
    case Unary(_, i) => CallsUser(i, p)
    case Bin(_, a, b) => CallsUser(a, p) || CallsUser(b, p)
    case Call(f, args) => FunctionOf(p, f).Some? || AnyCallsUser(args, p)
    case MethodCall(obj, _, args) => CallsUser(obj, p) || AnyCallsUser(args, p)
    case _ => false
  }

  predicate AnyCallsUser(es: seq<Expr>, p: Block) {
    es != [] && (CallsUser(es[0], p) || AnyCallsUser(es[1..], p))
  }

  /** No right-hand side up to and including the first binding of `x` calls user code. */
  predicate QuietUntil(b: Block, p: Block, x: string) {
    b != [] && !EndsPrefix(b[0]) &&
    (if IsAssign(b[0])
     then !CallsUser(AssignedValue(b[0]), p) && (TargetOf(b[0]) == x || QuietUntil(b[1..], p, x))
     else QuietUntil(b[1..], p, x))
  }

  /** Nothing but the program's functions reports a name. */
  ghost predicate OthersInnocent(o: Oracle, p: Block) {
    forall q: Query :: FunctionOf(p, q.callee).None? && o(q).Raises? ==> MissedBelow(InCallee(o(q).error)) == {}
  }

  lemma LinkedOthers(p: Block, sigs: map<string, Sig>, base: seq<nat> -> Oracle, path: seq<nat>, depth: nat)
    requires Innocent(base)
    ensures OthersInnocent(Linked(p, sigs, base, path, depth), p)
  {
    hide FunctionOf;
    var o := Linked(p, sigs, base, path, depth);
    forall q: Query | FunctionOf(p, q.callee).None? && o(q).Raises? ensures MissedBelow(InCallee(o(q).error)) == {} {
      assert o(q) == base(path)(q);
      InnocentAt(base, path, q);
    }
  }

  lemma AskQuiet(f: string, vs: seq<Value>, w: World, o: Oracle, r: Rules, p: Block)
    requires OthersInnocent(o, p) && FunctionOf(p, f).None?
    ensures var v := Ask(f, vs, w, o, r); v.Fail? ==> MissedBelow(v.error) == {}
  {
    var q := Query(w.calls, f, vs, w.heap, Seen(w, r.env));
    assert FunctionOf(p, q.callee).None?;
  }

  lemma {:induction false} EvalQuiet(e: Expr, w: World, o: Oracle, r: Rules, p: Block)
    requires OthersInnocent(o, p) && !CallsUser(e, p)
    ensures var v := Eval(e, w, o, r); v.Fail? ==> MissedBelow(v.error) == {}
    decreases e, 0
  {
    hide ConstInt, OthersInnocent, Binary, Called, Sent, Negate, EvalAll, Test, FunctionOf;
    if ConstInt(e).None? {
      match e.kind {
        case Unary(Neg, i) =>
          EvalQuiet(i, w, o, r, p);
          var v := Eval(i, w, o, r);
          if v.Ok? { NegateFair(v.value, r); }
        case Unary(Not, i) => TestQuiet(i, w, o, r, p);
        case Bin(op, a, b) =>
          EvalQuiet(a, w, o, r, p);
          var x := Eval(a, w, o, r);
          if x.Ok? {
            EvalQuiet(b, x.world, o, r, p);
            var y := Eval(b, x.world, o, r);
            if y.Ok? { BinaryQuiet(op, x.value, y.value, y.world, o, r, p); }
          }
        case Call(f, args) =>
          AllQuiet(args, RawParams(f, r.env.sigs), f, w, o, r, p);
          CalledQuiet(f, EvalAll(args, RawParams(f, r.env.sigs), f, w, o, r), o, r, p);
        case MethodCall(obj, m, args) =>
          EvalQuiet(obj, w, o, r.At(false), p);
          var l := Eval(obj, w, o, r.At(false));
          if l.Ok? {
            AllQuiet(args, [], m, l.world, o, r, p);
            SentQuiet(l.value, m, |args|, EvalAll(args, [], m, l.world, o, r), w, l.world, o, r, p);
          }
        case _ =>
      }
    }
  }

  lemma AskTruthQuiet(f: string, vs: seq<Value>, yes: bool, w: World, o: Oracle, r: Rules, p: Block)
    requires OthersInnocent(o, p) && FunctionOf(p, f).None?
    ensures var v := AskTruth(f, vs, yes, w, o, r); v.Fail? ==> MissedBelow(v.error) == {}
  {
    hide Ask, OthersInnocent, FunctionOf;
    AskQuiet(f, vs, w, o, r, p);
  }

  lemma BinaryQuiet(op: BinOp, a: Value, b: Value, w: World, o: Oracle, r: Rules, p: Block)
    requires OthersInnocent(o, p)
    ensures var v := Binary(op, a, b, w, o, r); v.Fail? ==> MissedBelow(v.error) == {}
  {
    assert FunctionOf(p, "+").None? && FunctionOf(p, "*").None? && FunctionOf(p, "==").None? && FunctionOf(p, Ordering(op)).None?;
    AskQuiet("+", [a, b], w, o, r, p);
    AskQuiet("*", [a, b], w, o, r, p);
    AskTruthQuiet("==", [a, b], op == Eq, w, o, r, p);
    AskTruthQuiet(Ordering(op), [a, b], true, w, o, r, p);
    PlainBlameless(op, a, b, w);
    hide OthersInnocent, FunctionOf, Plain, Ask, AskTruth, Ordering;
    if a.VList? && b.VList? { ListsQuiet(op, a, b, w, o, r); }
  }

  lemma ListsQuiet(op: BinOp, a: Value, b: Value, w: World, o: Oracle, r: Rules)
    requires a.VList? && b.VList?
    requires var v := Ask("+", [a, b], w, o, r); v.Fail? ==> MissedBelow(v.error) == {}
    requires var v := AskTruth("==", [a, b], op == Eq, w, o, r); v.Fail? ==> MissedBelow(v.error) == {}
    requires var v := AskTruth(Ordering(op), [a, b], true, w, o, r); v.Fail? ==> MissedBelow(v.error) == {}
    requires var v := Plain(op, a, b, w); v.Fail? ==> MissedBelow(v.error) == {}
    ensures var v := Binary(op, a, b, w, o, r); v.Fail? ==> MissedBelow(v.error) == {}
  {
    assert MissedBelow(Departs(ListOrder)) == {};
    hide MissedBelow, Plain, Ask, AskTruth, Ordering;
  }

  lemma CalledQuiet(f: string, args: EvaluatedAll, o: Oracle, r: Rules, p: Block)
    requires OthersInnocent(o, p) && FunctionOf(p, f).None? && (args.Fails? ==> MissedBelow(args.error) == {})
    ensures var v := Called(f, args, o, r); v.Fail? ==> MissedBelow(v.error) == {}
  {
    hide Ask, OthersInnocent;
    if args.Oks? { AskQuiet(f, args.values, args.world, o, r, p); }
  }

  lemma SentQuiet(l: Value, m: string, n: nat, args: EvaluatedAll, before: World, w: World, o: Oracle, r: Rules, p: Block)
    requires OthersInnocent(o, p) && (args.Oks? ==> |args.values| == n) && (args.Fails? ==> MissedBelow(args.error) == {})
    ensures var v := Sent(l, m, n, args, before, w, o, r); v.Fail? ==> MissedBelow(v.error) == {}
  {
    hide Ask, OthersInnocent;
    assert ("." + m)[0] == '.';
    assert FunctionOf(p, "." + m).None?;
    if args.Oks? { AskQuiet("." + m, [l] + args.values, args.world, o, r, p); }
  }

  lemma {:induction false} AllQuiet(es: seq<Expr>, raws: seq<bool>, f: string, w: World, o: Oracle, r: Rules, p: Block)
    requires OthersInnocent(o, p) && !AnyCallsUser(es, p)
    ensures var v := EvalAll(es, raws, f, w, o, r); v.Fails? ==> MissedBelow(v.error) == {}
    decreases es, 2
  {
    hide OthersInnocent, Eval, CallsUser;
    if es != [] {
      var raw := raws != [] && raws[0];
      EvalQuiet(es[0], w, o, r.At(raw && Scalar(es[0], r.env)), p);
      var v := Slot(es[0], raw, f, w, o, r);
      if v.Ok? { AllQuiet(es[1..], if raws == [] then [] else raws[1..], f, v.world, o, r, p); }
    }
  }

  lemma {:induction false} TestQuiet(e: Expr, w: World, o: Oracle, r: Rules, p: Block)
    requires OthersInnocent(o, p) && !CallsUser(e, p)
    ensures var t := Test(e, w, o, r); t.Breaks? ==> MissedBelow(t.error) == {}
    decreases e, 3
  {
    hide OthersInnocent, Eval;
    if e.kind.Unary? && e.kind.op == Not { TestQuiet(e.kind.operand, w, o, r, p); } else { EvalQuiet(e, w, o, r.At(TestsRaw(e, r.env)), p); }
  }

  // ----------------------------------------------------------- the main results

  /** What a top-level run may report: names the survey demoted, and never `x` from inside
      a call. */
  ghost predicate Reports(y: Outcome, demoted: set<string>, x: string) {
    y.Stopped? ==> Missed(y.error, false) <= demoted && x !in MissedBelow(y.error)
  }

  /** From a quiet prefix on: until `x` is bound nothing of the program is called, and after
      that every callee finds it. */
  lemma {:induction false} PrefixSafe(b: Block, p: Block, x: string, c: Facts, w: World, o: Oracle, r: Rules, fuel: nat)
    requires QuietUntil(b, p, x) && OthersInnocent(o, p) && Trusts(o, {x}, {x}) && r.env.top
    requires Grounded(c, w.vars, w.globals, o, r.env) && !c.modules && c.present == {} && c.spared == {}
    ensures Reports(ExecBlock(b, w, o, r, fuel), SurveyBlock(b, c.defined).demoted, x)
    decreases |b|
  {
    hide Reads, Trusts, OthersInnocent, CallsUser, ExecAssign, Grounded, Fair;
    if IsAssign(b[0]) {
      var t, e := TargetOf(b[0]), AssignedValue(b[0]);
      AssignReports(t, e, p, x, c, w, o, r);
      var y := ExecAssign(t, e, w, o, r);
      if y.Next? {
        if t == x {
          NameErrorsDemoted(b[1..], Facts(c.defined + {t}, false, {x}, {x}), y.world, o, r, fuel);
          FairReports(ExecBlock(b[1..], y.world, o, r, fuel), SurveyBlock(b[1..], c.defined + {t}), c.defined + {t}, y.world, x, r.env);
        } else {
          PrefixSafe(b[1..], p, x, c.And({t}), y.world, o, r, fuel);
        }
      }
    } else {
      PrefixSafe(b[1..], p, x, c, w, o, r, fuel);
    }
  }

  lemma FairReports(y: Outcome, s: Survey, defined: set<string>, w: World, x: string, env: Env)
    requires Sound(y, w, s.defined, s.demoted, Facts(defined, false, {x}, {x}), env)
    ensures Reports(y, s.demoted, x)
  {
  }

  /** One leading assignment: nothing of the program is called, and its name is bound. */
  lemma AssignReports(t: string, e: Expr, p: Block, x: string, c: Facts, w: World, o: Oracle, r: Rules)
    requires OthersInnocent(o, p) && Trusts(o, {x}, {x}) && r.env.top && !CallsUser(e, p)
    requires Grounded(c, w.vars, w.globals, o, r.env) && !c.modules && c.present == {} && c.spared == {}
    ensures var y := ExecAssign(t, e, w, o, r);
      if y.Next? then
        && Grounded(c.And({t}), y.world.vars, y.world.globals, o, r.env)
        && (t == x ==> Grounded(Facts(c.defined + {t}, false, {x}, {x}), y.world.vars, y.world.globals, o, r.env))
      else Reports(y, Reads(e) - c.defined, x)
  {
    hide Eval, Reads, Trusts, OthersInnocent, CallsUser, Bound;
    var r1 := r.At(t in r.env.typed && Scalar(e, r.env));
    EvalFair(e, w, o, r1, c);
    EvalQuiet(e, w, o, r1, p);
    var v := Eval(e, w, o, r1);
    if v.Ok? {
      BoundFair(t, v.value, v.world, r, {}, Facts({}, false, {}, {x}));
      var u := Bound(t, v.value, v.world, r);
      if u.Ok? { GroundedBind(t, u.value, c, v.world, o, r.env); }
    }
  }

  /** A module variable the rule keeps is never read unassigned, in any run of the program or
      of any function it calls, if no function reads it or none is called before it is
      bound. */
  lemma KeptNeverMissed(p: Block, x: string, sigs: map<string, Sig>, base: seq<nat> -> Oracle, path: seq<nat>, depth: nat, w: World,
                        r: Rules, fuel: nat)
    requires Innocent(base) && r.env.top && Retains(p, x) && (x in FnReads(p) ==> QuietUntil(p, p, x))
    ensures var y := ExecBlock(p, w, Linked(p, sigs, base, path, depth), r, fuel);
      y.Stopped? ==> x !in Missed(y.error, false) && x !in MissedBelow(y.error)
  {
    hide ExecBlock, SurveyBlock, FnReads, QuietUntil, PrefixNames, EachVars, Trusts, Innocent;
    var o := Linked(p, sigs, base, path, depth);
    if x in FnReads(p) {
      LinkedTrusts(p, sigs, base, path, depth, x, {x});
      LinkedOthers(p, sigs, base, path, depth);
      NothingSpared(o);
      PrefixSafe(p, p, x, Facts({}, false, {}, {}), w, o, r, fuel);
    } else {
      LinkedTrusts(p, sigs, base, path, depth, x, {});
      NameErrorsDemoted(p, Facts({}, false, {}, {x}), w, o, r, fuel);
    }
  }

  lemma NothingSpared(o: Oracle)
    ensures Trusts(o, {}, {})
  {
  }

  // --------------------------------------------------- exactly how far the rule protects

  /** Functions without parameters that all have the same body. */
  function Defs(fs: seq<string>, body: Block): Block {
    if fs == [] then [] else [AsStmt(Def(fs[0], [], body))] + Defs(fs[1..], body)
  }

  /** Assignments of numbers and of what a function of `fs` gives back. */
  predicate PlainPrefix(b: Block, fs: seq<string>) {
    b == [] ||
    (b[0].kind.Assign? && PlainPrefix(b[1..], fs) &&
     match b[0].kind.value.kind
     case Int(n) => Fits(n)
     case Call(f, args) => f in fs && IsIdentifier(f) && args == []
     case _ => false)
  }

  lemma {:induction false} DefsAt(fs: seq<string>, body: Block, rest: Block, f: string)
    requires f in fs && IsIdentifier(f)
    ensures FunctionOf(Defs(fs, body) + rest, f) == Some(Function([], body))
    decreases |fs|
  {
    var p := Defs(fs, body) + rest;
    assert p[0] == AsStmt(Def(fs[0], [], body)) && p[1..] == Defs(fs[1..], body) + rest;
    if fs[0] != f { DefsAt(fs[1..], body, rest, f); }
  }

  lemma {:induction false} DefsRun(fs: seq<string>, body: Block, rest: Block, w: World, o: Oracle, r: Rules, fuel: nat)
    ensures ExecBlock(Defs(fs, body) + rest, w, o, r, fuel) == ExecBlock(rest, w, o, r, fuel)
    decreases |fs|
  {
    var p := Defs(fs, body) + rest;
    if fs == [] {
      assert p == rest;
    } else {
      assert p[0] == AsStmt(Def(fs[0], [], body)) && p[1..] == Defs(fs[1..], body) + rest;
      DefsRun(fs[1..], body, rest, w, o, r, fuel);
    }
  }

  lemma {:induction false} DefsQuiet(fs: seq<string>, body: Block, rest: Block, p: Block, x: string)
    ensures QuietUntil(Defs(fs, body) + rest, p, x) == QuietUntil(rest, p, x)
    decreases |fs|
  {
    var b := Defs(fs, body) + rest;
    if fs == [] {
      assert b == rest;
    } else {
      assert b[0] == AsStmt(Def(fs[0], [], body)) && b[1..] == Defs(fs[1..], body) + rest;
      DefsQuiet(fs[1..], body, rest, p, x);
    }
  }

  /** A function that does nothing but give back `x`. */
  function Reader(x: string): Block { [AsStmt(Return(Some(AsExpr(Name(x)))))] }

  lemma ReaderFails(x: string, fs: seq<string>, rest: Block, sigs: map<string, Sig>, base: seq<nat> -> Oracle, path: seq<nat>, depth: nat, q: Query)
    requires depth > 0 && q.callee in fs && IsIdentifier(q.callee) && q.args == [] && x !in q.globals
    ensures Linked(Defs(fs, Reader(x)) + rest, sigs, base, path, depth)(q) == Raises(NameError(x, true), [])
  {
    hide ExecBlock, FunctionOf, Inside, ProperHeap, Reader, Defs;
    var p := Defs(fs, Reader(x)) + rest;
    DefsAt(fs, Reader(x), rest, q.callee);
    var fn, inner := Function([], Reader(x)), Linked(p, sigs, base, path + [q.nth], depth - 1);
    ReaderRuns(x, Entering(fn, q), inner, sigs, depth);
  }

  lemma ReaderRuns(x: string, w: World, o: Oracle, sigs: map<string, Sig>, fuel: nat)
    requires x !in w.globals
    ensures ExecBlock(Reader(x), w, o, Inside(Function([], Reader(x)), sigs), fuel) == Stopped(NameError(x, true), w.out)
  {
    var r := Inside(Function([], Reader(x)), sigs);
    assert Reader(x)[1..] == [];
    assert x !in Assigned(Reader(x)) + SetOf([]);
    assert Eval(AsExpr(Name(x)), w, o, r) == Fail(NameError(x, true), w.out);
    assert ExecStmt(Reader(x)[0], w, o, r, fuel) == Stopped(NameError(x, true), w.out);
  }

  /** The first call before `x` is bound finds it unassigned. */
  lemma {:induction false} CalledTooEarly(pre: Block, x: string, fs: seq<string>, sigs: map<string, Sig>, base: seq<nat> -> Oracle,
                                          path: seq<nat>, depth: nat,
                                          w: World, r: Rules, fuel: nat, all: Block)
    requires var p := Defs(fs, Reader(x)) + all;
      PlainPrefix(pre, fs) && x in PrefixNames(pre) && !QuietUntil(pre, p, x) && (forall f :: f in fs ==> f in sigs)
    requires r.env.top && r.env.sigs == sigs && r.how.Python? && depth > 0 && x !in w.vars
    ensures var y := ExecBlock(pre, w, Linked(Defs(fs, Reader(x)) + all, sigs, base, path, depth), r, fuel);
      y.Stopped? && y.error == InCallee(NameError(x, true))
    decreases |pre|
  {
    hide Linked, FunctionOf;
    var p := Defs(fs, Reader(x)) + all;
    var o := Linked(p, sigs, base, path, depth);
    var Assign(t, e) := pre[0].kind;
    var r1 := r.At(t in r.env.typed && Scalar(e, r.env));
    match e.kind
    case Int(n) =>
      assert !CallsUser(e, p);
      assert Eval(e, w, o, r1) == Ok(VInt(n), w);
      CalledTooEarly(pre[1..], x, fs, sigs, base, path, depth, Bind(w, t, VInt(n)), r, fuel, all);
    case Call(f, args) =>
      var q := Query(w.calls, f, [], w.heap, w.vars);
      ReaderFails(x, fs, all, sigs, base, path, depth, q);
      assert EvalAll([], RawParams(f, sigs), f, w, o, r1) == Oks([], w);
      assert Ask(f, [], w, o, r1) == Fail(InCallee(NameError(x, true)), w.out + []);
      assert Eval(e, w, o, r1) == Ask(f, [], w, o, r1);
  }

  /** With plain leading assignments, the variable `x` bound among them is safe whatever the
      functions do exactly if none is called before that. */
  lemma PrefixRuleExact(pre: Block, x: string, fs: seq<string>, sigs: map<string, Sig>, base: seq<nat> -> Oracle, w: World, env: Env)
    requires PlainPrefix(pre, fs) && x in PrefixNames(pre) && (forall f :: f in fs <==> f in sigs)
    requires env.top && env.sigs == sigs && x !in w.vars && Innocent(base) && (forall f :: f in fs ==> IsIdentifier(f))
    ensures (forall f :: f in fs ==> !CallsBefore(pre, f, x)) <==>
            forall body, depth, fuel :: SafeRun(Defs(fs, body) + pre, x, sigs, base, depth, w, env, fuel)
  {
    hide ExecBlock, Linked, Innocent, PrefixNames, QuietUntil, SafeRun, FunctionOf;
    if forall f :: f in fs ==> !CallsBefore(pre, f, x) {
      forall body, depth, fuel ensures SafeRun(Defs(fs, body) + pre, x, sigs, base, depth, w, env, fuel) {
        var p := Defs(fs, body) + pre;
        QuietIfNotCalled(pre, x, fs, body);
        QuietRun(pre, x, fs, body, sigs, base, depth, w, env, fuel);
      }
    } else {
      var p := Defs(fs, Reader(x)) + pre;
      CalledIfNotQuiet(pre, x, fs, Reader(x));
      CalledTooEarly(pre, x, fs, sigs, base, [], 1, w, Rules(Python, env, false), 0, pre);
      DefsRun(fs, Reader(x), pre, w, Linked(p, sigs, base, [], 1), Rules(Python, env, false), 0);
      UnsafeRun(p, x, sigs, base, 1, w, env, 0);
    }
  }

  /** A call of `f` comes before the first binding of `x`, or in it. */
  predicate CallsBefore(pre: Block, f: string, x: string) {
    pre != [] && IsAssign(pre[0]) &&
    ((AssignedValue(pre[0]).kind.Call? && AssignedValue(pre[0]).kind.func == f) || (TargetOf(pre[0]) != x && CallsBefore(pre[1..], f, x)))
  }

  /** A run in which neither the program nor a function finds `x` unassigned. */
  ghost predicate SafeRun(p: Block, x: string, sigs: map<string, Sig>, base: seq<nat> -> Oracle, depth: nat, w: World, env: Env, fuel: nat) {
    var y := ExecBlock(p, w, Linked(p, sigs, base, [], depth), Rules(Python, env, false), fuel);
    y.Stopped? ==> x !in Missed(y.error, false) && x !in MissedBelow(y.error)
  }

  lemma UnsafeRun(p: Block, x: string, sigs: map<string, Sig>, base: seq<nat> -> Oracle, depth: nat, w: World, env: Env, fuel: nat)
    requires var y := ExecBlock(p, w, Linked(p, sigs, base, [], depth), Rules(Python, env, false), fuel);
      y.Stopped? && y.error == InCallee(NameError(x, true))
    ensures !SafeRun(p, x, sigs, base, depth, w, env, fuel)
  {
    hide ExecBlock, Linked;
  }

  lemma {:induction false} QuietIffNotCalled(b: Block, x: string, fs: seq<string>, p: Block)
    requires PlainPrefix(b, fs) && x in PrefixNames(b) && (forall f :: f in fs ==> FunctionOf(p, f).Some?)
    ensures QuietUntil(b, p, x) <==> forall f :: f in fs ==> !CallsBefore(b, f, x)
    decreases |b|
  {
    var Assign(t, e) := b[0].kind;
    if e.kind.Call? { assert CallsBefore(b, e.kind.func, x); } else {
      assert forall f :: CallsBefore(b, f, x) <==> t != x && CallsBefore(b[1..], f, x);
      if t != x { QuietIffNotCalled(b[1..], x, fs, p); }
    }
  }

  lemma AllDefined(fs: seq<string>, body: Block, rest: Block)
    requires forall f :: f in fs ==> IsIdentifier(f)
    ensures forall f :: f in fs ==> FunctionOf(Defs(fs, body) + rest, f).Some?
  {
    forall f | f in fs ensures FunctionOf(Defs(fs, body) + rest, f).Some? { DefsAt(fs, body, rest, f); }
  }

  lemma QuietIfNotCalled(pre: Block, x: string, fs: seq<string>, body: Block)
    requires PlainPrefix(pre, fs) && x in PrefixNames(pre) && (forall f :: f in fs ==> IsIdentifier(f))
    requires forall f :: f in fs ==> !CallsBefore(pre, f, x)
    ensures QuietUntil(Defs(fs, body) + pre, Defs(fs, body) + pre, x)
  {
    hide QuietUntil, FunctionOf, PrefixNames;
    AllDefined(fs, body, pre);
    QuietIffNotCalled(pre, x, fs, Defs(fs, body) + pre);
    DefsQuiet(fs, body, pre, Defs(fs, body) + pre, x);
  }

  lemma CalledIfNotQuiet(pre: Block, x: string, fs: seq<string>, body: Block)
    requires PlainPrefix(pre, fs) && x in PrefixNames(pre) && (forall f :: f in fs ==> IsIdentifier(f))
    requires exists f :: f in fs && CallsBefore(pre, f, x)
    ensures !QuietUntil(pre, Defs(fs, body) + pre, x)
  {
    hide QuietUntil, FunctionOf, PrefixNames;
    AllDefined(fs, body, pre);
    QuietIffNotCalled(pre, x, fs, Defs(fs, body) + pre);
  }

  /** Plain prefixes read no names, so the rule keeps what they bind. */
  lemma {:induction false} PlainReadsNothing(pre: Block, fs: seq<string>, defined: set<string>)
    requires PlainPrefix(pre, fs)
    ensures SurveyBlock(pre, defined).demoted == {} && EachVars(pre) == {}
    decreases |pre|
  {
    if pre != [] {
      assert Reads(pre[0].kind.value) == {};
      PlainReadsNothing(pre[1..], fs, defined + {pre[0].kind.target});
    }
  }

  lemma {:induction false} DefsReadNothing(fs: seq<string>, body: Block, rest: Block, defined: set<string>)
    ensures SurveyBlock(Defs(fs, body) + rest, defined) == SurveyBlock(rest, defined) && EachVars(Defs(fs, body) + rest) == EachVars(rest)
    ensures PrefixNames(Defs(fs, body) + rest) == PrefixNames(rest)
    decreases |fs|
  {
    var p := Defs(fs, body) + rest;
    if fs == [] {
      assert p == rest;
    } else {
      assert p[0] == AsStmt(Def(fs[0], [], body)) && p[1..] == Defs(fs[1..], body) + rest;
      DefsReadNothing(fs[1..], body, rest, defined);
    }
  }

  /** The rule keeps every name a plain prefix binds, called too early or not. */
  lemma PlainKept(pre: Block, x: string, fs: seq<string>, body: Block)
    requires PlainPrefix(pre, fs) && x in PrefixNames(pre)
    ensures Retains(Defs(fs, body) + pre, x)
  {
    hide SurveyBlock, PrefixNames, EachVars, FnReads;
    DefsReadNothing(fs, body, pre, {});
    PlainReadsNothing(pre, fs, {});
  }

  lemma QuietRun(pre: Block, x: string, fs: seq<string>, body: Block, sigs: map<string, Sig>, base: seq<nat> -> Oracle, depth: nat,
                 w: World, env: Env, fuel: nat)
    requires PlainPrefix(pre, fs) && x in PrefixNames(pre) && QuietUntil(Defs(fs, body) + pre, Defs(fs, body) + pre, x)
    requires env.top && Innocent(base)
    ensures SafeRun(Defs(fs, body) + pre, x, sigs, base, depth, w, env, fuel)
  {
    hide ExecBlock, Linked, Innocent, QuietUntil, PrefixNames, Retains;
    PlainKept(pre, x, fs, body);
    KeptNeverMissed(Defs(fs, body) + pre, x, sigs, base, [], depth, w, Rules(Python, env, false), fuel);
  }

  /** `a = f(); b = 1` where `f` gives back `b`: the rule keeps `b` in a raw slot, and in
      Python the program ends in a NameError inside `f`. */
  lemma PrefixRuleTooWeak(base: seq<nat> -> Oracle, env: Env, w: World, fuel: nat)
    requires env.top && env.sigs.Keys == {"f"} && "b" !in w.vars
    ensures var p := Defs(["f"], Reader("b")) + [AsStmt(Assign("a", AsExpr(Call("f", [])))), AsStmt(Assign("b", AsExpr(Int(1))))];
      var y := ExecBlock(p, w, Linked(p, env.sigs, base, [], 1), Rules(Python, env, false), fuel);
      "b" in FnReads(p) && Retains(p, "b") && y.Stopped? && y.error == InCallee(NameError("b", true))
  {
    var pre := [AsStmt(Assign("a", AsExpr(Call("f", [])))), AsStmt(Assign("b", AsExpr(Int(1))))];
    var p := Defs(["f"], Reader("b")) + pre;
    assert pre[1..] == [AsStmt(Assign("b", AsExpr(Int(1))))] && pre[1..][1..] == [];
    assert PrefixNames(pre) == {"a"} + ({"b"} + PrefixNames([]));
    assert PlainPrefix(pre, ["f"]) by { assert PlainPrefix([], ["f"]); assert PlainPrefix(pre[1..], ["f"]); }
    DefsAt(["f"], Reader("b"), pre, "f");
    assert CallsUser(AssignedValue(pre[0]), p);
    assert !QuietUntil(pre, p, "b");
    CalledTooEarly(pre, "b", ["f"], env.sigs, base, [], 1, w, Rules(Python, env, false), fuel, pre);
    DefsRun(["f"], Reader("b"), pre, w, Linked(p, env.sigs, base, [], 1), Rules(Python, env, false), fuel);
    PlainKept(pre, "b", ["f"], Reader("b"));
    ReaderReads("b", ["f"], pre);
  }

  lemma ReaderReads(x: string, fs: seq<string>, rest: Block)
    requires fs != []
    ensures x in FnReads(Defs(fs, Reader(x)) + rest)
  {
    var p := Defs(fs, Reader(x)) + rest;
    assert p[0] == AsStmt(Def(fs[0], [], Reader(x)));
    assert Reader(x)[1..] == [];
    assert Assigned(Reader(x)) == {} && SetOf([]) == {};
    assert SurveyStmt(Reader(x)[0], {}).demoted == {x};
    assert SurveyBlock(Reader(x), {}).demoted == {x} + SurveyBlock([], {}).demoted;
    assert Assigned(Reader(x)) + SetOf([]) == {};
  }
}
