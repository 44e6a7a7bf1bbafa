/** What a function body or module means, under three sets of rules.  `Python` is the
    language.  `Compiled` says in the same terms what the compiled code does: unassigned
    boxed names read as null, raw slots take numbers only, counters wrap, and some operands
    are evaluated in another order.  `Watched` is Python that stops where the two might
    part.  Whole numbers are the 32-bit ones the language promises.  One unit of fuel pays
    for one more pass of a loop; a run that never ends times out at every fuel. */
module PythonSemantics {
  import opened Syntax
  import opened Values
  import opened MachineIntegers
  import opened SlotChoice

  datatype How = Python | Watched | Compiled

  /** `raw`: the expression at hand is computed unboxed. */
  datatype Rules = Rules(how: How, env: Env, raw: bool) {
    function At(raw: bool): Rules { Rules(how, env, raw) }
  }

  /** `calls` numbers the calls made so far. */
  datatype World = World(vars: map<string, Value>, globals: map<string, Value>, heap: Heap, out: seq<Token>, calls: nat)

  datatype Evaluated = Ok(value: Value, world: World) | Fail(error: Error, out: seq<Token>)

  datatype EvaluatedAll = Oks(values: seq<Value>, world: World) | Fails(error: Error, out: seq<Token>)

  /** A condition decided. */
  datatype Tested = Holds(b: bool, world: World) | Breaks(error: Error, out: seq<Token>)

  datatype Outcome =
    | Next(world: World)
    | Broke(world: World)
    | Continued(world: World)
    | Returned(result: Option<Value>, world: World)
    | Stopped(error: Error, out: seq<Token>)
    | Timeout(out: seq<Token>)

  /** What has been printed by the end. */
  function Out(y: Outcome): seq<Token> {
    match y
    case Next(w) => w.out
    case Broke(w) => w.out
    case Continued(w) => w.out
    case Returned(_, w) => w.out
    case Stopped(_, out) => out
    case Timeout(out) => out
  }

  // ------------------------------------------------------------- names, values

  function Lookup(x: string, w: World, env: Env): Option<Value> {
    if env.Owns(x) then (if x in w.vars then Some(w.vars[x]) else None)
    else if x in w.globals then Some(w.globals[x]) else None
  }

  /** The module variables a callee sees. */
  function Seen(w: World, env: Env): map<string, Value> { if env.top then w.vars else w.globals }

  function Read(x: string, w: World, r: Rules): Evaluated {
    match Lookup(x, w, r.env)
    case Some(v) => Ok(v, w)
    case None =>
      match r.how
      case Python => Fail(NameError(x, !r.env.Owns(x)), w.out)
      case Watched => Fail(Departs(ReadUnassigned(x)), w.out)
      case Compiled => if x in r.env.typed then Fail(NameError(x, !r.env.Owns(x)), w.out) else Ok(VNull, w)
  }

  function Counted(n: Num, w: World): Evaluated {
    match n case Num(k) => Ok(VInt(k), w) case NoNum(e) => Fail(e, w.out)
  }

  function Narrow(n: int): Num { if Fits(n) then Num(n) else NoNum(Overflow) }

  /** What a raw parameter or result makes of a value; `lapse` is what is amiss with one that
      is no whole number. */
  function Coerced(v: Value, lapse: Departure, w: World, r: Rules): Evaluated {
    match r.how
    case Python => Ok(v, w)
    case Watched => if v.VInt? then Ok(v, w) else Fail(Departs(lapse), w.out)
    case Compiled => Counted(Unboxed(v), w)
  }

  function Truthy(v: Value, w: World): Tested {
    match v
    case VNone => Holds(false, w)
    case VList(at) => Holds(Items(w.heap, at) != [], w)
    case _ => (match Unboxed(v) case Num(n) => Holds(n != 0, w) case NoNum(e) => Breaks(e, w.out))
  }

  /** Minus -2^31 leaves the 32-bit range; boxed code does not notice. */
  function Negate(v: Value, r: Rules): Num {
    match Unboxed(v)
    case NoNum(e) => NoNum(e)
    case Num(n) =>
      if Fits(-n) || r.raw || r.how.Python? then Narrow(-n)
      else if r.how.Watched? then NoNum(Departs(NegWrap)) else Num(Wrap32(-n))
  }

  function Arithmetic(op: BinOp, x: int, y: int): Num {
    match op
    case Add => Narrow(x + y)
    case Sub => Narrow(x - y)
    case Mul => Narrow(x * y)
    case FloorDiv => if y == 0 then NoNum(ZeroDivision) else Narrow(FloorQuotient(x, y))
    case _ => if y == 0 then NoNum(ZeroDivision) else Narrow(FloorRemainder(x, y))
  }

  predicate Compares(op: BinOp, x: int, y: int) {
    match op
    case Lt => x < y
    case Le => x <= y
    case Gt => x > y
    case Ge => x >= y
    case Ne => x != y
    case _ => x == y
  }

  /** An operator on two values that are not both lists. */
  function Plain(op: BinOp, a: Value, b: Value, w: World): Evaluated {
    if op in {Eq, Ne} && (a.VNone? || b.VNone? || a.VList? || b.VList?)
    then Ok(VBool((a.VNone? && b.VNone?) == (op == Eq)), w)
    else
      match (Unboxed(a), Unboxed(b))
      case (NoNum(e), _) => Fail(e, w.out)
      case (_, NoNum(e)) => Fail(e, w.out)
      case (Num(x), Num(y)) => if IsCompare(op) then Ok(VBool(Compares(op, x, y)), w) else Counted(Arithmetic(op, x, y), w)
  }

  // -------------------------------------------------------------------- calls

  /** Only watched runs depart; compiled code reports no name that lives in a boxed slot. */
  predicate OfRun(k: Error, r: Rules) {
    && (k.Departs? ==> r.how.Watched? && (k.departure.Mistyped? ==> k.departure.name in r.env.ints))
    && (k.NameError? ==> r.how.Python? || (r.how.Compiled? && k.name in r.env.typed))
  }

  /** An expression neither binds a name nor steps a counter. */
  predicate OfExpression(k: Error, r: Rules) { OfRun(k, r) && (k.Departs? ==> !k.departure.Mistyped? && !k.departure.CounterWrap?) }

  function Ask(callee: string, args: seq<Value>, w: World, o: Oracle, r: Rules): (v: Evaluated)
    ensures v.Ok? ==> v.world.vars == w.vars && v.world.globals == w.globals && ProperValue(v.value)
    ensures w.out <= OutOf(v) && (v.Fail? ==> OfExpression(v.error, r))
  {
    match o(Query(w.calls, callee, args, w.heap, Seen(w, r.env)))
    case Gives(v, heap, printed) => Ok(v, w.(heap := heap, out := w.out + printed, calls := w.calls + 1))
    case Raises(k, printed) => Fail(InCallee(k), w.out + printed)
  }

  function OutOf(v: Evaluated): seq<Token> { if v.Ok? then v.world.out else v.out }

  /** The runtime's yes or no, possibly negated. */
  function AskTruth(callee: string, args: seq<Value>, yes: bool, w: World, o: Oracle, r: Rules): (v: Evaluated)
    ensures v.Ok? ==> v.world.vars == w.vars && v.world.globals == w.globals && v.value.VBool?
    ensures w.out <= OutOf(v) && (v.Fail? ==> OfExpression(v.error, r))
  {
    match Ask(callee, args, w, o, r)
    case Ok(v, u) => Ok(VBool((v == VBool(true)) == yes), u)
    case f => f
  }

  function Ordering(op: BinOp): string {
    match op case Lt => "<" case Le => "<=" case Gt => ">" case _ => ">="
  }

  /** Concatenating, repeating and comparing lists is the runtime's business.  Compiled code
      repeats by whole numbers only, and does not order lists. */
  function Binary(op: BinOp, a: Value, b: Value, w: World, o: Oracle, r: Rules): (v: Evaluated)
    ensures v.Ok? ==> v.world.vars == w.vars && v.world.globals == w.globals && v.value != VNull
    ensures w.out <= OutOf(v) && (v.Fail? ==> OfExpression(v.error, r))
  {
    if a.VList? && b.VList? && op == Add then Ask("+", [a, b], w, o, r)
    else if a.VList? && b.VList? && op in {Eq, Ne} then AskTruth("==", [a, b], op == Eq, w, o, r)
    else if a.VList? && b.VList? && IsCompare(op) && !r.how.Compiled? then
      if r.how.Python? then AskTruth(Ordering(op), [a, b], true, w, o, r) else Fail(Departs(ListOrder), w.out)
    else if op == Mul && ((a.VList? && b.VInt?) || (a.VInt? && b.VList?)) then Ask("*", [a, b], w, o, r)
    else if op == Mul && ((a.VList? && b.VBool?) || (a.VBool? && b.VList?)) && !r.how.Compiled? then
      if r.how.Python? then Ask("*", [a, b], w, o, r) else Fail(Departs(ListTimesBool), w.out)
    else Plain(op, a, b, w)
  }

  function Len(v: Value, w: World): Evaluated {
    if v.VList? then Ok(VInt(|Items(w.heap, v.at)|), w) else Fail(TypeError, w.out)
  }

  function Appended(list: Value, v: Value, w: World): Evaluated {
    if !list.VList? then Fail(NoAttribute, w.out)
    else if |Items(w.heap, list.at)| >= LIST_MAX then Fail(OutOfMemory, w.out)
    else Ok(VNone, w.(heap := w.heap[list.at := Items(w.heap, list.at) + [v]]))
  }

  /** Python looks `append` up before it evaluates the argument, compiled code after; `late`
      is what comes of the latter.  If nothing was printed in between, both just stop. */
  function LookedUp(l: Value, late: Evaluated, before: World, w: World, r: Rules): Evaluated {
    if l.VList? || r.how.Compiled? then late
    else if r.how.Python? || late == Fail(NoAttribute, w.out) then Fail(NoAttribute, w.out)
    else if late.Fail? && !late.error.Departs? && late.out == w.out then Fail(Departs(OtherError), w.out)
    else Fail(Departs(Reordered), before.out)
  }

  /** The call of a function once its arguments are known. */
  function Called(f: string, args: EvaluatedAll, o: Oracle, r: Rules): (v: Evaluated)
    ensures v.Ok? ==> args.Oks? && v.world.vars == args.world.vars && v.world.globals == args.world.globals
    ensures (if args.Oks? then args.world.out else args.out) <= OutOf(v)
    ensures v.Fail? && (args.Fails? ==> OfExpression(args.error, r)) ==> OfExpression(v.error, r)
  {
    match args
    case Fails(k, out) => Fail(k, out)
    case Oks(vs, w) =>
      if f == "len" && f !in r.env.sigs then (if |vs| == 1 then Len(vs[0], w) else Fail(TypeError, w.out))
      else
        match Ask(f, vs, w, o, r)
        case Ok(v, u) => if ReturnsRaw(f, r.env.sigs) then Coerced(v, Unkept(f), u, r) else Ok(v, u)
        case f => f
  }

  /** The call of a method of `l`; `before` is the world before `l` was computed, `w` after. */
  function Sent(l: Value, m: string, n: nat, args: EvaluatedAll, before: World, w: World, o: Oracle, r: Rules): (v: Evaluated)
    requires args.Oks? ==> |args.values| == n
    ensures v.Ok? ==> args.Oks? && v.world.vars == args.world.vars && v.world.globals == args.world.globals
    ensures before.out <= w.out <= (if args.Oks? then args.world.out else args.out) ==> before.out <= OutOf(v)
    ensures v.Fail? && (args.Fails? ==> OfExpression(args.error, r)) ==> OfExpression(v.error, r)
  {
    if m == "append" && n == 1 then
      LookedUp(l, match args case Oks(vs, u) => Appended(l, vs[0], u) case Fails(k, out) => Fail(k, out), before, w, r)
    else
      match args
      case Oks(vs, u) => Ask("." + m, [l] + vs, u, o, r)
      case Fails(k, out) => Fail(k, out)
  }

  // ------------------------------------------------------------- expressions

  function Eval(e: Expr, w: World, o: Oracle, r: Rules): (v: Evaluated)
    ensures v.Ok? ==> v.world.vars == w.vars && v.world.globals == w.globals
    ensures w.out <= OutOf(v) && (v.Fail? ==> OfExpression(v.error, r))
    decreases e, 0
  {
    if ConstInt(e).Some? then Counted(Narrow(ConstInt(e).value), w)
    else
      match e.kind
      case Int(n) => Counted(Narrow(n), w)
      case Bool(b) => Ok(VBool(b), w)
      case Name(x) => Read(x, w, r)
      case Unary(Neg, i) =>
        (match Eval(i, w, o, r)
         case Ok(v, u) => Counted(Negate(v, r), u)
         case f => f)
      case Unary(Not, i) =>
        (match Test(i, w, o, r)
         case Holds(b, u) => Ok(VBool(!b), u)
         case Breaks(k, out) => Fail(k, out))
      case Bin(op, a, b) =>
        (match Eval(a, w, o, r)
         case Ok(x, u) => (match Eval(b, u, o, r) case Ok(y, v) => Binary(op, x, y, v, o, r) case f => f)
         case f => f)
      case Call(f, args) =>
        Called(f, EvalAll(args, RawParams(f, r.env.sigs), f, w, o, r), o, r)
      case MethodCall(obj, m, args) =>
        (match Eval(obj, w, o, r.At(false))
         case Ok(l, u) => Sent(l, m, |args|, EvalAll(args, [], m, u, o, r), w, u, o, r)
         case f => f)
  }

  /** Arguments, left to right; a raw parameter takes a number. */
  function EvalAll(es: seq<Expr>, raws: seq<bool>, f: string, w: World, o: Oracle, r: Rules): (v: EvaluatedAll)
    ensures v.Oks? ==> |v.values| == |es| && v.world.vars == w.vars && v.world.globals == w.globals
    ensures w.out <= (if v.Oks? then v.world.out else v.out) && (v.Fails? ==> OfExpression(v.error, r))
    decreases es, 1
  {
    if es == [] then Oks([], w)
    else
      var raw := raws != [] && raws[0];
      match Slot(es[0], raw, f, w, o, r)
      case Fail(k, out) => Fails(k, out)
      case Ok(v, u) =>
        match EvalAll(es[1..], if raws == [] then [] else raws[1..], f, u, o, r)
        case Oks(vs, z) => Oks([v] + vs, z)
        case fails => fails
  }

  /** The value of `e` as a raw (if `raw`) or boxed parameter or result of `callee` takes it. */
  function Slot(e: Expr, raw: bool, callee: string, w: World, o: Oracle, r: Rules): (v: Evaluated)
    ensures v.Ok? ==> v.world.vars == w.vars && v.world.globals == w.globals
    ensures w.out <= OutOf(v) && (v.Fail? ==> OfExpression(v.error, r))
    decreases e, 1
  {
    match Eval(e, w, o, r.At(raw && Scalar(e, r.env)))
    case Ok(v, u) => if raw then Coerced(v, Misfit(callee), u, r) else Ok(v, u)
    case f => f
  }

  /** A condition: comparisons and `not` are decided without making a boolean. */
  function Test(e: Expr, w: World, o: Oracle, r: Rules): (t: Tested)
    ensures t.Holds? ==> t.world.vars == w.vars && t.world.globals == w.globals
    ensures w.out <= (if t.Holds? then t.world.out else t.out) && (t.Breaks? ==> OfExpression(t.error, r))
    decreases e, 3
  {
    if e.kind.Unary? && e.kind.op == Not then
      match Test(e.kind.operand, w, o, r)
      case Holds(b, u) => Holds(!b, u)
      case breaks => breaks
    else
      match Eval(e, w, o, r.At(TestsRaw(e, r.env)))
      case Ok(v, u) => Truthy(v, u)
      case Fail(k, out) => Breaks(k, out)
  }

  /** Whether a condition is decided on raw numbers. */
  predicate TestsRaw(e: Expr, env: Env) {
    match e.kind
    case Bin(op, a, b) => if IsCompare(op) then Scalar(a, env) && Scalar(b, env) else Scalar(e, env)
    case _ => Scalar(e, env)
  }

  // -------------------------------------------------------------- statements

  function Bind(w: World, x: string, v: Value): World { w.(vars := w.vars[x := v]) }

  /** Compiled code binds raw slots to numbers only; annotated names are taken at their
      word. */
  function Bound(x: string, v: Value, w: World, r: Rules): Evaluated {
    match r.how
    case Python => Ok(v, w)
    case Watched => if x in r.env.ints && !v.VInt? then Fail(Departs(Mistyped(x)), w.out) else Ok(v, w)
    case Compiled => if x in r.env.typed then Counted(Unboxed(v), w) else Ok(v, w)
  }

  function ExecAssign(x: string, e: Expr, w: World, o: Oracle, r: Rules): (y: Outcome)
    ensures w.out <= Out(y) && (y.Stopped? ==> OfRun(y.error, r))
  {
    match Eval(e, w, o, r.At(x in r.env.typed && Scalar(e, r.env)))
    case Fail(k, out) => Stopped(k, out)
    case Ok(v, u) =>
      match Bound(x, v, u, r)
      case Fail(k, out) => Stopped(k, out)
      case Ok(b, _) => Next(Bind(u, x, b))
  }

  function ExecReturn(e: Expr, w: World, o: Oracle, r: Rules): (y: Outcome)
    ensures w.out <= Out(y) && (y.Stopped? ==> OfRun(y.error, r))
  {
    match Slot(e, r.env.scalar, "return", w, o, r)
    case Fail(k, out) => Stopped(k, out)
    case Ok(v, u) => Returned(Some(v), u)
  }

  function Printed(v: Value, w: World): Evaluated {
    if v == VNull then Fail(Unassigned, w.out) else Ok(VNone, w.(out := w.out + [Shown(v, w.heap)]))
  }

  function Put(w: World, t: Token): World { w.(out := w.out + [t]) }

  /** Python evaluates all arguments of `print` and then prints. */
  function PrintAll(args: seq<Expr>, w: World, o: Oracle, r: Rules): (y: Outcome)
    ensures w.out <= Out(y) && (y.Next? || (y.Stopped? && OfRun(y.error, r)))
  {
    match EvalAll(args, [], "print", w, o, r)
    case Fails(k, out) => Stopped(k, out)
    case Oks(vs, u) => PrintValues(vs, u)
  }

  function PrintValues(vs: seq<Value>, w: World): (y: Outcome)
    ensures if y.Next? then y.world.vars == w.vars && y.world.globals == w.globals && y.world.heap == w.heap
            else y.Stopped? && y.error == Unassigned
    ensures w.out <= Out(y)
  {
    if vs == [] then Next(Put(w, Newline))
    else
      match Printed(vs[0], w)
      case Fail(k, out) => Stopped(k, out)
      case Ok(_, u) => PrintValues(vs[1..], if |vs| == 1 then u else Put(u, Space))
  }

  /** Compiled code prints each argument before it evaluates the next. */
  function PrintEach(args: seq<Expr>, w: World, o: Oracle, r: Rules): (y: Outcome)
    ensures w.out <= Out(y) && (y.Next? || (y.Stopped? && OfRun(y.error, r)))
  {
    if args == [] then Next(Put(w, Newline))
    else
      match Eval(args[0], w, o, r.At(false))
      case Fail(k, out) => Stopped(k, out)
      case Ok(v, u) =>
        match Printed(v, u)
        case Fail(k, out) => Stopped(k, out)
        case Ok(_, z) => PrintEach(args[1..], if |args| == 1 then z else Put(z, Space), o, r)
  }

  predicate Errs(y: Outcome) { y.Stopped? && !y.error.Departs? }

  /** Both ways to print at once: where both stop, compiled code may have printed some
      arguments before. */
  function SamePrint(all: Outcome, each: Outcome, w: World): Outcome {
    if all == each then all
    else if Errs(all) && Errs(each) && Out(all) <= Out(each) then Stopped(Departs(PrintedBefore), Out(all))
    else Stopped(Departs(Reordered), w.out)
  }

  function ExecPrint(args: seq<Expr>, w: World, o: Oracle, r: Rules): (y: Outcome)
    ensures w.out <= Out(y) && (y.Next? || (y.Stopped? && OfRun(y.error, r)))
  {
    match r.how
    case Python => PrintAll(args, w, o, r)
    case Compiled => PrintEach(args, w, o, r)
    case Watched => SamePrint(PrintAll(args, w, o, r), PrintEach(args, w, o, r), w)
  }

  /** A statement that is one expression. */
  function ExecExpr(e: Expr, w: World, o: Oracle, r: Rules): (y: Outcome)
    ensures w.out <= Out(y) && (y.Next? || (y.Stopped? && OfRun(y.error, r)))
  {
    if e.kind.Call? && e.kind.func == "print" then ExecPrint(e.kind.args, w, o, r)
    else
      match Eval(e, w, o, r.At(false))
      case Fail(k, out) => Stopped(k, out)
      case Ok(_, u) => Next(u)
  }

  function ExecBlock(b: Block, w: World, o: Oracle, r: Rules, fuel: nat): (y: Outcome)
    ensures w.out <= Out(y) && (y.Stopped? ==> OfRun(y.error, r))
    decreases fuel, BlockSize(b), 1
  {
    if b == [] then Next(w)
    else
      match ExecStmt(b[0], w, o, r, fuel)
      case Next(v) => ExecBlock(b[1..], v, o, r, fuel)
      case x => x
  }

  function ExecStmt(s: Stmt, w: World, o: Oracle, r: Rules, fuel: nat): (y: Outcome)
    ensures w.out <= Out(y) && (y.Stopped? ==> OfRun(y.error, r))
    decreases fuel, StmtSize(s), 0
  {
    match s.kind
    case ExprStmt(e) => ExecExpr(e, w, o, r)
    case Assign(x, e) => ExecAssign(x, e, w, o, r)
    case AnnAssign(x, e, _) => ExecAssign(x, e, w, o, r)
    case If(c, body, elifs, orelse) =>
      (match Test(c, w, o, r)
       case Breaks(k, out) => Stopped(k, out)
       case Holds(yes, u) => if yes then ExecBlock(body, u, o, r, fuel) else ExecElse(elifs, ElseOf(orelse), u, o, r, fuel))
    case While(c, body) => ExecWhile(c, body, w, o, r, fuel)
    case For(x, start, end, step, body, _) =>
      (match Range(start, end, step, w, o, r)
       case Unbounded(k, out) => Stopped(k, out)
       case From(c, e, d, u) => ExecRange(x, c, e, d, body, u, o, r, fuel))
    case ForEach(x, iterable, body) =>
      (match Eval(iterable, w, o, r.At(false))
       case Fail(k, out) => Stopped(k, out)
       case Ok(v, u) => if v.VList? then ExecEach(x, v.at, 0, body, u, o, r, fuel) else Stopped(TypeError, u.out))
    case Break => Broke(w)
    case Continue => Continued(w)
    case Return(None) => Returned(None, w)
    case Return(Some(e)) => ExecReturn(e, w, o, r)
    case Def(_, _, _) => Next(w)
    case Pass => Next(w)
    case Import => Next(w)
  }

  function ExecElse(elifs: seq<Arm>, orelse: Block, w: World, o: Oracle, r: Rules, fuel: nat): (y: Outcome)
    ensures w.out <= Out(y) && (y.Stopped? ==> OfRun(y.error, r))
    decreases fuel, ArmsSize(elifs) + BlockSize(orelse), 2
  {
    if elifs == [] then ExecBlock(orelse, w, o, r, fuel)
    else
      match Test(elifs[0].cond, w, o, r)
      case Breaks(k, out) => Stopped(k, out)
      case Holds(yes, u) =>
        if yes then ExecBlock(elifs[0].body, u, o, r, fuel) else ExecElse(elifs[1..], orelse, u, o, r, fuel)
  }

  /** How one pass of a loop's body ends. */
  datatype Pass = Again(world: World) | Done(outcome: Outcome)

  function PassOf(x: Outcome): Pass {
    match x
    case Next(w) => Again(w)
    case Continued(w) => Again(w)
    case Broke(w) => Done(Next(w))
    case _ => Done(x)
  }

  function ExecWhile(c: Expr, body: Block, w: World, o: Oracle, r: Rules, fuel: nat): (y: Outcome)
    ensures w.out <= Out(y) && (y.Stopped? ==> OfRun(y.error, r))
    decreases fuel, BlockSize(body), 2
  {
    match Test(c, w, o, r)
    case Breaks(k, out) => Stopped(k, out)
    case Holds(yes, u) =>
      if !yes then Next(u)
      else
        match PassOf(ExecBlock(body, u, o, r, fuel))
        case Done(x) => x
        case Again(v) => if fuel == 0 then Timeout(v.out) else ExecWhile(c, body, v, o, r, fuel - 1)
  }

  /** The bounds of `range`, all evaluated once, before the loop. */
  datatype Bounds = Unbounded(error: Error, out: seq<Token>) | From(first: int, end: int, step: int, world: World)

  function OutOfBounds(b: Bounds): seq<Token> { if b.From? then b.world.out else b.out }

  /** A bound as a number. */
  function Numeral(e: Expr, w: World, o: Oracle, r: Rules): (v: Evaluated)
    ensures v.Ok? ==> v.value.VInt?
    ensures w.out <= OutOf(v) && (v.Fail? ==> OfExpression(v.error, r))
  {
    match Eval(e, w, o, r.At(Scalar(e, r.env)))
    case Ok(v, u) => Counted(Unboxed(v), u)
    case f => f
  }

  /** Python evaluates start, end and step, and then asks for numbers. */
  function PythonRange(start: Expr, end: Expr, step: Expr, w: World, o: Oracle, r: Rules): (bounds: Bounds)
    ensures w.out <= OutOfBounds(bounds) && (bounds.Unbounded? ==> OfExpression(bounds.error, r))
  {
    match Eval(start, w, o, r.At(Scalar(start, r.env)))
    case Fail(k, out) => Unbounded(k, out)
    case Ok(a, u) =>
      match Eval(end, u, o, r.At(Scalar(end, r.env)))
      case Fail(k, out) => Unbounded(k, out)
      case Ok(b, v) =>
        match Eval(step, v, o, r.At(false))
        case Fail(k, out) => Unbounded(k, out)
        case Ok(c, z) =>
          match (Unboxed(a), Unboxed(b), Unboxed(c))
          case (Num(x), Num(y), Num(d)) => if d == 0 then Unbounded(ValueError, z.out) else From(x, y, d, z)
          case _ => Unbounded(TypeError, z.out)
  }

  /** Compiled code evaluates an end that is no constant before the start. */
  function CodeRange(start: Expr, end: Expr, step: Expr, w: World, o: Oracle, r: Rules): (bounds: Bounds)
    ensures w.out <= OutOfBounds(bounds) && (bounds.Unbounded? ==> OfExpression(bounds.error, r))
  {
    if ConstInt(step).None? || ConstInt(step).value == 0 then Unbounded(ValueError, w.out)
    else if ConstInt(end).Some? then
      match Numeral(start, w, o, r)
      case Fail(k, out) => Unbounded(k, out)
      case Ok(a, u) => From(a.n, ConstInt(end).value, ConstInt(step).value, u)
    else
      match Numeral(end, w, o, r)
      case Fail(k, out) => Unbounded(k, out)
      case Ok(b, u) =>
        match Numeral(start, u, o, r)
        case Fail(k, out) => Unbounded(k, out)
        case Ok(a, v) => From(a.n, b.n, ConstInt(step).value, v)
  }

  /** Both orders at once: where both stop with the same output, only the errors differ. */
  function SameRange(a: Bounds, b: Bounds, w: World): Bounds {
    if a == b then a
    else if a.Unbounded? && b.Unbounded? && !a.error.Departs? && !b.error.Departs? && a.out == b.out then Unbounded(Departs(OtherError), a.out)
    else Unbounded(Departs(Reordered), w.out)
  }

  function Range(start: Expr, end: Expr, step: Expr, w: World, o: Oracle, r: Rules): (bounds: Bounds)
    ensures w.out <= OutOfBounds(bounds) && (bounds.Unbounded? ==> OfExpression(bounds.error, r))
  {
    match r.how
    case Python => PythonRange(start, end, step, w, o, r)
    case Compiled => CodeRange(start, end, step, w, o, r)
    case Watched => SameRange(PythonRange(start, end, step, w, o, r), CodeRange(start, end, step, w, o, r), w)
  }

  predicate Exhausted(c: int, end: int, step: int) { if step > 0 then c >= end else c <= end }

  /** The counter after one more pass: Python's is unbounded, the compiled one a 32-bit
      number. */
  function Stepped(c: int, step: int, r: Rules): Num {
    match r.how
    case Python => Num(c + step)
    case Watched => if Fits(c + step) then Num(c + step) else NoNum(Departs(CounterWrap))
    case Compiled => Num(Wrap32(c + step))
  }

  /** The hidden counter, not the loop variable, decides when the loop ends. */
  function ExecRange(x: string, c: int, end: int, step: int, body: Block, w: World, o: Oracle, r: Rules, fuel: nat): (y: Outcome)
    ensures w.out <= Out(y) && (y.Stopped? ==> OfRun(y.error, r))
    decreases fuel, BlockSize(body), 2
  {
    if Exhausted(c, end, step) then Next(w)
    else
      match PassOf(ExecBlock(body, Bind(w, x, VInt(c)), o, r, fuel))
      case Done(y) => y
      case Again(u) =>
        match Stepped(c, step, r)
        case NoNum(k) => Stopped(k, u.out)
        case Num(d) => if fuel == 0 then Timeout(u.out) else ExecRange(x, d, end, step, body, u, o, r, fuel - 1)
  }

  /** The list is indexed afresh on every pass, so appending inside extends the loop. */
  function ExecEach(x: string, at: nat, i: nat, body: Block, w: World, o: Oracle, r: Rules, fuel: nat): (y: Outcome)
    ensures w.out <= Out(y) && (y.Stopped? ==> OfRun(y.error, r))
    decreases fuel, BlockSize(body), 2
  {
    if i >= |Items(w.heap, at)| then Next(w)
    else
      match Bound(x, Items(w.heap, at)[i], w, r)
      case Fail(k, out) => Stopped(k, out)
      case Ok(v, _) =>
        match PassOf(ExecBlock(body, Bind(w, x, v), o, r, fuel))
        case Done(z) => z
        case Again(u) => if fuel == 0 then Timeout(u.out) else ExecEach(x, at, i + 1, body, u, o, r, fuel - 1)
  }
}
