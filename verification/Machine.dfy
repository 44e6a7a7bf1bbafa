/** The structured machine the compiler targets, as far as its code uses it: raw 32-bit and
    boxed locals, `block`, `loop`, `if`, `br`, calls, and the runtime helpers of
    src/codegen.rs that expressions call.  Other functions are an oracle, asked in Python's
    terms. */
module Machine {
  import opened Syntax
  import opened Values
  import opened MachineIntegers

  // ------------------------------------------------------------------ values

  datatype Ref = Null | I31(n: int) | IntBox(n: int) | BoolRef(b: bool) | NoneRef | ListRef(at: nat)

  type Store = map<nat, seq<Ref>>

  function ValueOf(r: Ref): Value {
    match r
    case Null => VNull
    case I31(n) => VInt(n)
    case IntBox(n) => VInt(n)
    case BoolRef(b) => VBool(b)
    case NoneRef => VNone
    case ListRef(at) => VList(at)
  }

  function ValuesOf(rs: seq<Ref>): seq<Value> { seq(|rs|, i requires 0 <= i < |rs| => ValueOf(rs[i])) }

  function HeapOf(store: Store): Heap { map at | at in store :: ValuesOf(store[at]) }

  function RefsAt(store: Store, at: nat): seq<Ref> { if at in store then store[at] else [] }

  /** `$box`: shifting left and back decides whether the value fits 31 bits. */
  function Box(v: int): Ref {
    if Wrap32(v * 2) / 2 == v then I31(Wrap31(v)) else IntBox(v)
  }

  /** The reference a value comes in from outside as. */
  function RefOf(v: Value): Ref {
    match v
    case VInt(n) => Box(n)
    case VBool(b) => BoolRef(b)
    case VNone => NoneRef
    case VList(at) => ListRef(at)
    case VNull => Null
  }

  function RefsOf(vs: seq<Value>): seq<Ref> { seq(|vs|, i requires 0 <= i < |vs| => RefOf(vs[i])) }

  function StoreOf(heap: Heap): Store { map at | at in heap :: RefsOf(heap[at]) }

  // -------------------------------------------------------------------- code

  /** Locals of a function: Python variables, loop counters (`.fN`), temporaries (`.tN`). */
  datatype Local = Var(name: string) | Counter(n: nat) | Scratch(n: nat)

  /** `block` and `loop` labels: after a loop, its head, the end of one pass. */
  datatype Label = B(n: nat) | L(n: nat) | C(n: nat)

  /** `i32.add`, the checked 64-bit operations, the two calls and the comparisons. */
  datatype MachineOp = I32Add | Checked(op: BinOp) | FloorDivCall | FloorModCall | Compare(op: BinOp)

  /** Code that leaves a raw i32; `PyCompare` of `==` is `$py_eq`. */
  datatype Raw =
    | Const(n: int)
    | GetRaw(x: Local)
    | GlobalRaw(name: string)
    | INeg(a: Raw)
    | RawOp(rop: MachineOp, a: Raw, b: Raw)
    | Eqz(a: Raw)
    | NonZero(a: Raw)
    | UnboxCall(r: Boxed)
    | PyCompare(op: BinOp, l: Boxed, r: Boxed)
    | Truthy(r: Boxed)
    | PyLen(r: Boxed)
    | PyIterLen(r: Boxed)
    | CallRaw(f: string, args: seq<Arg>)

  /** Code that leaves a reference. */
  datatype Boxed =
    | RefI31(n: int)
    | NewInt(n: int)
    | BoolConst(b: bool)
    | NoneConst
    | GetRef(x: Local)
    | GlobalRef(name: string)
    | BoxCall(a: Raw)
    | BoolCall(a: Raw)
    | PyBinary(op: BinOp, l: Boxed, r: Boxed)
    | PyNeg(r: Boxed)
    | PyIndex(r: Boxed, i: Raw)
    | ListAppend(l: Boxed, v: Boxed)
    | CallRef(f: string, args: seq<Arg>)

  /** An argument as the callee's parameter takes it. */
  datatype Arg = RawArg(a: Raw) | RefArg(r: Boxed)

  datatype Instr =
    | Block(name: Label, body: seq<Instr>)
    | Loop(name: Label, body: seq<Instr>)
    | If(cond: Raw, thens: seq<Instr>, elses: seq<Instr>)
    | Br(name: Label)
    | BrIf(name: Label, cond: Raw)
    | SetRaw(x: Local, a: Raw)
    | SetRef(x: Local, r: Boxed)
    | ReturnRaw(a: Raw)
    | ReturnRef(r: Boxed)
    | PrintValue(r: Boxed)
    | WriteChar(t: Token)
    | Drop(r: Boxed)
    | Unreachable

  /** `globals` are the module's variables, which no function body assigns. */
  datatype Machine = Machine(raws: map<Local, int>, refs: map<Local, Ref>, globals: map<string, Value>, store: Store,
                             out: seq<Token>, calls: nat)

  /** Locals start out as zero and null; so do the module's variables. */
  function RawAt(m: Machine, x: Local): int { if x in m.raws then m.raws[x] else 0 }

  function RefAt(m: Machine, x: Local): Ref { if x in m.refs then m.refs[x] else Null }

  function GlobalAt(m: Machine, x: string): Value { if x in m.globals then m.globals[x] else VNull }

  // ----------------------------------------------------------------- helpers

  datatype Got<T> = Got(value: T, m: Machine) | Trap(error: Error, out: seq<Token>)

  function Numbered(n: Num, m: Machine): Got<int> {
    match n case Num(k) => Got(k, m) case NoNum(e) => Trap(e, m.out)
  }

  function Boxing(n: Num, m: Machine): Got<Ref> {
    match n case Num(k) => Got(Box(k), m) case NoNum(e) => Trap(e, m.out)
  }

  /** `$unbox`. */
  function Unbox(r: Ref): Num {
    match r
    case I31(n) => Num(n)
    case BoolRef(b) => Num(if b then 1 else 0)
    case IntBox(n) => Num(n)
    case Null => NoNum(Unassigned)
    case _ => NoNum(TypeError)
  }

  function Flag(b: bool): int { if b then 1 else 0 }

  function Holding(op: BinOp, x: int, y: int): bool {
    match op
    case Lt => x < y
    case Le => x <= y
    case Gt => x > y
    case Ge => x >= y
    case Ne => x != y
    case _ => x == y
  }

  /** Two operands unboxed, the left one first. */
  function UnboxBoth(a: Ref, b: Ref, f: (int, int) -> Num): Num {
    match (Unbox(a), Unbox(b))
    case (NoNum(e), _) => NoNum(e)
    case (_, NoNum(e)) => NoNum(e)
    case (Num(x), Num(y)) => f(x, y)
  }

  function Apply(op: MachineOp, x: int, y: int): Num {
    match op
    case I32Add => Num(Wrap32(x + y))
    case Checked(p) => Widened(p, x, y)
    case FloorDivCall => I32FloorDiv(x, y)
    case FloorModCall => I32FloorMod(x, y)
    case Compare(p) => Num(Flag(Holding(p, x, y)))
  }

  /** A call of something outside the code at hand. */
  function CallOut(f: string, vs: seq<Value>, m: Machine, o: Oracle): Got<Value> {
    match o(Query(m.calls, f, vs, HeapOf(m.store), m.globals))
    case Gives(v, heap, printed) => Got(v, m.(store := StoreOf(heap), out := m.out + printed, calls := m.calls + 1))
    case Raises(k, printed) => Trap(InCallee(k), m.out + printed)
  }

  function CallForRef(f: string, vs: seq<Value>, m: Machine, o: Oracle): Got<Ref> {
    match CallOut(f, vs, m, o) case Got(v, u) => Got(RefOf(v), u) case Trap(k, out) => Trap(k, out)
  }

  /** A raw result is unboxed by the callee before it returns. */
  function CallForRaw(f: string, vs: seq<Value>, m: Machine, o: Oracle): Got<int> {
    match CallOut(f, vs, m, o) case Got(v, u) => Numbered(Unboxed(v), u) case Trap(k, out) => Trap(k, out)
  }

  /** `$py_eq`. */
  function EqRefs(a: Ref, b: Ref, m: Machine, o: Oracle): Got<int> {
    if a.NoneRef? || b.NoneRef? then Got(Flag(a.NoneRef? && b.NoneRef?), m)
    else if a.ListRef? && b.ListRef? then
      match CallOut("==", [ValueOf(a), ValueOf(b)], m, o) case Got(v, u) => Got(Flag(v == VBool(true)), u) case Trap(k, out) => Trap(k, out)
    else if a.ListRef? || b.ListRef? then Got(0, m)
    else Numbered(UnboxBoth(a, b, (x, y) => Num(Flag(x == y))), m)
  }

  /** `$py_lt` and its siblings. */
  function CompareRefs(op: BinOp, a: Ref, b: Ref, m: Machine): Got<int> {
    Numbered(UnboxBoth(a, b, (x, y) => Num(Flag(Holding(op, x, y)))), m)
  }

  predicate IsInt(r: Ref) { r.I31? || r.IntBox? }

  function NumericOp(op: BinOp, x: int, y: int): Num {
    if op == FloorDiv then I32FloorDiv(x, y) else if op == Mod then I32FloorMod(x, y) else Widened(op, x, y)
  }

  /** `$py_add`, `$py_sub`, `$py_mul`, `$py_floordiv`, `$py_mod`. */
  function BinaryRefs(op: BinOp, a: Ref, b: Ref, m: Machine, o: Oracle): Got<Ref> {
    if op == Add && a.ListRef? && b.ListRef? then CallForRef("+", [ValueOf(a), ValueOf(b)], m, o)
    else if op == Mul && ((a.ListRef? && IsInt(b)) || (b.ListRef? && IsInt(a))) then CallForRef("*", [ValueOf(a), ValueOf(b)], m, o)
    else Boxing(UnboxBoth(a, b, (x, y) => NumericOp(op, x, y)), m)
  }

  /** `$py_neg` subtracts without a check. */
  function NegRef(r: Ref): Num {
    match Unbox(r) case Num(n) => Num(Wrap32(0 - n)) case e => e
  }

  function TruthyRef(r: Ref, store: Store): Num {
    match r
    case NoneRef => Num(0)
    case ListRef(at) => Num(Flag(|RefsAt(store, at)| != 0))
    case _ => (match Unbox(r) case Num(n) => Num(Flag(n != 0)) case e => e)
  }

  function LenRef(r: Ref, store: Store): Num {
    if r.ListRef? then Num(|RefsAt(store, r.at)|) else NoNum(TypeError)
  }

  /** `$py_index` on a list; negative positions count from the end. */
  function IndexRef(r: Ref, i: int, m: Machine): Got<Ref> {
    if !r.ListRef? then Trap(TypeError, m.out)
    else
      var rs := RefsAt(m.store, r.at);
      var k := if i < 0 then Wrap32(i + |rs|) else i;
      if k < 0 || k >= |rs| then Trap(IndexError, m.out) else Got(rs[k], m)
  }

  /** `$list_append`; an allocation beyond the limit fails. */
  function AppendRef(l: Ref, v: Ref, m: Machine): Got<Ref> {
    if !l.ListRef? then Trap(NoAttribute, m.out)
    else if |RefsAt(m.store, l.at)| >= LIST_MAX then Trap(OutOfMemory, m.out)
    else Got(NoneRef, m.(store := m.store[l.at := RefsAt(m.store, l.at) + [v]]))
  }

  // -------------------------------------------------------------- expressions

  /** Locals and module variables do not change while an expression is computed. */
  ghost predicate SameSlots(m: Machine, v: Machine) { v.raws == m.raws && v.refs == m.refs && v.globals == m.globals }

  function EvalRaw(a: Raw, m: Machine, o: Oracle): (g: Got<int>)
    ensures g.Got? ==> SameSlots(m, g.m)
    decreases a, 0
  {
    match a
    case Const(n) => Got(n, m)
    case GetRaw(x) => Got(RawAt(m, x), m)
    case GlobalRaw(x) => Got(if GlobalAt(m, x).VInt? then GlobalAt(m, x).n else 0, m)
    case INeg(a) => (match EvalRaw(a, m, o) case Trap(k, out) => Trap(k, out) case Got(x, u) => Numbered(Ck32(Wrap64(0 - x)), u))
    case RawOp(op, a, b) =>
      (match EvalRaw(a, m, o)
       case Trap(k, out) => Trap(k, out)
       case Got(x, u) => (match EvalRaw(b, u, o) case Trap(k, out) => Trap(k, out) case Got(y, v) => Numbered(Apply(op, x, y), v)))
    case Eqz(a) => (match EvalRaw(a, m, o) case Trap(k, out) => Trap(k, out) case Got(x, u) => Got(Flag(x == 0), u))
    case NonZero(a) => (match EvalRaw(a, m, o) case Trap(k, out) => Trap(k, out) case Got(x, u) => Got(Flag(x != 0), u))
    case UnboxCall(r) => (match EvalBoxed(r, m, o) case Trap(k, out) => Trap(k, out) case Got(v, u) => Numbered(Unbox(v), u))
    case PyCompare(op, l, r) =>
      (match EvalBoxed(l, m, o)
       case Trap(k, out) => Trap(k, out)
       case Got(x, u) => (match EvalBoxed(r, u, o) case Trap(k, out) => Trap(k, out) case Got(y, v) => if op == Eq then EqRefs(x, y, v,
         o) else CompareRefs(op, x, y, v)))
    case Truthy(r) => (match EvalBoxed(r, m, o) case Trap(k, out) => Trap(k, out) case Got(v, u) => Numbered(TruthyRef(v, u.store), u))
    case PyLen(r) => (match EvalBoxed(r, m, o) case Trap(k, out) => Trap(k, out) case Got(v, u) => Numbered(LenRef(v, u.store), u))
    case PyIterLen(r) => (match EvalBoxed(r, m, o) case Trap(k, out) => Trap(k, out) case Got(v, u) => Numbered(LenRef(v, u.store), u))
    case CallRaw(f, args) => (match EvalArgs(args, m, o) case Trap(k, out) => Trap(k, out) case Got(vs, u) => CallForRaw(f, vs, u, o))
  }

  function EvalBoxed(r: Boxed, m: Machine, o: Oracle): (g: Got<Ref>)
    ensures g.Got? ==> SameSlots(m, g.m)
    decreases r, 0
  {
    match r
    case RefI31(n) => Got(I31(Wrap31(n)), m)
    case NewInt(n) => Got(IntBox(n), m)
    case BoolConst(b) => Got(BoolRef(b), m)
    case NoneConst => Got(NoneRef, m)
    case GetRef(x) => Got(RefAt(m, x), m)
    case GlobalRef(x) => Got(RefOf(GlobalAt(m, x)), m)
    case BoxCall(a) => (match EvalRaw(a, m, o) case Trap(k, out) => Trap(k, out) case Got(n, u) => Got(Box(n), u))
    case BoolCall(a) => (match EvalRaw(a, m, o) case Trap(k, out) => Trap(k, out) case Got(n, u) => Got(BoolRef(n != 0), u))
    case PyBinary(op, l, r) =>
      (match EvalBoxed(l, m, o)
       case Trap(k, out) => Trap(k, out)
       case Got(x, u) => (match EvalBoxed(r, u, o) case Trap(k, out) => Trap(k, out) case Got(y, v) => BinaryRefs(op, x, y, v, o)))
    case PyNeg(r) => (match EvalBoxed(r, m, o) case Trap(k, out) => Trap(k, out) case Got(v, u) => Boxing(NegRef(v), u))
    case PyIndex(r, i) =>
      (match EvalBoxed(r, m, o)
       case Trap(k, out) => Trap(k, out)
       case Got(v, u) => (match EvalRaw(i, u, o) case Trap(k, out) => Trap(k, out) case Got(n, z) => IndexRef(v, n, z)))
    case ListAppend(l, v) =>
      (match EvalBoxed(l, m, o)
       case Trap(k, out) => Trap(k, out)
       case Got(x, u) => (match EvalBoxed(v, u, o) case Trap(k, out) => Trap(k, out) case Got(y, z) => AppendRef(x, y, z)))
    case CallRef(f, args) => (match EvalArgs(args, m, o) case Trap(k, out) => Trap(k, out) case Got(vs, u) => CallForRef(f, vs, u, o))
  }

  function EvalArgs(args: seq<Arg>, m: Machine, o: Oracle): (g: Got<seq<Value>>)
    ensures g.Got? ==> SameSlots(m, g.m)
    decreases args, 1
  {
    if args == [] then Got([], m)
    else
      match EvalArg(args[0], m, o)
      case Trap(k, out) => Trap(k, out)
      case Got(v, u) => (match EvalArgs(args[1..], u, o) case Trap(k, out) => Trap(k, out) case Got(vs, z) => Got([v] + vs, z))
  }

  function EvalArg(arg: Arg, m: Machine, o: Oracle): (g: Got<Value>)
    ensures g.Got? ==> SameSlots(m, g.m)
    decreases arg, 0
  {
    match arg
    case RawArg(a) => (match EvalRaw(a, m, o) case Trap(k, out) => Trap(k, out) case Got(n, u) => Got(VInt(n), u))
    case RefArg(r) => (match EvalBoxed(r, m, o) case Trap(k, out) => Trap(k, out) case Got(v, u) => Got(ValueOf(v), u))
  }

  // ------------------------------------------------------------- control flow

  datatype Result = RawSlot(n: int) | RefSlot(r: Ref)

  datatype Exit =
    | Fall(m: Machine)
    | Jump(name: Label, m: Machine)
    | Left(slot: Result, m: Machine)
    | Trapped(error: Error, out: seq<Token>)
    | Exhaustion(out: seq<Token>)

  function Run(code: seq<Instr>, m: Machine, o: Oracle, fuel: nat): Exit
    decreases fuel, code, 1
  {
    if code == [] then Fall(m)
    else
      match RunInstr(code[0], m, o, fuel)
      case Fall(v) => Run(code[1..], v, o, fuel)
      case x => x
  }

  function RunInstr(i: Instr, m: Machine, o: Oracle, fuel: nat): Exit
    decreases fuel, i, 0
  {
    match i
    case Block(l, body) => Landed(l, Run(body, m, o, fuel))
    case Loop(l, body) =>
      (match Run(body, m, o, fuel)
       case Jump(k, v) => if k != l then Jump(k, v) else if fuel == 0 then Exhaustion(v.out) else RunInstr(i, v, o, fuel - 1)
       case x => x)
    case If(c, a, b) =>
      (match EvalRaw(c, m, o)
       case Trap(k, out) => Trapped(k, out)
       case Got(n, u) => if n != 0 then Run(a, u, o, fuel) else Run(b, u, o, fuel))
    case Br(l) => Jump(l, m)
    case BrIf(l, c) =>
      (match EvalRaw(c, m, o)
       case Trap(k, out) => Trapped(k, out)
       case Got(n, u) => if n != 0 then Jump(l, u) else Fall(u))
    case SetRaw(x, a) => (match EvalRaw(a, m, o) case Trap(k, out) => Trapped(k, out) case Got(n, u) => Fall(u.(raws := u.raws[x := n])))
    case SetRef(x, r) => (match EvalBoxed(r, m, o) case Trap(k, out) => Trapped(k, out) case Got(v, u) => Fall(u.(refs := u.refs[x := v])))
    case ReturnRaw(a) => (match EvalRaw(a, m, o) case Trap(k, out) => Trapped(k, out) case Got(n, u) => Left(RawSlot(n), u))
    case ReturnRef(r) => (match EvalBoxed(r, m, o) case Trap(k, out) => Trapped(k, out) case Got(v, u) => Left(RefSlot(v), u))
    case PrintValue(r) => (match EvalBoxed(r, m, o) case Trap(k, out) => Trapped(k, out) case Got(v, u) => PrintedRef(v, u))
    case WriteChar(t) => Fall(m.(out := m.out + [t]))
    case Drop(r) => (match EvalBoxed(r, m, o) case Trap(k, out) => Trapped(k, out) case Got(_, u) => Fall(u))
    case Unreachable => Trapped(TailReached, m.out)
  }

  /** A jump to a block's own label lands after it. */
  function Landed(l: Label, x: Exit): Exit {
    if x.Jump? && x.name == l then Fall(x.m) else x
  }

  function PrintedRef(v: Ref, m: Machine): Exit {
    if v.Null? then Trapped(Unassigned, m.out)
    else Fall(m.(out := m.out + [Shown(ValueOf(v), HeapOf(m.store))]))
  }

  // -------------------------------------------------------------------- laws

  /** `$unbox` undoes `$box`, and a boxed number is an `i31` exactly when it fits 31 bits. */
  lemma UnboxBox(v: int)
    requires Fits(v)
    ensures Unbox(Box(v)) == Num(v) && ValueOf(Box(v)) == VInt(v)
    ensures Box(v).I31? <==> -0x4000_0000 <= v < 0x4000_0000
  {
    hide Wrap;
    WrapExact(v, 0x4000_0000);
    WrapExact(v * 2, 0x8000_0000);
  }

  /** Values from outside keep their meaning. */
  lemma RefOfExact(v: Value)
    requires v.VInt? ==> Fits(v.n)
    ensures ValueOf(RefOf(v)) == v
  {
    if v.VInt? { UnboxBox(v.n); }
  }

  lemma StoreOfExact(heap: Heap)
    requires ProperHeap(heap)
    ensures HeapOf(StoreOf(heap)) == heap
  {
    forall at | at in heap ensures ValuesOf(RefsOf(heap[at])) == heap[at] {
      forall i | 0 <= i < |heap[at]| ensures ValueOf(RefOf(heap[at][i])) == heap[at][i] { RefOfExact(heap[at][i]); }
    }
  }

  /** `xs[i]` is item `i`, counted from the end if negative, exactly when there is one. */
  lemma IndexExact(r: Ref, i: int, m: Machine)
    requires r.ListRef? && Fits(i) && |RefsAt(m.store, r.at)| <= LIST_MAX
    ensures var rs := RefsAt(m.store, r.at);
      IndexRef(r, i, m) == if -|rs| <= i < 0 then Got(rs[|rs| + i], m) else if 0 <= i < |rs| then Got(rs[i], m) else Trap(IndexError, m.out)
  {
    hide Wrap;
    WrapExact(i + |RefsAt(m.store, r.at)|, 0x8000_0000);
  }

  /** The unchecked negation is right exactly when its operand is not -2^31. */
  lemma NegRefExact(r: Ref)
    requires IsInt(r) && Fits(r.n)
    ensures NegRef(r).Num?
    ensures NegRef(r) == Num(-r.n) <==> r.n != I32_MIN
  {
    hide Wrap;
    WrapExact(-r.n, 0x8000_0000);
  }
}
