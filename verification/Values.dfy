/** What both sides of the compiler talk about: Python's values, what a program prints, the
    errors it stops with, and the functions it calls. */
module Values {

  /** `VNull` is what an unassigned boxed slot holds; Python has no such value, and only
      the rules of compiled code ever produce it. */
  datatype Value = VInt(n: int) | VBool(b: bool) | VNone | VList(at: nat) | VNull

  type Heap = map<nat, seq<Value>>

  /** A printed value together with the lists it may reach, or what `print` puts between and
      after its arguments. */
  datatype Token = Shown(value: Value, heap: Heap) | Space | Newline

  const I32_MIN: int := -0x8000_0000
  const I32_MAX: int := 0x7fff_ffff

  /** The most items a list can hold before allocation fails. */
  const LIST_MAX: int := 0x3fff_ffff

  predicate Fits(n: int) { I32_MIN <= n <= I32_MAX }

  /** Where compiled code may part with Python. */
  datatype Departure =
    | ReadUnassigned(name: string)
    | NegWrap
    | CounterWrap
    | Mistyped(name: string)
    | Misfit(callee: string)
    | Unkept(callee: string)
    | Reordered
    | OtherError
    | PrintedBefore
    | ListTimesBool
    | ListOrder

  /** `NameError` is Python's report, `Unassigned` the compiled code's, which has no name
      left; `InCallee` is an error met inside a called function. */
  datatype Error =
    | NameError(name: string, ofModule: bool)
    | Unassigned
    | Overflow
    | ZeroDivision
    | ValueError
    | TypeError
    | IndexError
    | NoAttribute
    | OutOfMemory
    | TailReached
    | NoReply
    | InCallee(error: Error)
    | Departs(departure: Departure)

  /** A whole number, or the error met in asking for one. */
  datatype Num = Num(n: int) | NoNum(error: Error)

  /** A number, booleans counting as 0 and 1. */
  function Unboxed(v: Value): Num {
    match v
    case VInt(n) => Num(n)
    case VBool(b) => Num(if b then 1 else 0)
    case VNull => NoNum(Unassigned)
    case _ => NoNum(TypeError)
  }

  function Items(heap: Heap, at: nat): seq<Value> { if at in heap then heap[at] else [] }

  // ------------------------------------------------------------------ callees

  predicate ProperValue(v: Value) { v != VNull && (v.VInt? ==> Fits(v.n)) }

  ghost predicate ProperHeap(heap: Heap) {
    forall at :: at in heap ==> |heap[at]| <= LIST_MAX && forall i :: 0 <= i < |heap[at]| ==> ProperValue(heap[at][i])
  }

  /** How a called function comes back; one that never does raises `NoReply`. */
  datatype Answer = Gives(value: Value, heap: Heap, printed: seq<Token>) | Raises(error: Error, printed: seq<Token>)

  ghost predicate Proper(a: Answer) { a.Gives? ==> ProperValue(a.value) && ProperHeap(a.heap) }

  type Reply = a: Answer | Proper(a) ghost witness Raises(NoReply, [])

  /** A call: how many went before it, what is called with what, and the lists and module
      variables the callee can see. */
  datatype Query = Query(nth: nat, callee: string, args: seq<Value>, heap: Heap, globals: map<string, Value>)

  /** What every function outside the body at hand does, the runtime's operations on lists
      included. */
  type Oracle = Query -> Reply
}
