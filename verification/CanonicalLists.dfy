/** Lists across the component boundary (src/component.rs): the readers and writers of
    nested lists in linear memory, the bump allocator they share, and the order in which
    their helpers are emitted.  Layouts follow the "Loading" and "Storing" sections of the
    WebAssembly Component Model Canonical ABI. */
module CanonicalLists {

  datatype WitType = S32 | F64 | Str | List(elem: WitType)

  // ------------------------------------------------------- which helpers, in which order

  /** The list shapes inside a type, itself included. */
  function Shapes(t: WitType): set<WitType> {
    match t case List(e) => Shapes(e) + {t} case _ => {}
  }

  /** Each shape once, and after the shape it contains. */
  ghost predicate InnerFirst(out: seq<WitType>) {
    && (forall i, j :: 0 <= i < j < |out| ==> out[i] != out[j])
    && (forall k :: 0 <= k < |out| ==> out[k].List? && (out[k].elem.List? ==> out[k].elem in out[..k]))
  }

  /** `collect_list_types`. */
  method CollectListTypes(t: WitType, out0: seq<WitType>) returns (out: seq<WitType>)
    requires InnerFirst(out0)
    ensures InnerFirst(out) && out0 <= out && forall s :: s in out <==> s in out0 || s in Shapes(t)
    decreases t
  {
    out := out0;
    if t.List? {
      out := CollectListTypes(t.elem, out0);
      if t !in out {
        ghost var before := out;
        out := out + [t];
        assert t.elem.List? ==> t.elem in Shapes(t.elem);
        forall k | 0 <= k < |out| ensures out[k].List? && (out[k].elem.List? ==> out[k].elem in out[..k]) {
          assert out[..k] == before[..k];
        }
      }
    }
  }

  /** All shapes of all exported signatures. */
  method CollectAll(types: seq<WitType>) returns (out: seq<WitType>)
    ensures InnerFirst(out) && forall s :: s in out <==> exists i :: 0 <= i < |types| && s in Shapes(types[i])
  {
    out := [];
    var i := 0;
    while i < |types|
      invariant 0 <= i <= |types| && InnerFirst(out)
      invariant forall s :: s in out <==> exists k :: 0 <= k < i && s in Shapes(types[k])
    {
      out := CollectListTypes(types[i], out);
      i := i + 1;
    }
  }

  /** The name fragment of a helper. */
  function Frag(t: WitType): string {
    match t
    case S32 => "s32"
    case F64 => "f64"
    case Str => "string"
    case List(e) => "list_of_" + Frag(e)
  }

  lemma FragHead(t: WitType)
    ensures Frag(t) != "" && (Frag(t)[0] == 'l' <==> t.List?)
    ensures !t.List? ==> (Frag(t)[0] == 'f' <==> t == F64) && (|Frag(t)| == 6 <==> t == Str)
  {
  }

  /** Distinct shapes get distinct helper names. */
  lemma {:induction false} FragDistinct(a: WitType, b: WitType)
    requires Frag(a) == Frag(b)
    ensures a == b
    decreases a
  {
    FragHead(a);
    FragHead(b);
    if a.List? {
      assert Frag(a)[8..] == Frag(a.elem) && Frag(b)[8..] == Frag(b.elem);
      FragDistinct(a.elem, b.elem);
    }
  }

  // ------------------------------------------------------------------- memory

  type Byte = b: int | 0 <= b < 256

  type Memory = map<int, Byte>

  function ByteAt(mem: Memory, at: int): Byte { if at in mem then mem[at] else 0 }

  function Range(k: nat): int { if k == 0 then 1 else 256 * Range(k - 1) }

  /** Little-endian. */
  function Stored(mem: Memory, at: int, k: nat, u: nat): (r: Memory)
    ensures forall a :: !(at <= a < at + k) ==> ByteAt(r, a) == ByteAt(mem, a)
    decreases k
  {
    if k == 0 then mem else Stored(mem[at := u % 256], at + 1, k - 1, u / 256)
  }

  function Loaded(mem: Memory, at: int, k: nat): nat
    decreases k
  {
    if k == 0 then 0 else ByteAt(mem, at) + 256 * Loaded(mem, at + 1, k - 1)
  }

  lemma {:induction false} LoadStored(mem: Memory, at: int, k: nat, u: nat)
    requires u < Range(k)
    ensures Loaded(Stored(mem, at, k, u), at, k) == u
    decreases k
  {
    if k > 0 {
      LoadStored(mem[at := u % 256], at + 1, k - 1, u / 256);
      var r := Stored(mem, at, k, u);
      assert ByteAt(r, at) == u % 256;
    }
  }

  lemma {:induction false} LoadSame(mem: Memory, r: Memory, at: int, k: nat)
    requires forall a :: at <= a < at + k ==> ByteAt(mem, a) == ByteAt(r, a)
    ensures Loaded(mem, at, k) == Loaded(r, at, k)
    decreases k
  {
    if k > 0 { LoadSame(mem, r, at + 1, k - 1); }
  }

  // ------------------------------------------------------------ values and layouts

  /** A runtime value; a string sits at an address. */
  datatype Held = HInt(n: int) | HFloat(bits: nat) | HStr(at: int, text: seq<Byte>) | HList(items: seq<Held>)

  /** What it means to the other side. */
  datatype Val = VInt(n: int) | VFloat(bits: nat) | VStr(text: seq<Byte>) | VList(items: seq<Val>)

  function Meaning(h: Held): Val
    decreases h, 0
  {
    match h
    case HInt(n) => VInt(n)
    case HFloat(b) => VFloat(b)
    case HStr(_, s) => VStr(s)
    case HList(items) => VList(Meanings(items))
  }

  function Meanings(hs: seq<Held>): seq<Val>
    decreases hs, 1
  {
    if hs == [] then [] else Meanings(hs[..|hs| - 1]) + [Meaning(hs[|hs| - 1])]
  }

  /** The value has the type, numbers fit, and pointers are 32-bit. */
  predicate Typed(h: Held, t: WitType)
    decreases h, 0
  {
    match (t, h)
    case (S32, HInt(n)) => -0x8000_0000 <= n < 0x8000_0000
    case (F64, HFloat(b)) => b < 0x1_0000_0000_0000_0000
    case (Str, HStr(at, s)) => 0 <= at < 0x8000_0000 && |s| < 0x8000_0000
    case (List(e), HList(items)) => |items| < 0x8000_0000 && AllTyped(items, e)
    case _ => false
  }

  predicate AllTyped(hs: seq<Held>, t: WitType)
    decreases hs, 1
  {
    hs == [] || (AllTyped(hs[..|hs| - 1], t) && Typed(hs[|hs| - 1], t))
  }

  function Stride(t: WitType): nat { if t == S32 then 4 else 8 }

  function Align(t: WitType): nat { if t == F64 then 8 else 4 }

  const PAGE: int := 65536

  /** Memory, the start of the allocator's page, and the bump offset. */
  datatype State = State(mem: Memory, base: int, off: nat)

  /** `cabi_realloc` clears the low bits of the rounded-up offset. */
  function RoundUp(off: nat, align: nat): nat
    requires align > 0
  {
    (off + align - 1) - (off + align - 1) % align
  }

  function Word(n: int): nat { n % 0x1_0000_0000 }

  function SignedWord(u: nat): int { if u < 0x8000_0000 then u else u - 0x1_0000_0000 }

  function PutWord(mem: Memory, at: int, n: int): Memory { Stored(mem, at, 4, Word(n)) }

  function GetWord(mem: Memory, at: int): int { SignedWord(Loaded(mem, at, 4)) }

  lemma WordBack(mem: Memory, at: int, n: int)
    requires -0x8000_0000 <= n < 0x8000_0000
    ensures GetWord(PutWord(mem, at, n), at) == n
  {
    assert Range(4) == 0x1_0000_0000;
    LoadStored(mem, at, 4, Word(n));
  }

  // --------------------------------------------------------------- lowering

  /** `lower_list_of_*`: allocate, then write the elements in order.  Returns the pointer. */
  function LowerList(items: seq<Held>, t: WitType, s: State): (int, State)
    decreases items, 2
  {
    var start := RoundUp(s.off, Align(t));
    (s.base + start, Fill(items, t, s.base + start, s.(off := start + |items| * Stride(t))))
  }

  function Fill(items: seq<Held>, t: WitType, ptr: int, s: State): State
    decreases items, 1
  {
    if items == [] then s
    else
      var i := |items| - 1;
      WriteElem(items[i], t, ptr + i * Stride(t), Fill(items[..i], t, ptr, s))
  }

  /** `lower_list_elem`: one slot. */
  function WriteElem(h: Held, t: WitType, slot: int, s: State): State
    decreases h, 0
  {
    match (t, h)
    case (S32, HInt(n)) => s.(mem := PutWord(s.mem, slot, n))
    case (F64, HFloat(b)) => s.(mem := Stored(s.mem, slot, 8, b))
    case (Str, HStr(at, text)) => s.(mem := PutWord(PutWord(s.mem, slot, at), slot + 4, |text|))
    case (List(e), HList(items)) =>
      var (p, u) := LowerList(items, e, s);
      u.(mem := PutWord(PutWord(u.mem, slot, p), slot + 4, |items|))
    case _ => s
  }

  // ---------------------------------------------------------------- building

  function TextAt(mem: Memory, at: int, len: int): seq<Byte>
    decreases len
  {
    if len <= 0 then [] else TextAt(mem, at, len - 1) + [ByteAt(mem, at + len - 1)]
  }

  /** `mk_list_of_*`: reads `len` elements at `ptr`, in order. */
  function MakeList(t: WitType, mem: Memory, ptr: int, len: int): seq<Val>
    decreases t, len
  {
    if len <= 0 then [] else MakeList(t, mem, ptr, len - 1) + [ReadElem(t, mem, ptr + (len - 1) * Stride(t))]
  }

  /** `list_elem_expr`: one slot. */
  function ReadElem(t: WitType, mem: Memory, slot: int): Val
    decreases t, 0
  {
    match t
    case S32 => VInt(GetWord(mem, slot))
    case F64 => VFloat(Loaded(mem, slot, 8))
    case Str => VStr(TextAt(mem, GetWord(mem, slot), GetWord(mem, slot + 4)))
    case List(e) => VList(MakeList(e, mem, GetWord(mem, slot), GetWord(mem, slot + 4)))
  }

  // ------------------------------------------------------- what writing touches

  /** The two memories agree on `lo..hi`. */
  ghost predicate Same(a: Memory, b: Memory, lo: int, hi: int) {
    forall x :: lo <= x < hi ==> ByteAt(a, x) == ByteAt(b, x)
  }

  /** From `s` to `r`, only `slot..slotEnd` and freshly allocated bytes have changed. */
  ghost predicate Touches(s: State, r: State, slot: int, slotEnd: int) {
    && r.base == s.base && r.off >= s.off
    && forall x :: !(slot <= x < slotEnd) && !(s.base + s.off <= x < s.base + r.off) ==> ByteAt(r.mem, x) == ByteAt(s.mem, x)
  }

  lemma RoundedUp(off: nat, align: nat)
    requires align == 4 || align == 8
    ensures off <= RoundUp(off, align) < off + align && RoundUp(off, align) % align == 0
  {
  }

  lemma {:induction false} ListTouches(items: seq<Held>, t: WitType, s: State)
    ensures var (p, r) := LowerList(items, t, s);
      Touches(s, r, 0, 0) && p == s.base + RoundUp(s.off, Align(t)) && p >= s.base + s.off
      && p + |items| * Stride(t) <= s.base + r.off
    decreases items, 2
  {
    hide Fill, Stride;
    RoundedUp(s.off, Align(t));
    var start := RoundUp(s.off, Align(t));
    FillTouches(items, t, s.base + start, s.(off := start + |items| * Stride(t)));
  }

  lemma {:induction false} FillTouches(items: seq<Held>, t: WitType, ptr: int, s: State)
    ensures Touches(s, Fill(items, t, ptr, s), ptr, ptr + |items| * Stride(t))
    decreases items, 1
  {
    hide WriteElem, Stride;
    if items != [] {
      var i := |items| - 1;
      var u := Fill(items[..i], t, ptr, s);
      FillTouches(items[..i], t, ptr, s);
      ElemTouches(items[i], t, ptr + i * Stride(t), u);
      Slots(i, Stride(t));
    }
  }

  lemma Slots(i: nat, n: nat)
    ensures (i + 1) * n == i * n + n && i * n >= 0
  {
  }

  lemma {:induction false} ElemTouches(h: Held, t: WitType, slot: int, s: State)
    ensures Touches(s, WriteElem(h, t, slot, s), slot, slot + Stride(t))
    decreases h, 0
  {
    hide LowerList, Stored;
    if t.List? && h.HList? { ListTouches(h.items, t.elem, s); }
  }

  // ------------------------------------------------------------------- strings

  /** Every string's bytes are in memory. */
  ghost predicate StringsAt(h: Held, mem: Memory)
    decreases h, 0
  {
    match h
    case HStr(at, text) => forall i :: 0 <= i < |text| ==> ByteAt(mem, at + i) == text[i]
    case HList(items) => AllStringsAt(items, mem)
    case _ => true
  }

  ghost predicate AllStringsAt(hs: seq<Held>, mem: Memory)
    decreases hs, 1
  {
    hs == [] || (AllStringsAt(hs[..|hs| - 1], mem) && StringsAt(hs[|hs| - 1], mem))
  }

  /** No string lies in `lo..hi`. */
  ghost predicate StringsClear(h: Held, lo: int, hi: int)
    decreases h, 0
  {
    match h
    case HStr(at, text) => at + |text| <= lo || hi <= at
    case HList(items) => AllStringsClear(items, lo, hi)
    case _ => true
  }

  ghost predicate AllStringsClear(hs: seq<Held>, lo: int, hi: int)
    decreases hs, 1
  {
    hs == [] || (AllStringsClear(hs[..|hs| - 1], lo, hi) && StringsClear(hs[|hs| - 1], lo, hi))
  }

  lemma {:induction false} StringsStay(h: Held, a: Memory, b: Memory, lo: int, hi: int)
    requires StringsAt(h, a) && StringsClear(h, lo, hi)
    requires forall x :: !(lo <= x < hi) ==> ByteAt(b, x) == ByteAt(a, x)
    ensures StringsAt(h, b)
    decreases h, 0
  {
    if h.HList? { AllStringsStay(h.items, a, b, lo, hi); }
  }

  lemma {:induction false} AllStringsStay(hs: seq<Held>, a: Memory, b: Memory, lo: int, hi: int)
    requires AllStringsAt(hs, a) && AllStringsClear(hs, lo, hi)
    requires forall x :: !(lo <= x < hi) ==> ByteAt(b, x) == ByteAt(a, x)
    ensures AllStringsAt(hs, b)
    decreases hs, 1
  {
    if hs != [] {
      AllStringsStay(hs[..|hs| - 1], a, b, lo, hi);
      StringsStay(hs[|hs| - 1], a, b, lo, hi);
    }
  }

  lemma {:induction false} TextBack(mem: Memory, at: int, text: seq<Byte>)
    requires forall i :: 0 <= i < |text| ==> ByteAt(mem, at + i) == text[i]
    ensures TextAt(mem, at, |text|) == text
    decreases |text|
  {
    if text != [] {
      var init := text[..|text| - 1];
      TextBack(mem, at, init);
      assert ByteAt(mem, at + (|text| - 1)) == text[|text| - 1];
      assert text == init + [text[|text| - 1]];
    }
  }

  // ----------------------------------------------------------------- round trip

  /** Pointers into the page are nonnegative 32-bit numbers, and the offset fits it. */
  predicate InPage(s: State) { 0 <= s.base && s.base + PAGE < 0x8000_0000 && s.off <= PAGE }

  lemma WordSame(a: Memory, b: Memory, at: int)
    requires Same(a, b, at, at + 4)
    ensures GetWord(a, at) == GetWord(b, at)
  {
    LoadSame(a, b, at, 4);
  }

  /** A pointer and a length, side by side. */
  lemma PairBack(mem: Memory, slot: int, p: int, len: int, later: Memory)
    requires -0x8000_0000 <= p < 0x8000_0000 && 0 <= len < 0x8000_0000
    requires Same(later, PutWord(PutWord(mem, slot, p), slot + 4, len), slot, slot + 8)
    ensures GetWord(later, slot) == p && GetWord(later, slot + 4) == len
  {
    hide GetWord, Stored;
    var one := PutWord(mem, slot, p);
    var two := PutWord(one, slot + 4, len);
    WordBack(mem, slot, p);
    WordBack(one, slot + 4, len);
    assert Same(two, one, slot, slot + 4);
    WordSame(two, one, slot);
    WordSame(later, two, slot);
    WordSame(later, two, slot + 4);
  }

  lemma DoubleBack(mem: Memory, slot: int, bits: nat, later: Memory)
    requires bits < 0x1_0000_0000_0000_0000 && Same(later, Stored(mem, slot, 8, bits), slot, slot + 8)
    ensures Loaded(later, slot, 8) == bits
  {
    assert Range(8) == 0x1_0000_0000_0000_0000;
    hide Range, Stored, Loaded;
    LoadStored(mem, slot, 8, bits);
    LoadSame(later, Stored(mem, slot, 8, bits), slot, 8);
  }

  /** A written slot reads back, in any later memory that left alone the slot, the buffers
      allocated for it, and the strings. */
  lemma {:induction false} ElemBack(h: Held, t: WitType, slot: int, s: State, later: Memory)
    requires Typed(h, t) && slot + Stride(t) <= s.base + s.off && InPage(WriteElem(h, t, slot, s))
    requires var r := WriteElem(h, t, slot, s);
      Same(later, r.mem, slot, slot + Stride(t)) && Same(later, r.mem, s.base + s.off, s.base + r.off)
    requires StringsAt(h, later)
    ensures ReadElem(t, later, slot) == Meaning(h)
    decreases h, 0
  {
    hide GetWord, LowerList, MakeList, Stored, Range;
    match t
    case S32 =>
      WordBack(s.mem, slot, h.n);
      WordSame(later, PutWord(s.mem, slot, h.n), slot);
    case F64 =>
      DoubleBack(s.mem, slot, h.bits, later);
    case Str =>
      PairBack(s.mem, slot, h.at, |h.text|, later);
      TextBack(later, h.at, h.text);
    case List(e) =>
      var (p, u) := LowerList(h.items, e, s);
      ListTouches(h.items, e, s);
      NestedInPage(h.items, e, s);
      PairBack(u.mem, slot, p, |h.items|, later);
      assert Same(later, u.mem, s.base + s.off, s.base + u.off);
      ListBack(h.items, e, s, later);
  }

  lemma NestedInPage(items: seq<Held>, t: WitType, s: State)
    ensures var (p, r) := LowerList(items, t, s); InPage(r) ==> 0 <= p < 0x8000_0000
  {
    hide LowerList, Stride;
    ListTouches(items, t, s);
    Slots(|items|, Stride(t));
  }

  lemma {:induction false} ListBack(items: seq<Held>, t: WitType, s: State, later: Memory)
    requires AllTyped(items, t) && InPage(LowerList(items, t, s).1)
    requires Same(later, LowerList(items, t, s).1.mem, s.base + s.off, s.base + LowerList(items, t, s).1.off)
    requires AllStringsAt(items, later)
    ensures MakeList(t, later, LowerList(items, t, s).0, |items|) == Meanings(items)
    decreases items, 2
  {
    hide Fill, Stride, MakeList, Meanings, AllTyped, AllStringsAt, RoundUp;
    ListTouches(items, t, s);
    var start := RoundUp(s.off, Align(t));
    var u := s.(off := start + |items| * Stride(t));
    FillTouches(items, t, s.base + start, u);
    FillBack(items, t, s.base + start, u, later);
  }

  lemma {:induction false} FillBack(items: seq<Held>, t: WitType, ptr: int, s: State, later: Memory)
    requires AllTyped(items, t) && ptr + |items| * Stride(t) <= s.base + s.off && InPage(Fill(items, t, ptr, s))
    requires var r := Fill(items, t, ptr, s);
      Same(later, r.mem, ptr, ptr + |items| * Stride(t)) && Same(later, r.mem, s.base + s.off, s.base + r.off)
    requires AllStringsAt(items, later)
    ensures MakeList(t, later, ptr, |items|) == Meanings(items)
    decreases items, 1
  {
    hide WriteElem, Stride, ReadElem, Typed, StringsAt, Meaning;
    if items != [] {
      var i := |items| - 1;
      var slot := ptr + i * Stride(t);
      var u := Fill(items[..i], t, ptr, s);
      Slots(i, Stride(t));
      FillTouches(items[..i], t, ptr, s);
      ElemTouches(items[i], t, slot, u);
      FillBack(items[..i], t, ptr, s, later);
      ElemBack(items[i], t, slot, u, later);
    }
  }

  /** What one side lowers, the other side builds again: any nested list that fits the
      page, with its strings outside the newly allocated part. */
  lemma RoundTrip(items: seq<Held>, t: WitType, s: State)
    requires AllTyped(items, t) && InPage(LowerList(items, t, s).1) && AllStringsAt(items, s.mem)
    requires AllStringsClear(items, s.base + s.off, s.base + LowerList(items, t, s).1.off)
    ensures var (p, r) := LowerList(items, t, s);
      MakeList(t, r.mem, p, |items|) == Meanings(items)
  {
    hide LowerList, MakeList, AllTyped;
    var (p, r) := LowerList(items, t, s);
    ListTouches(items, t, s);
    AllStringsStay(items, s.mem, r.mem, s.base + s.off, s.base + r.off);
    ListBack(items, t, s, r.mem);
  }

  // -------------------------------------------------------------- the buffers

  /** One allocation. */
  datatype Buffer = Buffer(start: nat, size: nat, align: nat)

  /** The allocations of a lowering, in order. */
  ghost function BuffersOfList(items: seq<Held>, t: WitType, s: State): seq<Buffer>
    decreases items, 2
  {
    var start, size := RoundUp(s.off, Align(t)), |items| * Stride(t);
    [Buffer(start, size, Align(t))] + BuffersOfFill(items, t, s.base + start, s.(off := start + size))
  }

  ghost function BuffersOfFill(items: seq<Held>, t: WitType, ptr: int, s: State): seq<Buffer>
    decreases items, 1
  {
    if items == [] then []
    else
      var i := |items| - 1;
      BuffersOfFill(items[..i], t, ptr, s) + BuffersOfElem(items[i], t, Fill(items[..i], t, ptr, s))
  }

  ghost function BuffersOfElem(h: Held, t: WitType, s: State): seq<Buffer>
    decreases h, 0
  {
    if t.List? && h.HList? then BuffersOfList(h.items, t.elem, s) else []
  }

  /** One after the other between `lo` and `hi`, each at a multiple of its alignment. */
  ghost predicate Stacked(bs: seq<Buffer>, lo: nat, hi: nat) {
    && lo <= hi
    && (forall i :: 0 <= i < |bs| ==>
          bs[i].align > 0 && bs[i].start % bs[i].align == 0 && lo <= bs[i].start && bs[i].start + bs[i].size <= hi)
    && (forall i, j :: 0 <= i < j < |bs| ==> bs[i].start + bs[i].size <= bs[j].start)
  }

  lemma StackedSum(a: seq<Buffer>, b: seq<Buffer>, lo: nat, mid: nat, hi: nat)
    requires Stacked(a, lo, mid) && Stacked(b, mid, hi)
    ensures Stacked(a + b, lo, hi)
  {
  }

  /** The buffers of a lowering never overlap and are aligned. */
  lemma {:induction false} BuffersStacked(items: seq<Held>, t: WitType, s: State)
    ensures Stacked(BuffersOfList(items, t, s), s.off, LowerList(items, t, s).1.off)
    decreases items, 2
  {
    hide Fill, Stride, BuffersOfFill, RoundUp;
    var start, size := RoundUp(s.off, Align(t)), |items| * Stride(t);
    RoundedUp(s.off, Align(t));
    FillStacked(items, t, s.base + start, s.(off := start + size));
    assert Stacked([Buffer(start, size, Align(t))], s.off, start + size);
    StackedSum([Buffer(start, size, Align(t))], BuffersOfFill(items, t, s.base + start, s.(off := start + size)),
               s.off, start + size, LowerList(items, t, s).1.off);
  }

  lemma {:induction false} FillStacked(items: seq<Held>, t: WitType, ptr: int, s: State)
    ensures Stacked(BuffersOfFill(items, t, ptr, s), s.off, Fill(items, t, ptr, s).off)
    decreases items, 1
  {
    if items != [] {
      hide WriteElem, Stride, BuffersOfElem, Stacked;
      var i := |items| - 1;
      var u := Fill(items[..i], t, ptr, s);
      FillStacked(items[..i], t, ptr, s);
      ElemStacked(items[i], t, ptr + i * Stride(t), u);
      StackedSum(BuffersOfFill(items[..i], t, ptr, s), BuffersOfElem(items[i], t, u), s.off, u.off,
                 WriteElem(items[i], t, ptr + i * Stride(t), u).off);
    }
  }

  lemma {:induction false} ElemStacked(h: Held, t: WitType, slot: int, s: State)
    ensures Stacked(BuffersOfElem(h, t, s), s.off, WriteElem(h, t, slot, s).off)
    decreases h, 0
  {
    hide LowerList, BuffersOfList, Stored;
    if t.List? && h.HList? { BuffersStacked(h.items, t.elem, s); }
  }

  // ------------------------------------------------------------------- the shim

  class Shim {
    const base: int
    var mem: Memory
    var off: nat

    ghost function Now(): State reads this { State(mem, base, off) }

    /** `cabi_realloc`, on the static page. */
    method Realloc(align: nat, size: nat) returns (p: int)
      requires align > 0
      modifies this`off
      ensures p == base + RoundUp(old(off), align) && off == RoundUp(old(off), align) + size
    {
      off := RoundUp(off, align);
      p := base + off;
      off := off + size;
    }

    /** `lower_list_of_*`. */
    method Lower(items: seq<Held>, t: WitType) returns (p: int)
      modifies this
      ensures (p, Now()) == LowerList(items, t, old(Now()))
      decreases items, 2
    {
      hide WriteElem;
      p := Realloc(Align(t), |items| * Stride(t));
      ghost var s := Now();
      var i := 0;
      assert items[..0] == [];
      while i < |items|
        invariant 0 <= i <= |items| && Now() == Fill(items[..i], t, p, s)
      {
        assert items[..i + 1][..i] == items[..i];
        Write(items[i], t, p + i * Stride(t));
        i := i + 1;
      }
      assert items[..i] == items;
    }

    method Write(h: Held, t: WitType, slot: int)
      modifies this
      ensures Now() == WriteElem(h, t, slot, old(Now()))
      decreases h, 0
    {
      hide LowerList, Stored;
      match (t, h) {
        case (S32, HInt(n)) => mem := PutWord(mem, slot, n);
        case (F64, HFloat(b)) => mem := Stored(mem, slot, 8, b);
        case (Str, HStr(at, text)) =>
          mem := PutWord(mem, slot, at);
          mem := PutWord(mem, slot + 4, |text|);
        case (List(e), HList(items)) =>
          var p := Lower(items, e);
          mem := PutWord(mem, slot, p);
          mem := PutWord(mem, slot + 4, |items|);
        case _ =>
      }
    }

    /** `mk_list_of_*`. */
    method Make(t: WitType, ptr: int, len: int) returns (vs: seq<Val>)
      ensures vs == MakeList(t, mem, ptr, len)
      decreases t, 2
    {
      hide ReadElem;
      vs := [];
      var i := 0;
      while i < len
        invariant 0 <= i && (i <= len || i == 0) && vs == MakeList(t, mem, ptr, i)
      {
        var v := Read(t, ptr + i * Stride(t));
        vs := vs + [v];
        i := i + 1;
      }
    }

    method Read(t: WitType, slot: int) returns (v: Val)
      ensures v == ReadElem(t, mem, slot)
      decreases t, 1
    {
      hide GetWord, MakeList;
      match t {
        case S32 => v := VInt(GetWord(mem, slot));
        case F64 => v := VFloat(Loaded(mem, slot, 8));
        case Str => v := VStr(TextAt(mem, GetWord(mem, slot), GetWord(mem, slot + 4)));
        case List(e) =>
          var vs := Make(e, GetWord(mem, slot), GetWord(mem, slot + 4));
          v := VList(vs);
      }
    }
  }
}
