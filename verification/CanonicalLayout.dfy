/** Where the bytes of a list are: the memory layout of lists in the WebAssembly Component
    Model Canonical ABI ("Storing" and "Loading"), said in numbers, and the proof that lists
    are lowered to it and built from it. */
module CanonicalLayout {
  import opened CanonicalLists

  // ----------------------------------------------------------------- the layout

  /** The little-endian word at an address. */
  function WordAt(mem: Memory, at: int): nat {
    ByteAt(mem, at) + 0x100 * ByteAt(mem, at + 1) + 0x1_0000 * ByteAt(mem, at + 2) + 0x100_0000 * ByteAt(mem, at + 3)
  }

  /** The word of a whole number: two's complement. */
  function TwosComplement(n: int): int { if n < 0 then n + 0x1_0000_0000 else n }

  /** Where item `k` of a list at `p` is: every 4 bytes for whole numbers, else every 8. */
  function ItemAt(t: WitType, p: int, k: nat): int { if t == S32 then p + 4 * k else p + 8 * k }

  /** Buffers of doubles start at a multiple of 8 in the allocator's page, others of 4. */
  predicate AlignedIn(base: int, t: WitType, p: int) { if t == F64 then (p - base) % 8 == 0 else (p - base) % 4 == 0 }

  /** A lowered value in its slot: a number in place, a text or an inner list as its address
      and, 4 bytes on, its length. */
  ghost predicate Holds(mem: Memory, base: int, t: WitType, slot: int, h: Held)
    decreases h, 0
  {
    match (t, h)
    case (S32, HInt(n)) => WordAt(mem, slot) == TwosComplement(n)
    case (F64, HFloat(b)) => WordAt(mem, slot) + 0x1_0000_0000 * WordAt(mem, slot + 4) == b
    case (Str, HStr(at, text)) => WordAt(mem, slot) == at && WordAt(mem, slot + 4) == |text|
    case (List(e), HList(items)) => WordAt(mem, slot + 4) == |items| && HoldsAll(mem, base, e, WordAt(mem, slot), items)
    case _ => false
  }

  ghost predicate HoldsAll(mem: Memory, base: int, t: WitType, p: int, items: seq<Held>)
    decreases items, 1
  {
    AlignedIn(base, t, p) && forall k :: 0 <= k < |items| ==> Holds(mem, base, t, ItemAt(t, p, k), items[k])
  }

  /** The same for a value whose texts are looked up in memory. */
  ghost predicate Encodes(mem: Memory, t: WitType, slot: int, v: Val)
    decreases v, 0
  {
    match (t, v)
    case (S32, VInt(n)) => -0x8000_0000 <= n < 0x8000_0000 && WordAt(mem, slot) == TwosComplement(n)
    case (F64, VFloat(b)) => WordAt(mem, slot) + 0x1_0000_0000 * WordAt(mem, slot + 4) == b
    case (Str, VStr(text)) =>
      && WordAt(mem, slot) < 0x8000_0000 && WordAt(mem, slot + 4) == |text| < 0x8000_0000
      && forall i :: 0 <= i < |text| ==> ByteAt(mem, WordAt(mem, slot) + i) == text[i]
    case (List(e), VList(vs)) =>
      && WordAt(mem, slot) < 0x8000_0000 && WordAt(mem, slot + 4) == |vs| < 0x8000_0000
      && EncodesAll(mem, e, WordAt(mem, slot), vs)
    case _ => false
  }

  ghost predicate EncodesAll(mem: Memory, t: WitType, p: int, vs: seq<Val>)
    decreases vs, 1
  {
    forall k :: 0 <= k < |vs| ==> Encodes(mem, t, ItemAt(t, p, k), vs[k])
  }

  // ------------------------------------------------------------ words and slots

  lemma LoadedWord(mem: Memory, at: int)
    ensures Loaded(mem, at, 4) == WordAt(mem, at)
    ensures Loaded(mem, at, 8) == WordAt(mem, at) + 0x1_0000_0000 * WordAt(mem, at + 4)
  {
    assert Loaded(mem, at + 4, 4) == WordAt(mem, at + 4);
    assert Loaded(mem, at + 1, 7) == ByteAt(mem, at + 1) + 256 * Loaded(mem, at + 2, 6);
    assert Loaded(mem, at + 3, 5) == ByteAt(mem, at + 3) + 256 * Loaded(mem, at + 4, 4);
  }

  lemma SameWord(mem: Memory, at: int, n: int)
    requires GetWord(mem, at) == n
    ensures WordAt(mem, at) == TwosComplement(n)
  {
    LoadedWord(mem, at);
  }

  lemma SlotOf(t: WitType, p: int, k: nat)
    ensures ItemAt(t, p, k) == p + k * Stride(t)
  {
  }

  // ---------------------------------------------------------------- lowering

  /** A written slot holds the value, in any later memory that left alone the slot and the
      buffers allocated for it. */
  lemma {:induction false} ElemHeld(h: Held, t: WitType, slot: int, s: State, later: Memory)
    requires Typed(h, t) && slot + Stride(t) <= s.base + s.off && InPage(WriteElem(h, t, slot, s))
    requires var r := WriteElem(h, t, slot, s);
      Same(later, r.mem, slot, slot + Stride(t)) && Same(later, r.mem, s.base + s.off, s.base + r.off)
    ensures Holds(later, s.base, t, slot, h)
    decreases h, 0
  {
    hide GetWord, LowerList, Stored, Range, WordAt, HoldsAll, Fill;
    match t
    case S32 =>
      WordBack(s.mem, slot, h.n);
      WordSame(later, PutWord(s.mem, slot, h.n), slot);
      SameWord(later, slot, h.n);
    case F64 =>
      DoubleBack(s.mem, slot, h.bits, later);
      LoadedWord(later, slot);
    case Str =>
      PairBack(s.mem, slot, h.at, |h.text|, later);
      SameWord(later, slot, h.at);
      SameWord(later, slot + 4, |h.text|);
    case List(e) =>
      var (p, u) := LowerList(h.items, e, s);
      ListTouches(h.items, e, s);
      NestedInPage(h.items, e, s);
      PairBack(u.mem, slot, p, |h.items|, later);
      SameWord(later, slot, p);
      SameWord(later, slot + 4, |h.items|);
      assert Same(later, u.mem, s.base + s.off, s.base + u.off);
      ListHeld(h.items, e, s, later);
  }

  lemma {:induction false} ListHeld(items: seq<Held>, t: WitType, s: State, later: Memory)
    requires AllTyped(items, t) && InPage(LowerList(items, t, s).1)
    requires Same(later, LowerList(items, t, s).1.mem, s.base + s.off, s.base + LowerList(items, t, s).1.off)
    ensures HoldsAll(later, s.base, t, LowerList(items, t, s).0, items)
    decreases items, 2
  {
    hide Fill, Stride, AllTyped, RoundUp, Holds, ItemAt;
    ListTouches(items, t, s);
    RoundedUp(s.off, Align(t));
    var start := RoundUp(s.off, Align(t));
    var u := s.(off := start + |items| * Stride(t));
    FillTouches(items, t, s.base + start, u);
    FillHeld(items, t, s.base + start, u, later);
  }

  lemma {:induction false} FillHeld(items: seq<Held>, t: WitType, ptr: int, s: State, later: Memory)
    requires AllTyped(items, t) && ptr + |items| * Stride(t) <= s.base + s.off && InPage(Fill(items, t, ptr, s))
    requires var r := Fill(items, t, ptr, s);
      Same(later, r.mem, ptr, ptr + |items| * Stride(t)) && Same(later, r.mem, s.base + s.off, s.base + r.off)
    ensures forall k :: 0 <= k < |items| ==> Holds(later, s.base, t, ItemAt(t, ptr, k), items[k])
    decreases items, 1
  {
    hide WriteElem, Stride, Typed, Holds, ItemAt;
    if items != [] {
      var i := |items| - 1;
      var slot := ptr + i * Stride(t);
      var u := Fill(items[..i], t, ptr, s);
      Slots(i, Stride(t));
      FillTouches(items[..i], t, ptr, s);
      ElemTouches(items[i], t, slot, u);
      FillHeld(items[..i], t, ptr, s, later);
      ElemHeld(items[i], t, slot, u, later);
      SlotOf(t, ptr, i);
    }
  }

  /** A lowered list lies in memory as the Canonical ABI says: item `k` of whole numbers is
      the word at `p + 4 * k`, a double the 8 bytes at `p + 8 * k`, a text or inner list its
      address at `p + 8 * k` and its length at `p + 8 * k + 4`, at every depth.  `p` is the
      first free address that is aligned, and a flat list takes no more than its items. */
  lemma LoweredAsLaidOut(items: seq<Held>, t: WitType, s: State)
    requires AllTyped(items, t) && InPage(LowerList(items, t, s).1)
    ensures var (p, r) := LowerList(items, t, s);
      && HoldsAll(r.mem, s.base, t, p, items)
      && s.base + s.off <= p < s.base + s.off + (if t == F64 then 8 else 4)
      && (!t.List? ==> s.base + r.off == ItemAt(t, p, |items|))
  {
    FlatEnd(items, t, s);
    hide LowerList, HoldsAll, AllTyped;
    ListTouches(items, t, s);
    RoundedUp(s.off, Align(t));
    ListHeld(items, t, s, LowerList(items, t, s).1.mem);
  }

  lemma FlatEnd(items: seq<Held>, t: WitType, s: State)
    ensures var (p, r) := LowerList(items, t, s); !t.List? ==> s.base + r.off == ItemAt(t, p, |items|)
  {
    hide Stride, ItemAt, Fill, RoundUp;
    var start := RoundUp(s.off, Align(t));
    if !t.List? {
      var u := s.(off := start + |items| * Stride(t));
      FlatFill(items, t, s.base + start, u);
      SlotOf(t, s.base + start, |items|);
      assert LowerList(items, t, s) == (s.base + start, Fill(items, t, s.base + start, u));
    }
  }

  lemma {:induction false} FlatFill(items: seq<Held>, t: WitType, ptr: int, s: State)
    requires !t.List?
    ensures Fill(items, t, ptr, s).off == s.off
    decreases |items|
  {
    if items != [] { FlatFill(items[..|items| - 1], t, ptr, s); }
  }

  // ---------------------------------------------------------------- building

  lemma {:induction false} ReadAsLaidOut(t: WitType, mem: Memory, slot: int, v: Val)
    requires Encodes(mem, t, slot, v)
    ensures ReadElem(t, mem, slot) == v
    decreases v, 0
  {
    hide WordAt, Loaded, MakeList, EncodesAll;
    LoadedWord(mem, slot);
    LoadedWord(mem, slot + 4);
    match t
    case Str => TextBack(mem, WordAt(mem, slot), v.text);
    case List(e) => BuiltAsLaidOut(e, mem, WordAt(mem, slot), v.items);
    case _ =>
  }

  lemma LastMade(t: WitType, mem: Memory, p: int, i: nat)
    ensures MakeList(t, mem, p, i + 1) == MakeList(t, mem, p, i) + [ReadElem(t, mem, ItemAt(t, p, i))]
  {
    SlotOf(t, p, i);
  }

  /** A list that the host laid out so is built item by item. */
  lemma {:induction false} BuiltAsLaidOut(t: WitType, mem: Memory, p: int, vs: seq<Val>)
    requires EncodesAll(mem, t, p, vs)
    ensures MakeList(t, mem, p, |vs|) == vs
    decreases vs, 1
  {
    if vs != [] {
      hide Encodes, ReadElem, MakeList, ItemAt;
      var i := |vs| - 1;
      BuiltAsLaidOut(t, mem, p, vs[..i]);
      LastMade(t, mem, p, i);
      ReadAsLaidOut(t, mem, ItemAt(t, p, i), vs[i]);
      assert vs == vs[..i] + [vs[i]];
    }
  }
}
