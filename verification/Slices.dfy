/** List slicing of the emitted runtime (src/codegen.rs): `xs[start:stop:step]` with
    CPython's clamping. */
module Slices {
  import opened Syntax
  import opened Values
  import opened MachineIntegers
  import opened RuntimeLists

  // ---------------------------------------------------------- what Python means

  /** Where an explicit bound lands: negative ones count from the end; out of range means
      just before the first or just past the last position the direction can reach. */
  function Landed(bound: int, n: nat, step: int): int {
    var b := if bound < 0 then bound + n else bound;
    var low := if step < 0 then -1 else 0;
    var high := if step < 0 then n - 1 else n;
    if b < low then low else if b > high then high else b
  }

  function StartOf(bound: Option<int>, n: nat, step: int): int {
    match bound case Some(b) => Landed(b, n, step) case None => if step < 0 then n - 1 else 0
  }

  function StopOf(bound: Option<int>, n: nat, step: int): int {
    match bound case Some(b) => Landed(b, n, step) case None => if step < 0 then -1 else n
  }

  /** The positions start, start + step, ... before stop. */
  function Positions(start: int, stop: int, step: int): seq<int>
    requires step != 0
    decreases if step > 0 then stop - start else start - stop
  {
    if (step > 0 && start >= stop) || (step < 0 && start <= stop) then []
    else [start] + Positions(start + step, stop, step)
  }

  lemma BoundsInRange(start: Option<int>, stop: Option<int>, n: nat, step: int)
    requires step != 0
    ensures step > 0 ==> 0 <= StartOf(start, n, step) && StopOf(stop, n, step) <= n
    ensures step < 0 ==> StartOf(start, n, step) <= n - 1 && -1 <= StopOf(stop, n, step)
  {
  }

  /** Every position a slice visits is a position of the list. */
  lemma {:induction false} PositionsInRange(start: int, stop: int, step: int, n: nat, k: nat)
    requires step != 0 && k < |Positions(start, stop, step)|
    requires step > 0 ==> 0 <= start && stop <= n
    requires step < 0 ==> start <= n - 1 && -1 <= stop
    ensures Positions(start, stop, step)[k] == start + k * step && 0 <= start + k * step < n
    decreases k
  {
    if k > 0 {
      PositionsInRange(start + step, stop, step, n, k - 1);
      assert (k - 1) * step + step == k * step;
    }
  }

  /** The slice itself. */
  function Sliced<T>(xs: seq<T>, start: Option<int>, stop: Option<int>, step: int): seq<T>
    requires step != 0
  {
    var ps := Positions(StartOf(start, |xs|, step), StopOf(stop, |xs|, step), step);
    seq(|ps|, k requires 0 <= k < |ps| =>
      BoundsInRange(start, stop, |xs|, step);
      PositionsInRange(StartOf(start, |xs|, step), StopOf(stop, |xs|, step), step, |xs|, k);
      xs[ps[k]])
  }

  /** `xs[::-1]` reverses and `xs[:]` copies. */
  lemma WholeSlices<T>(xs: seq<T>)
    ensures Sliced(xs, None, None, 1) == xs
    ensures |Sliced(xs, None, None, -1)| == |xs|
    ensures forall k :: 0 <= k < |xs| ==> Sliced(xs, None, None, -1)[k] == xs[|xs| - 1 - k]
  {
    CountIs(0, |xs|, 1);
    CountIs(|xs| - 1, -1, -1);
    OneDivides(|xs| - 1);
    forall k | 0 <= k < |xs| ensures Sliced(xs, None, None, 1)[k] == xs[k] && Sliced(xs, None, None, -1)[k] == xs[|xs| - 1 - k] {
      PositionsInRange(0, |xs|, 1, |xs|, k);
      PositionsInRange(|xs| - 1, -1, -1, |xs|, k);
    }
  }

  lemma OneDivides(n: int)
    ensures n / 1 == n
  {
  }

  /** A slice up to `k` and one from `k` on are the two sides of where `k` lands. */
  lemma SlicesAt<T>(xs: seq<T>, k: int)
    ensures var m := Landed(k, |xs|, 1);
      0 <= m <= |xs| && Sliced(xs, None, Some(k), 1) == xs[..m] && Sliced(xs, Some(k), None, 1) == xs[m..]
  {
    var n, m := |xs|, Landed(k, |xs|, 1);
    CountIs(0, m, 1);
    CountIs(m, n, 1);
    OneDivides(m - 1);
    OneDivides(n - m - 1);
    var a, b := Sliced(xs, None, Some(k), 1), Sliced(xs, Some(k), None, 1);
    forall i | 0 <= i < |a| ensures a[i] == xs[i] { PositionsInRange(0, m, 1, n, i); }
    forall i | 0 <= i < |b| ensures b[i] == xs[m + i] { PositionsInRange(m, n, 1, n, i); }
  }

  /** `xs[:k] + xs[k:] == xs` for every k. */
  lemma SplitAnywhere<T>(xs: seq<T>, k: int)
    ensures Sliced(xs, None, Some(k), 1) + Sliced(xs, Some(k), None, 1) == xs
  {
    hide Sliced;
    SlicesAt(xs, k);
  }

  /** `xs.insert(k, x)` leaves `xs[:k] + [x] + xs[k:]`, whatever `k` is. */
  lemma InsertedBetween<T>(xs: seq<T>, k: int, x: T)
    ensures InsertedAt(xs, k, x) == Sliced(xs, None, Some(k), 1) + [x] + Sliced(xs, Some(k), None, 1)
  {
    hide Sliced;
    SlicesAt(xs, k);
  }

  /** The item `xs[k]` names, to be read or popped: the first of the slice from `k` on, if
      `-len(xs) <= k < len(xs)`, and none otherwise. */
  lemma PositionNames<T>(xs: seq<T>, k: int)
    ensures Position(k, |xs|).Some? <==> -|xs| <= k < |xs|
    ensures Position(k, |xs|).Some? ==>
              Sliced(xs, Some(k), None, 1) != [] && xs[Position(k, |xs|).value] == Sliced(xs, Some(k), None, 1)[0]
  {
    hide Sliced;
    SlicesAt(xs, k);
  }

  // ------------------------------------------------------------ what the code does

  lemma NegatedStep(step: int)
    requires Fits(step) && step < 0
    ensures Wrap32(0 - step) == if step == I32_MIN then I32_MIN else -step
  {
    WrapExact(0 - step, 0x8000_0000);
  }

  /** The element count the helper computes, on wrapping 32-bit integers. */
  function Count(start: int, stop: int, step: int): int
    requires step != 0 && Fits(step)
  {
    if step > 0 then (if stop > start then Wrap32(TruncQuotient(Wrap32(Wrap32(stop - start) - 1), step) + 1) else 0)
    else if start > stop then
      NegatedStep(step);
      Wrap32(TruncQuotient(Wrap32(Wrap32(start - stop) - 1), Wrap32(0 - step)) + 1)
    else 0
  }

  function Ceil(n: int, d: int): int
    requires d > 0
  {
    if n <= 0 then 0 else (n - 1) / d + 1
  }

  lemma {:induction false} CountIs(start: int, stop: int, step: int)
    requires step != 0
    ensures |Positions(start, stop, step)| == if step > 0 then Ceil(stop - start, step) else Ceil(start - stop, -step)
    decreases if step > 0 then stop - start else start - stop
  {
    var d := if step > 0 then step else -step;
    var n := if step > 0 then stop - start else start - stop;
    if n > 0 {
      CountIs(start + step, stop, step);
      CeilStep(n, d);
    }
  }

  lemma CeilStep(n: int, d: int)
    requires n > 0 && d > 0
    ensures Ceil(n, d) == 1 + Ceil(n - d, d)
  {
    if n > d {
      var q, r := (n - 1) / d, (n - 1) % d;
      assert n - 1 == d * q + r && n - d - 1 == d * (q - 1) + r by { assert d * (q - 1) == d * q - d; }
      UniqueQuotient(n - d - 1, d, q - 1, r);
    } else {
      UniqueQuotient(n - 1, d, 0, n - 1);
    }
  }

  /** No wrap changes the count, not even negating a step of -2^31. */
  lemma CountExact(start: int, stop: int, step: int, n: nat)
    requires step != 0 && Fits(step) && n <= I32_MAX
    requires step > 0 ==> 0 <= start <= n && 0 <= stop <= n
    requires step < 0 ==> -1 <= start <= n - 1 && -1 <= stop <= n - 1
    ensures Count(start, stop, step) == |Positions(start, stop, step)|
  {
    hide Wrap, TruncQuotient, Positions;
    CountIs(start, stop, step);
    var m := if step > 0 then stop - start - 1 else start - stop - 1;
    if m >= 0 {
      WrapExact(m + 1, 0x8000_0000);
      WrapExact(m, 0x8000_0000);
      var d := if step > 0 then step else Wrap32(0 - step);
      if step < 0 { NegatedStep(step); }
      StepQuotient(m, d);
      WrapExact(TruncQuotient(m, d) + 1, 0x8000_0000);
    }
  }

  lemma StepQuotient(m: int, d: int)
    requires 0 <= m < I32_MAX && d != 0 && (d > 0 || d == I32_MIN)
    ensures TruncQuotient(m, d) == if d > 0 then m / d else 0
    ensures 0 <= TruncQuotient(m, d) <= m
    ensures d == I32_MIN ==> m / 0x8000_0000 == 0
  {
    assert Abs(m) == m;
    if d > 0 {
      SmallerQuotient(m, d);
      PositiveQuotient(m, d);
    } else {
      assert Abs(d) == 0x8000_0000;
      UniqueQuotient(m, 0x8000_0000, 0, m);
    }
  }

  /** `$slice_adjust`. */
  method Adjust(bound: int, n: nat, lower: int, upper: int) returns (i: int)
    requires Fits(bound) && n <= I32_MAX
    ensures bound < 0 ==> i == if bound + n < lower then lower else bound + n
    ensures bound >= 0 ==> i == if bound > upper then upper else bound
  {
    hide Wrap;
    i := bound;
    if i < 0 {
      WrapExact(i + n, 0x8000_0000);
      i := Wrap32(i + n);
      if i < lower { i := lower; }
    } else if i > upper {
      i := upper;
    }
  }

  /** Copies the counted positions; every read and every write is in range. */
  method Gather<T(0)>(xs: array<T>, n: nat, start: int, stop: int, step: int) returns (r: array<T>)
    requires n <= xs.Length && n <= I32_MAX && step != 0 && Fits(step)
    requires step > 0 ==> 0 <= start <= n && 0 <= stop <= n
    requires step < 0 ==> -1 <= start <= n - 1 && -1 <= stop <= n - 1
    ensures fresh(r) && r.Length == |Positions(start, stop, step)|
    ensures forall k :: 0 <= k < r.Length ==> 0 <= Positions(start, stop, step)[k] < n && r[k] == xs[Positions(start, stop, step)[k]]
  {
    hide Wrap, Positions, Count;
    CountExact(start, stop, step, n);
    ghost var ps := Positions(start, stop, step);
    forall k | 0 <= k < |ps| ensures ps[k] == start + k * step && 0 <= ps[k] < n { PositionsInRange(start, stop, step, n, k); }
    var count := Count(start, stop, step);
    r := new T[count];
    var i, j := start, 0;
    while j < count
      invariant 0 <= j <= count && (j < count ==> i == ps[j])
      invariant forall k :: 0 <= k < j ==> r[k] == xs[ps[k]]
    {
      r[j] := xs[i];
      assert j + 1 < count ==> ps[j + 1] == i + step by {
        assert (j + 1) * step == j * step + step;
      }
      WrapExact(i + step, 0x8000_0000);
      i := Wrap32(i + step);
      j := j + 1;
    }
  }

  /** `$py_slice` on a list: `None` for a zero step, which is a ValueError. */
  method PySlice<T(0)>(xs: array<T>, n: nat, sv: Option<int>, ev: Option<int>, tv: Option<int>) returns (r: Option<array<T>>)
    requires n <= xs.Length && n <= I32_MAX
    requires (sv.Some? ==> Fits(sv.value)) && (ev.Some? ==> Fits(ev.value)) && (tv.Some? ==> Fits(tv.value))
    ensures r == None <==> tv == Some(0)
    ensures r.Some? ==> fresh(r.value) && r.value[..] == Sliced(xs[..n], sv, ev, if tv.Some? then tv.value else 1)
  {
    var step := if tv.Some? then tv.value else 1;
    if step == 0 { return None; }
    var lower, upper := if step < 0 then -1 else 0, if step < 0 then n - 1 else n;
    var start := if step < 0 then upper else lower;
    if sv.Some? { start := Adjust(sv.value, n, lower, upper); }
    var stop := if step < 0 then lower else upper;
    if ev.Some? { stop := Adjust(ev.value, n, lower, upper); }
    assert start == StartOf(sv, n, step) && stop == StopOf(ev, n, step);
    var items := Gather(xs, n, start, stop, step);
    assert items[..] == Sliced(xs[..n], sv, ev, step);
    r := Some(items);
  }
}
