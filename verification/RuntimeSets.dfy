/** Sets of the emitted runtime (src/codegen.rs): items in insertion order, found by a
    linear scan with `==`. */
module RuntimeSets {
  import opened DistinctItems
  import opened RuntimeLists

  function Chosen<T>(xs: seq<T>, other: seq<T>, filter: bool, want: bool, eq: (T, T) -> bool): seq<T> {
    if filter then Filtered(xs, other, want, eq) else xs
  }

  /** What the four set operators keep, as sequences in insertion order. */
  function SetOpItems<T>(a: seq<T>, b: seq<T>, mode: nat, eq: (T, T) -> bool): seq<T> {
    if mode == 0 then AddedAll(AddedAll([], a, eq), b, eq)
    else if mode == 1 then AddedAll([], Filtered(a, b, true, eq), eq)
    else if mode == 3 then AddedAll([], Filtered(a, b, false, eq), eq)
    else if mode == 2 then AddedAll(AddedAll([], Filtered(a, b, false, eq), eq), Filtered(b, a, false, eq), eq)
    else []
  }

  /** Union, intersection, symmetric difference, difference. */
  predicate Wanted(mode: nat, inA: bool, inB: bool) {
    match mode
    case 0 => inA || inB
    case 1 => inA && inB
    case 2 => inA != inB
    case 3 => inA && !inB
    case _ => false
  }

  lemma SetOpMeaning<T(!new)>(a: seq<T>, b: seq<T>, mode: nat, eq: (T, T) -> bool, x: T)
    requires Equivalence(eq)
    ensures Distinct(SetOpItems(a, b, mode, eq), eq)
    ensures Has(SetOpItems(a, b, mode, eq), x, eq) <==> Wanted(mode, Has(a, x, eq), Has(b, x, eq))
  {
    hide AddedAll, Filtered, Equivalence;
    var none: seq<T> := [];
    match mode
    case 0 =>
      AddedAllHas(none, a, x, eq);
      AddedAllHas(AddedAll(none, a, eq), b, x, eq);
    case 1 =>
      FilteredHas(a, b, true, x, eq);
      AddedAllHas(none, Filtered(a, b, true, eq), x, eq);
    case 3 =>
      FilteredHas(a, b, false, x, eq);
      AddedAllHas(none, Filtered(a, b, false, eq), x, eq);
    case 2 =>
      FilteredHas(a, b, false, x, eq);
      FilteredHas(b, a, false, x, eq);
      AddedAllHas(none, Filtered(a, b, false, eq), x, eq);
      AddedAllHas(AddedAll(none, Filtered(a, b, false, eq), eq), Filtered(b, a, false, eq), x, eq);
    case _ =>
  }

  /** Inserting more only adds at the end. */
  lemma {:induction false} AddedAllGrows<T>(s: seq<T>, xs: seq<T>, i: nat, eq: (T, T) -> bool)
    requires i <= |xs|
    ensures s <= AddedAll(s, xs[..i], eq) <= AddedAll(s, xs, eq)
    decreases |xs|
  {
    hide Has;
    if i == |xs| {
      assert xs[..i] == xs;
      if xs != [] { AddedAllGrows(s, xs[..|xs| - 1], 0, eq); }
    } else {
      assert xs[..|xs| - 1][..i] == xs[..i];
      AddedAllGrows(s, xs[..|xs| - 1], i, eq);
    }
  }

  lemma {:induction false} FilteredGrows<T>(xs: seq<T>, other: seq<T>, want: bool, i: nat, eq: (T, T) -> bool)
    requires i <= |xs|
    ensures Filtered(xs[..i], other, want, eq) <= Filtered(xs, other, want, eq)
    decreases |xs|
  {
    hide Has;
    if i == |xs| {
      assert xs[..i] == xs;
    } else {
      assert xs[..|xs| - 1][..i] == xs[..i];
      FilteredGrows(xs[..|xs| - 1], other, want, i, eq);
    }
  }

  /** What the first items lead to is the beginning of what all lead to. */
  lemma ChosenGrows<T>(s: seq<T>, xs: seq<T>, other: seq<T>, filter: bool, want: bool, i: nat, eq: (T, T) -> bool)
    requires i <= |xs|
    ensures AddedAll(s, Chosen(xs[..i], other, filter, want, eq), eq) <= AddedAll(s, Chosen(xs, other, filter, want, eq), eq)
  {
    hide Has, AddedAll, Filtered;
    var a, b := Chosen(xs[..i], other, filter, want, eq), Chosen(xs, other, filter, want, eq);
    if filter { FilteredGrows(xs, other, want, i, eq); }
    assert a <= b && b[..|a|] == a;
    AddedAllGrows(s, b, |a|, eq);
  }

  /** One item more. */
  lemma ChosenStep<T>(s: seq<T>, xs: seq<T>, other: seq<T>, filter: bool, want: bool, i: nat, eq: (T, T) -> bool)
    requires i < |xs|
    ensures var before, after := AddedAll(s, Chosen(xs[..i], other, filter, want, eq), eq), AddedAll(s, Chosen(xs[..i + 1], other, filter,
      want, eq), eq);
      after == if !filter || Has(other, xs[i], eq) == want then Added(before, xs[i], eq) else before
  {
    hide Has, Added;
    assert xs[..i + 1][..i] == xs[..i];
    var before := Chosen(xs[..i], other, filter, want, eq);
    assert (before + [xs[i]])[..|before|] == before;
  }

  lemma NothingChosen<T>(xs: seq<T>, other: seq<T>, filter: bool, want: bool, eq: (T, T) -> bool)
    ensures Chosen(xs[..0], other, filter, want, eq) == []
  {
    assert xs[..0] == [];
  }

  lemma NothingAdded<T>(s: seq<T>, eq: (T, T) -> bool)
    ensures AddedAll(s, [], eq) == s
  {
  }

  /** As much of a sequence as fits. */
  function Fitted<T>(s: seq<T>, limit: nat): seq<T> { if |s| <= limit then s else s[..limit] }

  class PySet<T(0,!new)> {
    const eq: (T, T) -> bool
    const list: PyList<T>

    ghost predicate Valid() reads this, list, list.items {
      list.Valid() && Equivalence(eq) && Distinct(list.Contents(), eq)
    }

    ghost function Contents(): seq<T>
      requires list.Valid()
      reads this, list, list.items
    {
      list.Contents()
    }

    constructor (eq: (T, T) -> bool)
      requires Equivalence(eq)
      ensures Valid() && this.eq == eq && Contents() == [] && list.Limit() == Ceiling(0) && fresh(list) && fresh(list.items)
    {
      this.eq := eq;
      this.list := new PyList<T>();
    }

    /** `$set_find`: an index, or -1. */
    method Find(v: T) returns (i: int)
      requires Valid()
      ensures -1 <= i < |Contents()| && (i >= 0 <==> Has(Contents(), v, eq))
      ensures i >= 0 ==> eq(Contents()[i], v)
    {
      i := 0;
      while i < list.len
        invariant 0 <= i <= list.len && forall k :: 0 <= k < i ==> !eq(Contents()[k], v)
      {
        assert list.items[i] == Contents()[i];
        if eq(list.items[i], v) { return; }
        i := i + 1;
      }
      i := -1;
    }

    /** `$set_insert`; `ok` is false exactly when a new item finds no room. */
    method Insert(v: T) returns (ok: bool)
      requires Valid()
      modifies list, list.items
      ensures Valid() && (list.items == old(list.items) || fresh(list.items))
      ensures Contents() == if ok then Added(old(Contents()), v, eq) else old(Contents())
      ensures ok <==> old(Has(Contents(), v, eq) || list.len < list.Limit())
      ensures list.Limit() == old(list.Limit())
    {
      var at := Find(v);
      if at >= 0 { return true; }
      ghost var was := Contents();
      ok := list.Append(v);
      AddedHas(was, v, v, eq);
    }

    /** `$set_remove_at`. */
    method RemoveAt(k: nat)
      requires Valid() && k < list.len
      modifies list, list.items
      ensures Valid() && list.items == old(list.items) && Contents() == Without(old(Contents()), k)
    {
      ghost var was := Contents();
      list.RemoveAt(k);
      WithoutHas(was, k, was[k], eq);
    }

    /** Inserts the items of a sequence, or those that (do not) occur in `other`, as far as
        there is room. */
    method InsertAll(xs: seq<T>, other: PySet<T>, filter: bool, want: bool) returns (ok: bool)
      requires Valid() && other.Valid() && other.eq == eq && other.list != list && other.list.items != list.items
      modifies list, list.items
      ensures Valid() && (list.items == old(list.items) || fresh(list.items)) && list.Limit() == old(list.Limit())
      ensures var all := AddedAll(old(Contents()), Chosen(xs, old(other.Contents()), filter, want, eq), eq);
        Contents() == Fitted(all, list.Limit()) && (ok <==> |all| <= list.Limit())
    {
      hide Has, AddedAll, Chosen, Distinct, Equivalence;
      CeilingBound(list.items.Length);
      NothingChosen(xs, other.Contents(), filter, want, eq);
      ghost var was, theirs := Contents(), other.Contents();
      assert AddedAll(was, [], eq) == was by { NothingAdded(was, eq); }
      var i := 0;
      while i < |xs|
        invariant 0 <= i <= |xs| && Valid() && (list.items == old(list.items) || fresh(list.items))
        invariant list.len <= list.Limit() == old(list.Limit())
        invariant other.Valid() && other.Contents() == theirs && other.list.items != list.items
        invariant Contents() == AddedAll(was, Chosen(xs[..i], theirs, filter, want, eq), eq)
      {
        var take := true;
        if filter {
          var at := other.Find(xs[i]);
          take := (at >= 0) == want;
        }
        ChosenStep(was, xs, theirs, filter, want, i, eq);
        if take {
          ok := Insert(xs[i]);
          if !ok {
            ChosenGrows(was, xs, theirs, filter, want, i + 1, eq);
            return;
          }
        }
        i := i + 1;
      }
      assert xs[..i] == xs;
      ok := true;
    }

    /** `$set_eq`: sizes, then one direction only. */
    method Equals(b: PySet<T>) returns (same: bool)
      requires Valid() && b.Valid() && b.eq == eq
      ensures same <==> SameItems(Contents(), b.Contents(), eq)
    {
      ScanDecides(Contents(), b.Contents(), eq);
      if list.len != b.list.len { return false; }
      same := IsSubset(b);
    }

    /** `set.issubset`: every item is found in the other. */
    method IsSubset(b: PySet<T>) returns (all: bool)
      requires Valid() && b.Valid() && b.eq == eq
      ensures all <==> AllIn(Contents(), b.Contents(), eq)
    {
      var i := 0;
      while i < list.len
        invariant 0 <= i <= list.len && forall k :: 0 <= k < i ==> Has(b.Contents(), Contents()[k], eq)
      {
        assert list.items[i] == Contents()[i];
        var at := b.Find(list.items[i]);
        if at < 0 { return false; }
        i := i + 1;
      }
      all := true;
    }
  }

  /** `$py_set`. */
  method SetOf<T(0,!new)>(xs: seq<T>, eq: (T, T) -> bool) returns (ok: bool, s: PySet<T>)
    requires Equivalence(eq)
    ensures fresh(s) && fresh(s.list) && fresh(s.list.items) && s.Valid() && s.eq == eq
    ensures s.Contents() == Fitted(AddedAll([], xs, eq), Ceiling(0)) && (ok <==> |AddedAll([], xs, eq)| <= Ceiling(0))
  {
    s := new PySet<T>(eq);
    var empty := new PySet<T>(eq);
    ok := s.InsertAll(xs, empty, false, false);
  }

  /** What the first operand fills is the beginning of what both fill. */
  lemma MoreNeverFits<T>(a: seq<T>, b: seq<T>, mode: nat, eq: (T, T) -> bool)
    requires mode <= 3
    ensures var none: seq<T> := [];
      (mode == 0 ==> AddedAll(none, a, eq) <= SetOpItems(a, b, mode, eq)) &&
      (mode == 2 ==> AddedAll(none, Filtered(a, b, false, eq), eq) <= SetOpItems(a, b, mode, eq))
  {
    hide AddedAll, Filtered;
    var none: seq<T> := [];
    AddedAllGrows(AddedAll(none, a, eq), b, 0, eq);
    AddedAllGrows(AddedAll(none, Filtered(a, b, false, eq), eq), Filtered(b, a, false, eq), 0, eq);
  }

  /** `$py_setop` on two sets. */
  method SetOp<T(0,!new)>(a: PySet<T>, b: PySet<T>, mode: nat) returns (ok: bool, out: PySet<T>)
    requires a.Valid() && b.Valid() && a.eq == b.eq && mode <= 3
    ensures fresh(out) && fresh(out.list) && fresh(out.list.items) && out.Valid() && out.eq == a.eq
    ensures var all := SetOpItems(a.Contents(), b.Contents(), mode, a.eq);
      out.Contents() == Fitted(all, Ceiling(0)) && (ok <==> |all| <= Ceiling(0))
  {
    hide Distinct, Equivalence, Has, AddedAll, Filtered;
    MoreNeverFits(a.Contents(), b.Contents(), mode, a.eq);
    out := new PySet<T>(a.eq);
    var xs, ys := a.list.items[..a.list.len], b.list.items[..b.list.len];
    ok := true;
    if mode == 0 {
      ok := out.InsertAll(xs, b, false, false);
      if ok { ok := out.InsertAll(ys, a, false, false); }
    } else if mode == 1 || mode == 3 {
      ok := out.InsertAll(xs, b, true, mode == 1);
    } else {
      ok := out.InsertAll(xs, b, true, false);
      if ok { ok := out.InsertAll(ys, a, true, false); }
    }
  }

  /** `$set_method`, modes 4 and 5: issubset and issuperset of any iterable. */
  method SubsetMethod<T(0,!new)>(r: PySet<T>, o: seq<T>, mode: nat) returns (ok: bool, holds: bool)
    requires r.Valid() && (mode == 4 || mode == 5)
    ensures ok <==> |AddedAll([], o, r.eq)| <= Ceiling(0)
    ensures ok && mode == 4 ==> (holds <==> forall x :: Has(r.Contents(), x, r.eq) ==> Has(o, x, r.eq))
    ensures ok && mode == 5 ==> (holds <==> forall x :: Has(o, x, r.eq) ==> Has(r.Contents(), x, r.eq))
  {
    var os;
    ok, os := SetOf(o, r.eq);
    if !ok { return false, false; }
    forall x ensures Has(os.Contents(), x, r.eq) <==> Has(o, x, r.eq) {
      var none: seq<T> := [];
      AddedAllHas(none, o, x, r.eq);
    }
    if mode == 5 {
      holds := os.IsSubset(r);
      SubsetDecides(os.Contents(), r.Contents(), r.eq);
    } else {
      holds := r.IsSubset(os);
      SubsetDecides(r.Contents(), os.Contents(), r.eq);
    }
  }
}
