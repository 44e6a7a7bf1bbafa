/** Lists of the emitted runtime (src/codegen.rs): a count and a backing array with spare
    capacity.  Every method is tied to the sequence the list stands for, across growth,
    overlapping copies and aliasing. */
module RuntimeLists {
  import opened Syntax
  import opened DistinctItems

  const MAX_I32: nat := 0x7fff_ffff

  // ------------------------------------------------------ the sequence operations

  /** Python's clamping of an insertion point. */
  function Clamp(i: int, n: nat): nat {
    if i < 0 then (if i + n < 0 then 0 else i + n) else if i > n then n else i
  }

  function InsertedAt<T>(s: seq<T>, i: int, x: T): seq<T> {
    s[..Clamp(i, |s|)] + [x] + s[Clamp(i, |s|)..]
  }

  /** The position a subscript names, if it is in range. */
  function Position(i: int, n: nat): Option<nat> {
    var k := if i < 0 then i + n else i;
    if 0 <= k < n then Some(k) else None
  }

  function Reversed<T>(s: seq<T>): seq<T> {
    seq(|s|, i requires 0 <= i < |s| => s[|s| - 1 - i])
  }

  /** Popping where something was inserted undoes the insertion. */
  lemma PopInserted<T>(s: seq<T>, i: int, x: T)
    ensures var r := InsertedAt(s, i, x);
      |r| == |s| + 1 && r[Clamp(i, |s|)] == x && Without(r, Clamp(i, |s|)) == s
  {
    var k, r := Clamp(i, |s|), InsertedAt(s, i, x);
    assert r[..k] == s[..k] && r[k + 1..] == s[k..];
  }

  /** Joining item by item. */
  lemma JoinedStep<T>(a: seq<T>, b: seq<T>, i: nat)
    requires i < |b|
    ensures (a + b[..i]) + [b[i]] == a + b[..i + 1] && a + b[..i] <= a + b
    ensures a == b ==> (a + b[..i])[i] == b[i]
  {
    assert b == b[..i] + b[i..];
  }

  // ---------------------------------------------------------------- capacities

  /** The capacity growth leads to before the next array could not be allocated. */
  function Ceiling(cap: nat): nat
    decreases MAX_I32 - cap
  {
    if (cap + 4) * 2 > MAX_I32 then cap else Ceiling((cap + 4) * 2)
  }

  /** Over a thousand million items fit any list. */
  lemma {:induction false} CeilingBound(cap: nat)
    ensures Ceiling(cap) >= cap && Ceiling(cap) > MAX_I32 / 2 - 4
    ensures cap <= MAX_I32 ==> Ceiling(cap) <= MAX_I32
    ensures (cap + 4) * 2 <= MAX_I32 <==> cap < Ceiling(cap)
    decreases MAX_I32 - cap
  {
    if (cap + 4) * 2 <= MAX_I32 { CeilingBound((cap + 4) * 2); }
  }

  // ---------------------------------------------------------------- the list

  class PyList<T(0)> {
    var len: nat
    var items: array<T>

    ghost predicate Valid() reads this { len <= items.Length }

    ghost function Contents(): seq<T>
      requires Valid()
      reads this, items
    {
      items[..len]
    }

    constructor ()
      ensures Valid() && Contents() == [] && Limit() == Ceiling(0) && fresh(items)
    {
      len := 0;
      items := new T[0];
    }

    /** Growth by the runtime's rule; an array over the 32-bit limit cannot be allocated. */
    method Grow() returns (ok: bool)
      requires Valid()
      modifies this`items
      ensures Valid() && items[..len] == old(items[..len])
      ensures ok <==> (old(items.Length) + 4) * 2 <= MAX_I32
      ensures if ok then fresh(items) && items.Length == (old(items.Length) + 4) * 2 else items == old(items)
      ensures Limit() == old(Limit())
    {
      var cap := (items.Length + 4) * 2;
      if cap > MAX_I32 { return false; }
      var bigger := new T[cap];
      forall k | 0 <= k < len { bigger[k] := items[k]; }
      items := bigger;
      ok := true;
    }

    /** How many items the list can ever hold; growing does not change it. */
    ghost function Limit(): nat reads this { Ceiling(items.Length) }

    method Append(x: T) returns (ok: bool)
      requires Valid()
      modifies this, items
      ensures Valid() && (items == old(items) || fresh(items)) && Limit() == old(Limit())
      ensures ok <==> old(len < Limit())
      ensures Contents() == if ok then old(Contents()) + [x] else old(Contents())
    {
      CeilingBound(items.Length);
      if len >= items.Length {
        ok := Grow();
        if !ok { return; }
      }
      items[len] := x;
      len := len + 1;
      ok := true;
    }

    /** Shifts the tail from `from` by copying it onto itself, as one overlapping copy. */
    method Move(to: nat, from: nat, n: nat)
      requires to + n <= items.Length && from + n <= items.Length
      modifies items
      ensures items[to..to + n] == old(items[from..from + n])
      ensures items[..to] == old(items[..to]) && items[to + n..] == old(items[to + n..])
    {
      forall k | 0 <= k < n { items[to + k] := items[from + k]; }
    }

    method Insert(i: int, x: T) returns (ok: bool)
      requires Valid()
      modifies this, items
      ensures Valid() && (items == old(items) || fresh(items)) && Limit() == old(Limit())
      ensures ok <==> old(len < Limit())
      ensures Contents() == if ok then InsertedAt(old(Contents()), i, x) else old(Contents())
    {
      hide Ceiling;
      var n := len;
      var idx := i;
      if idx < 0 {
        idx := idx + n;
        if idx < 0 { idx := 0; }
      }
      if idx > n { idx := n; }
      CeilingBound(items.Length);
      if n >= items.Length {
        ok := Grow();
        if !ok { return; }
      }
      PutAt(idx, x);
      ok := true;
    }

    /** Shifts the tail right by one and fills the gap. */
    method PutAt(idx: nat, x: T)
      requires Valid() && idx <= len < items.Length
      modifies this`len, items
      ensures Valid() && Contents() == old(items[..idx]) + [x] + old(items[idx..len])
    {
      ghost var was := items[..len];
      Move(idx + 1, idx, len - idx);
      assert items[..idx] == was[..idx] && items[idx + 1..len + 1] == was[idx..];
      items[idx] := x;
      len := len + 1;
      assert Contents() == items[..idx] + [items[idx]] + items[idx + 1..len];
    }

    method RemoveAt(k: nat)
      requires Valid() && k < len
      modifies this, items
      ensures Valid() && items == old(items) && Contents() == Without(old(Contents()), k)
    {
      var n := len;
      Move(k, k + 1, n - k - 1);
      len := n - 1;
      assert Contents() == items[..k] + items[k..n - 1];
    }

    /** `pop()` and `pop(i)`; out of range raises and changes nothing. */
    method Pop(arg: Option<int>) returns (r: Option<T>)
      requires Valid()
      modifies this, items
      ensures Valid() && items == old(items)
      ensures var at := Position(if arg.Some? then arg.value else (old(len) as int) - 1, old(len));
        if at.None? then r == None && Contents() == old(Contents())
        else r == Some(old(Contents())[at.value]) && Contents() == Without(old(Contents()), at.value)
    {
      var n := len;
      var k: int := if arg.Some? then arg.value else (n as int) - 1;
      if k < 0 { k := k + n; }
      if k < 0 || k >= n { return None; }
      r := Some(items[k]);
      RemoveAt(k);
    }

    /** Swaps inwards from both ends; the spare capacity stays as it is. */
    method Reverse()
      requires Valid()
      modifies items
      ensures Contents() == Reversed(old(Contents())) && items[len..] == old(items[len..])
    {
      var lo, hi := 0, len - 1;
      while lo < hi
        invariant 0 <= lo && hi == len - 1 - lo && lo <= hi + 2
        invariant forall k :: 0 <= k < lo ==> items[k] == old(items[len - 1 - k]) && items[len - 1 - k] == old(items[k])
        invariant forall k :: lo <= k <= hi ==> items[k] == old(items[k])
        invariant items[len..] == old(items[len..])
      {
        var key := items[lo];
        items[lo] := items[hi];
        items[hi] := key;
        lo := lo + 1;
        hi := hi - 1;
      }
      ghost var was := old(Contents());
      forall k | 0 <= k < len ensures Contents()[k] == Reversed(was)[k] {
        if k > hi && k >= lo { assert items[len - 1 - (len - 1 - k)] == was[len - 1 - k]; }
      }
    }

    /** Appends the items another list held at the start; the other may be this one.  What
        does not fit is left off. */
    method Extend(it: PyList<T>) returns (ok: bool)
      requires Valid() && it.Valid() && (it == this || it.items != items)
      modifies this, items
      ensures Valid() && (items == old(items) || fresh(items)) && Limit() == old(Limit())
      ensures ok <==> old(len + it.len <= Limit())
      ensures ok ==> Contents() == old(Contents()) + old(it.Contents())
      ensures !ok ==> |Contents()| == Limit() && Contents() <= old(Contents()) + old(it.Contents())
      ensures it != this ==> it.Valid() && it.Contents() == old(it.Contents())
    {
      hide Ceiling;
      CeilingBound(items.Length);
      var n := it.len;
      var i := 0;
      ghost var mine, theirs := Contents(), it.Contents();
      while i < n
        invariant 0 <= i <= n == |theirs| && Valid() && it.Valid() && n <= it.len
        invariant len <= Limit() == old(Limit())
        invariant items == old(items) || fresh(items)
        invariant Contents() == mine + theirs[..i]
        invariant it != this ==> it.items == old(it.items) && it.Contents() == theirs && it.items != items
      {
        JoinedStep(mine, theirs, i);
        assert it.items[i] == theirs[i];
        ok := Append(it.items[i]);
        if !ok { return; }
        i := i + 1;
      }
      assert theirs[..i] == theirs;
      ok := true;
    }
  }

  /** `xs.extend(xs)` ends, with the list doubled, if twice its items fit. */
  method ExtendSelf<T(0)>(xs: PyList<T>) returns (ok: bool)
    requires xs.Valid()
    modifies xs, xs.items
    ensures xs.Valid() && (ok <==> 2 * old(xs.len) <= old(xs.Limit()))
    ensures ok ==> xs.Contents() == old(xs.Contents()) + old(xs.Contents())
    ensures !ok ==> |xs.Contents()| == xs.Limit() && xs.Contents() <= old(xs.Contents()) + old(xs.Contents())
  {
    ok := xs.Extend(xs);
  }
}
