/** The sorts of the emitted runtime (src/codegen.rs): insertion sorts, in both directions,
    in place, into a copy, and by key. */
module StableSorts {
  // ------------------------------------------------------------ the orders

  /** What `$sort_lt` has to be: a strict weak order. */
  ghost predicate StrictWeak<T(!new)>(less: (T, T) -> bool) {
    && (forall a :: !less(a, a))
    && (forall a, b, c :: less(a, b) && less(b, c) ==> less(a, c))
    && (forall a, b, c :: less(a, c) ==> less(a, b) || less(b, c))
  }

  /** `reverse=True` swaps the operands of the comparison. */
  function Directed<T>(lt: (T, T) -> bool, rev: bool): (T, T) -> bool {
    if rev then (a, b) => lt(b, a) else lt
  }

  lemma DirectedWeak<T(!new)>(lt: (T, T) -> bool, rev: bool)
    requires StrictWeak(lt)
    ensures StrictWeak(Directed(lt, rev))
  {
  }

  // ----------------------------------------------------------- the function

  /** Inserting before the trailing items that are larger. */
  function Insert<T>(s: seq<T>, x: T, less: (T, T) -> bool): seq<T> {
    if s != [] && less(x, s[|s| - 1]) then Insert(s[..|s| - 1], x, less) + [s[|s| - 1]] else s + [x]
  }

  function Sort<T>(s: seq<T>, less: (T, T) -> bool): seq<T> {
    if s == [] then [] else Insert(Sort(s[..|s| - 1], less), s[|s| - 1], less)
  }

  lemma {:induction false} InsertLength<T>(s: seq<T>, x: T, less: (T, T) -> bool)
    ensures |Insert(s, x, less)| == |s| + 1
    decreases |s|
  {
    if s != [] && less(x, s[|s| - 1]) { InsertLength(s[..|s| - 1], x, less); }
  }

  lemma {:induction false} SortLength<T>(s: seq<T>, less: (T, T) -> bool)
    ensures |Sort(s, less)| == |s|
    decreases |s|
  {
    if s != [] {
      SortLength(s[..|s| - 1], less);
      InsertLength(Sort(s[..|s| - 1], less), s[|s| - 1], less);
    }
  }

  // ------------------------------------------------------- what a stable sort is

  /** Position `i` of `s` belongs before position `j`: a smaller item, or an equal one that
      came first. */
  predicate Before<T>(s: seq<T>, less: (T, T) -> bool, i: nat, j: nat)
    requires i < |s| && j < |s|
  {
    less(s[i], s[j]) || (!less(s[j], s[i]) && i < j)
  }

  /** `p` lists the positions of `s`, each once, in that order. */
  ghost predicate StableOrder<T>(s: seq<T>, less: (T, T) -> bool, p: seq<nat>) {
    (forall i :: i in p <==> 0 <= i < |s|) && Ordered(s, less, p)
  }

  predicate Within(p: seq<nat>, n: nat) { forall k :: 0 <= k < |p| ==> p[k] < n }

  function Pick<T>(s: seq<T>, p: seq<nat>): seq<T>
    requires Within(p, |s|)
  {
    seq(|p|, k requires 0 <= k < |p| => s[p[k]])
  }

  /** The positions themselves, inserted one by one. */
  function InsertPosition<T>(s: seq<T>, p: seq<nat>, x: nat, less: (T, T) -> bool): (r: seq<nat>)
    requires x < |s| && Within(p, |s|)
    ensures Within(r, |s|) && forall i :: i in r <==> i in p || i == x
  {
    if p != [] && less(s[x], s[p[|p| - 1]]) then
      var init, last := p[..|p| - 1], p[|p| - 1];
      assert p == init + [last];
      InsertPosition(s, init, x, less) + [last]
    else p + [x]
  }

  function Positions<T>(s: seq<T>, n: nat, less: (T, T) -> bool): (p: seq<nat>)
    requires n <= |s|
    ensures Within(p, |s|) && forall i :: i in p <==> 0 <= i < n
  {
    if n == 0 then [] else InsertPosition(s, Positions(s, n - 1, less), n - 1, less)
  }

  ghost predicate Ordered<T>(s: seq<T>, less: (T, T) -> bool, p: seq<nat>) {
    && Within(p, |s|)
    && (forall i, j :: 0 <= i < j < |p| ==> Before(s, less, p[i], p[j]))
  }

  lemma {:induction false} InsertOrdered<T(!new)>(s: seq<T>, p: seq<nat>, x: nat, less: (T, T) -> bool)
    requires StrictWeak(less) && x < |s| && Ordered(s, less, p) && Within(p, x)
    ensures Ordered(s, less, InsertPosition(s, p, x, less))
    decreases |p|
  {
    var r := InsertPosition(s, p, x, less);
    if p != [] && less(s[x], s[p[|p| - 1]]) {
      var init, last := p[..|p| - 1], p[|p| - 1];
      assert p == init + [last];
      InsertOrdered(s, init, x, less);
      var q := InsertPosition(s, init, x, less);
      forall i | 0 <= i < |q| ensures Before(s, less, q[i], last) {
        assert q[i] in q;
        if q[i] != x { var m :| 0 <= m < |init| && init[m] == q[i]; assert p[m] == q[i]; }
      }
    } else {
      forall i | 0 <= i < |p| ensures Before(s, less, p[i], x) {
        assert p[i] in p;
        if i < |p| - 1 { assert Before(s, less, p[i], p[|p| - 1]); }
      }
    }
  }

  lemma {:induction false} PickInsert<T>(s: seq<T>, p: seq<nat>, x: nat, less: (T, T) -> bool)
    requires x < |s| && Within(p, |s|)
    ensures Pick(s, InsertPosition(s, p, x, less)) == Insert(Pick(s, p), s[x], less)
    decreases |p|
  {
    if p != [] {
      var init, last := p[..|p| - 1], p[|p| - 1];
      assert p == init + [last];
      assert Pick(s, p) == Pick(s, init) + [s[last]];
      assert Pick(s, p)[..|p| - 1] == Pick(s, init);
      if less(s[x], s[last]) {
        PickInsert(s, init, x, less);
        var q := InsertPosition(s, init, x, less);
        assert Pick(s, q + [last]) == Pick(s, q) + [s[last]];
      }
    }
  }

  lemma {:induction false} PositionsOrdered<T(!new)>(s: seq<T>, n: nat, less: (T, T) -> bool)
    requires StrictWeak(less) && n <= |s|
    ensures Ordered(s, less, Positions(s, n, less))
    decreases n
  {
    if n > 0 {
      hide StrictWeak, Ordered, InsertPosition;
      PositionsOrdered(s, n - 1, less);
      var p := Positions(s, n - 1, less);
      forall k | 0 <= k < |p| ensures p[k] < n - 1 { assert p[k] in p; }
      InsertOrdered(s, p, n - 1, less);
    }
  }

  lemma {:induction false} PickPositions<T>(s: seq<T>, n: nat, less: (T, T) -> bool)
    requires n <= |s|
    ensures Pick(s, Positions(s, n, less)) == Sort(s[..n], less)
    decreases n
  {
    if n > 0 {
      hide Pick, InsertPosition, Insert;
      PickPositions(s, n - 1, less);
      PickInsert(s, Positions(s, n - 1, less), n - 1, less);
      assert s[..n][..n - 1] == s[..n - 1];
    }
  }

  /** The insertion sort is a stable sort: a permutation, ordered, equal items in their
      original order. */
  lemma SortIsStable<T(!new)>(s: seq<T>, less: (T, T) -> bool)
    requires StrictWeak(less)
    ensures StableOrder(s, less, Positions(s, |s|, less))
    ensures Sort(s, less) == Pick(s, Positions(s, |s|, less))
  {
    PositionsOrdered(s, |s|, less);
    PickPositions(s, |s|, less);
    assert s[..|s|] == s;
  }

  /** There is only one: any stable order of the positions is the sort's. */
  lemma {:induction false} OneStableOrder<T(!new)>(s: seq<T>, less: (T, T) -> bool, p: seq<nat>, q: seq<nat>)
    requires StrictWeak(less) && Ordered(s, less, p) && Ordered(s, less, q) && forall i :: i in p <==> i in q
    ensures p == q
    decreases |p|
  {
    hide StrictWeak, Ordered;
    assert (q != [] ==> q[0] in p) && (p != [] ==> p[0] in q);
    if p != [] {
      SameLast(s, less, p, q);
      ButLast(s, less, p);
      ButLast(s, less, q);
      var p0, q0 := p[..|p| - 1], q[..|q| - 1];
      forall i ensures i in p0 <==> i in q0 { assert i in p <==> i in q; }
      OneStableOrder(s, less, p0, q0);
      assert p == p[..|p| - 1] + [p[|p| - 1]] && q == q[..|q| - 1] + [q[|q| - 1]];
    }
  }

  lemma ButLast<T(!new)>(s: seq<T>, less: (T, T) -> bool, p: seq<nat>)
    requires StrictWeak(less) && Ordered(s, less, p) && p != []
    ensures Ordered(s, less, p[..|p| - 1])
    ensures forall i :: i in p[..|p| - 1] <==> i in p && i != p[|p| - 1]
  {
    var last := p[|p| - 1];
    assert p == p[..|p| - 1] + [last];
    forall i | 0 <= i < |p| - 1 ensures p[i] != last {
      assert Before(s, less, p[i], last) && !Before(s, less, last, last);
    }
  }

  lemma SameLast<T(!new)>(s: seq<T>, less: (T, T) -> bool, p: seq<nat>, q: seq<nat>)
    requires StrictWeak(less) && Ordered(s, less, p) && Ordered(s, less, q) && forall i :: i in p <==> i in q
    requires p != [] && q != []
    ensures p[|p| - 1] == q[|q| - 1]
  {
    var a, b := p[|p| - 1], q[|q| - 1];
    assert a in q && b in p;
    var i :| 0 <= i < |q| && q[i] == a;
    var j :| 0 <= j < |p| && p[j] == b;
    assert a == b || Before(s, less, a, b);
    assert a == b || Before(s, less, b, a);
    NotBoth(less, s[a], s[b]);
  }

  lemma NotBoth<T(!new)>(less: (T, T) -> bool, x: T, y: T)
    requires StrictWeak(less)
    ensures !(less(x, y) && less(y, x))
  {
  }

  /** So every stable order yields what `Sort` yields. */
  lemma SortUnique<T(!new)>(s: seq<T>, less: (T, T) -> bool, p: seq<nat>)
    requires StrictWeak(less) && StableOrder(s, less, p)
    ensures Pick(s, p) == Sort(s, less)
  {
    SortIsStable(s, less);
    OneStableOrder(s, less, p, Positions(s, |s|, less));
  }

  /** `a` may stand before `b`: smaller, or larger in reverse. */
  predicate InDirection<T>(lt: (T, T) -> bool, rev: bool, a: T, b: T) { if rev then lt(b, a) else lt(a, b) }

  /** Either way the items are in order, and equal ones in their original order: sorting in
      reverse is not sorting and then reversing. */
  lemma SortedEitherWay<T(!new)>(s: seq<T>, lt: (T, T) -> bool, rev: bool) returns (p: seq<nat>)
    requires StrictWeak(lt)
    ensures forall i :: i in p <==> 0 <= i < |s|
    ensures Within(p, |s|) && Sort(s, Directed(lt, rev)) == Pick(s, p)
    ensures forall i, k :: 0 <= i < k < |p| ==>
              || InDirection(lt, rev, s[p[i]], s[p[k]])
              || (!InDirection(lt, rev, s[p[k]], s[p[i]]) && p[i] < p[k])
  {
    var less := Directed(lt, rev);
    DirectedWeak(lt, rev);
    SortIsStable(s, less);
    p := Positions(s, |s|, less);
    forall i, k | 0 <= i < k < |p|
      ensures InDirection(lt, rev, s[p[i]], s[p[k]]) || (!InDirection(lt, rev, s[p[k]], s[p[i]]) && p[i] < p[k])
    {
      assert Before(s, less, p[i], p[k]);
    }
  }

  // ------------------------------------------------------------ the loops

  /** Where an item lands: behind all it is not smaller than. */
  lemma {:induction false} InsertLands<T>(s: seq<T>, k: nat, x: T, less: (T, T) -> bool)
    requires k <= |s| && (forall i :: k <= i < |s| ==> less(x, s[i])) && (k > 0 ==> !less(x, s[k - 1]))
    ensures Insert(s, x, less) == s[..k] + [x] + s[k..]
    decreases |s|
  {
    if k < |s| {
      var init := s[..|s| - 1];
      InsertLands(init, k, x, less);
      assert init[..k] == s[..k] && init[k..] + [s[|s| - 1]] == s[k..];
    } else {
      assert s[..k] == s && s[k..] == [];
    }
  }

  /** The inner loop of all three sorts: shifts larger items right and drops the key in. */
  method Sink<T>(a: array<T>, i: nat, less: (T, T) -> bool)
    requires i < a.Length
    modifies a
    ensures a[..i + 1] == Insert(old(a[..i]), old(a[i]), less)
    ensures a[i + 1..] == old(a[i + 1..])
  {
    ghost var s := a[..];
    var key := a[i];
    var j: int := i - 1;
    while j >= 0 && less(key, a[j])
      invariant -1 <= j < i
      invariant forall k :: 0 <= k <= j ==> a[k] == s[k]
      invariant forall k :: j + 2 <= k <= i ==> a[k] == s[k - 1]
      invariant forall k :: i < k < a.Length ==> a[k] == s[k]
      invariant forall k :: j + 1 <= k < i ==> less(key, s[k])
    {
      a[j + 1] := a[j];
      j := j - 1;
    }
    a[j + 1] := key;
    Dropped(s, a[..], i, j + 1, less);
  }

  /** The shifted items with the key dropped in. */
  lemma Dropped<T>(s: seq<T>, t: seq<T>, i: nat, k: nat, less: (T, T) -> bool)
    requires k <= i < |s| == |t| && t[k] == s[i]
    requires forall m :: 0 <= m < k ==> t[m] == s[m]
    requires forall m :: k < m <= i ==> t[m] == s[m - 1]
    requires forall m :: i < m < |s| ==> t[m] == s[m]
    requires (forall m :: k <= m < i ==> less(s[i], s[m])) && (k > 0 ==> !less(s[i], s[k - 1]))
    ensures t[..i + 1] == Insert(s[..i], s[i], less) && t[i + 1..] == s[i + 1..]
  {
    InsertLands(s[..i], k, s[i], less);
    assert t[..i + 1] == s[..i][..k] + [s[i]] + s[..i][k..];
  }

  /** `$list_sort` and the body of `$py_sorted`: the first `n` items, in place; the spare
      capacity behind them is left alone. */
  method SortInPlace<T>(a: array<T>, n: nat, less: (T, T) -> bool)
    requires n <= a.Length
    modifies a
    ensures a[..n] == Sort(old(a[..n]), less) && a[n..] == old(a[n..])
  {
    ghost var s := a[..];
    var i := 1;
    if n <= 1 {
      assert a[..n] == Sort(a[..n], less);
      return;
    }
    assert a[..1] == Sort(s[..1], less);
    while i < n
      invariant 1 <= i <= n
      invariant a[..i] == Sort(s[..i], less) && a[i..] == s[i..]
    {
      Sink(a, i, less);
      assert s[..i + 1][..i] == s[..i] && s[..i + 1][i] == s[i..][0] && a[i + 1..] == s[i..][1..];
      i := i + 1;
    }
  }

  /** `$py_sorted`: a sorted copy. */
  method Sorted<T(0)>(xs: seq<T>, lt: (T, T) -> bool, rev: bool) returns (a: array<T>)
    ensures fresh(a) && a[..] == Sort(xs, Directed(lt, rev))
  {
    var n := |xs|;
    a := new T[n];
    var i := 0;
    while i < n
      invariant 0 <= i <= n && a[..i] == xs[..i]
    {
      a[i] := xs[i];
      i := i + 1;
    }
    assert a[..n] == xs;
    SortInPlace(a, n, Directed(lt, rev));
    assert a[..] == a[..n];
  }

  // ------------------------------------------------------------ sorting by key

  /** Pairs compare by their first half. */
  function ByFirst<K, T>(lt: (K, K) -> bool): ((K, T), (K, T)) -> bool {
    (a: (K, T), b: (K, T)) => lt(a.0, b.0)
  }

  function ByKey<K, T>(lt: (K, K) -> bool, key: T -> K): (T, T) -> bool {
    (a, b) => lt(key(a), key(b))
  }

  function Decorated<K, T>(xs: seq<T>, key: T -> K): seq<(K, T)> {
    seq(|xs|, i requires 0 <= i < |xs| => (key(xs[i]), xs[i]))
  }

  /** `sorted(xs, key=...)`: decorate, sort the pairs, undecorate. */
  method SortedByKey<K(0), T(0)>(xs: seq<T>, lt: (K, K) -> bool, key: T -> K, rev: bool) returns (a: array<T>)
    ensures fresh(a) && a[..] == Sort(xs, Directed(ByKey(lt, key), rev))
  {
    var n := |xs|;
    var pairs := new (K, T)[n];
    var i := 0;
    while i < n
      invariant 0 <= i <= n && pairs[..i] == Decorated(xs, key)[..i]
    {
      pairs[i] := (key(xs[i]), xs[i]);
      i := i + 1;
    }
    assert pairs[..n] == Decorated(xs, key);
    var less := Directed(ByFirst<K, T>(lt), rev);
    SortInPlace(pairs, n, less);
    ghost var sorted := pairs[..n];
    UndecoratedSort(xs, lt, key, rev);
    a := new T[n];
    i := 0;
    while i < n
      invariant 0 <= i <= n && fresh(a) && pairs[..n] == sorted
      invariant forall k :: 0 <= k < i ==> a[k] == sorted[k].1
    {
      a[i] := pairs[i].1;
      i := i + 1;
    }
  }

  lemma {:induction false} UndecoratedInsert<K, T>(s: seq<T>, x: T, lt: (K, K) -> bool, key: T -> K, rev: bool)
    ensures Insert(Decorated(s, key), (key(x), x), Directed(ByFirst(lt), rev))
         == Decorated(Insert(s, x, Directed(ByKey(lt, key), rev)), key)
    decreases |s|
  {
    var d, less := Decorated(s, key), Directed(ByKey(lt, key), rev);
    if s != [] {
      var init, last := s[..|s| - 1], s[|s| - 1];
      assert d[|s| - 1] == (key(last), last) && d[..|s| - 1] == Decorated(init, key);
      if less(x, last) {
        UndecoratedInsert(init, x, lt, key, rev);
        var r := Insert(init, x, less);
        assert Decorated(r + [last], key) == Decorated(r, key) + [(key(last), last)];
      } else {
        assert Decorated(s + [x], key) == d + [(key(x), x)];
      }
    } else {
      assert Decorated([x], key) == [(key(x), x)];
    }
  }

  /** Sorting decorated pairs sorts by key, stably. */
  lemma {:induction false} UndecoratedSort<K, T>(s: seq<T>, lt: (K, K) -> bool, key: T -> K, rev: bool)
    ensures Sort(Decorated(s, key), Directed(ByFirst(lt), rev)) == Decorated(Sort(s, Directed(ByKey(lt, key), rev)), key)
    decreases |s|
  {
    if s != [] {
      var init, last := s[..|s| - 1], s[|s| - 1];
      UndecoratedSort(init, lt, key, rev);
      var d := Decorated(s, key);
      assert d[..|s| - 1] == Decorated(init, key) && d[|s| - 1] == (key(last), last);
      UndecoratedInsert(Sort(init, Directed(ByKey(lt, key), rev)), last, lt, key, rev);
    }
  }

}
