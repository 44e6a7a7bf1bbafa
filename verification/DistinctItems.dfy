/** Sequences without repetition under the runtime's `==`: what sets and the keys of dicts
    are made of, and the counting argument behind their one-sided equality scans. */
module DistinctItems {
  ghost predicate Equivalence<T(!new)>(eq: (T, T) -> bool) {
    && (forall a :: eq(a, a))
    && (forall a, b :: eq(a, b) ==> eq(b, a))
    && (forall a, b, c :: eq(a, b) && eq(b, c) ==> eq(a, c))
  }

  /** Some item equals `x`. */
  predicate Has<T>(s: seq<T>, x: T, eq: (T, T) -> bool) {
    exists i :: 0 <= i < |s| && eq(s[i], x)
  }

  predicate Distinct<T>(s: seq<T>, eq: (T, T) -> bool) {
    forall i, j :: 0 <= i < j < |s| ==> !eq(s[i], s[j])
  }

  predicate AllIn<T>(a: seq<T>, b: seq<T>, eq: (T, T) -> bool) {
    forall i :: 0 <= i < |a| ==> Has(b, a[i], eq)
  }

  /** The same items, whatever their order. */
  ghost predicate SameItems<T(!new)>(a: seq<T>, b: seq<T>, eq: (T, T) -> bool) {
    forall x :: Has(a, x, eq) <==> Has(b, x, eq)
  }

  /** Everything but position `k`. */
  function Without<T>(s: seq<T>, k: nat): seq<T>
    requires k < |s|
  {
    s[..k] + s[k + 1..]
  }

  lemma WithoutAt<T>(s: seq<T>, k: nat, i: nat)
    requires k < |s| && i < |s| - 1
    ensures Without(s, k)[i] == if i < k then s[i] else s[i + 1]
  {
  }

  lemma HasEqual<T(!new)>(s: seq<T>, x: T, y: T, eq: (T, T) -> bool)
    requires Equivalence(eq) && eq(x, y)
    ensures Has(s, x, eq) <==> Has(s, y, eq)
  {
    if Has(s, x, eq) { var i :| 0 <= i < |s| && eq(s[i], x); assert eq(s[i], y); }
    if Has(s, y, eq) { var i :| 0 <= i < |s| && eq(s[i], y); assert eq(s[i], x); }
  }

  lemma Alike<T(!new)>(p: T, q: T, x: T, eq: (T, T) -> bool)
    requires Equivalence(eq) && eq(p, q)
    ensures eq(p, x) == eq(q, x) == eq(x, q) == eq(x, p)
  {
  }

  lemma DistinctAt<T(!new)>(s: seq<T>, i: nat, j: nat, x: T, eq: (T, T) -> bool)
    requires Equivalence(eq) && Distinct(s, eq) && i < |s| && j < |s| && i != j && eq(s[i], x)
    ensures !eq(s[j], x)
  {
    Alike(s[i], x, s[j], eq);
    if i < j { assert !eq(s[i], s[j]); } else { assert !eq(s[j], s[i]); }
  }

  /** Removing an item removes exactly what equals it. */
  lemma WithoutHas<T(!new)>(s: seq<T>, k: nat, x: T, eq: (T, T) -> bool)
    requires Equivalence(eq) && Distinct(s, eq) && k < |s|
    ensures Distinct(Without(s, k), eq)
    ensures Has(Without(s, k), x, eq) <==> Has(s, x, eq) && !eq(s[k], x)
  {
    hide Equivalence;
    var r := Without(s, k);
    if Has(r, x, eq) {
      var i :| 0 <= i < |r| && eq(r[i], x);
      WithoutAt(s, k, i);
      DistinctAt(s, if i < k then i else i + 1, k, x, eq);
    }
    if Has(s, x, eq) && !eq(s[k], x) {
      var i :| 0 <= i < |s| && eq(s[i], x);
      assert r[if i < k then i else i - 1] == s[i];
    }
  }

  lemma ButLastHas<T>(s: seq<T>, x: T, eq: (T, T) -> bool)
    requires s != []
    ensures Has(s, x, eq) <==> Has(s[..|s| - 1], x, eq) || eq(s[|s| - 1], x)
  {
    var init := s[..|s| - 1];
    if Has(s, x, eq) && !eq(s[|s| - 1], x) {
      var i :| 0 <= i < |s| && eq(s[i], x);
      assert init[i] == s[i];
    }
    if Has(init, x, eq) { var i :| 0 <= i < |init| && eq(init[i], x); assert s[i] == init[i]; }
  }

  /** Distinct items that all occur in `b` are at most as many as `b` has; when they are as
      many, everything in `b` occurs among them. */
  lemma {:induction false} Counting<T(!new)>(a: seq<T>, b: seq<T>, eq: (T, T) -> bool)
    requires Equivalence(eq) && Distinct(a, eq) && Distinct(b, eq) && AllIn(a, b, eq)
    ensures |a| <= |b|
    ensures |a| == |b| ==> AllIn(b, a, eq)
    decreases |a|
  {
    if a != [] {
      var init, last := a[..|a| - 1], a[|a| - 1];
      assert Distinct(init, eq);
      hide Equivalence, Distinct, Has;
      assert Has(b, last, eq);
      var k := Match(b, last, eq);
      var rest := Without(b, k);
      WithoutHas(b, k, last, eq);
      forall i | 0 <= i < |init| ensures Has(rest, init[i], eq) { RestHas(a, b, k, i, eq); }
      Counting(init, rest, eq);
      if |a| == |b| {
        forall i | 0 <= i < |b| ensures Has(a, b[i], eq) { AllCounted(a, b, k, i, eq); }
      }
    }
  }

  lemma Match<T>(b: seq<T>, x: T, eq: (T, T) -> bool) returns (k: nat)
    requires Has(b, x, eq)
    ensures k < |b| && eq(b[k], x)
  {
    k :| k < |b| && eq(b[k], x);
  }

  lemma RestHas<T(!new)>(a: seq<T>, b: seq<T>, k: nat, i: nat, eq: (T, T) -> bool)
    requires Equivalence(eq) && Distinct(a, eq) && Distinct(b, eq) && k < |b| && i < |a| - 1
    requires eq(b[k], a[|a| - 1]) && Has(b, a[i], eq)
    ensures Has(Without(b, k), a[i], eq)
  {
    WithoutHas(b, k, a[i], eq);
    DistinctAt(a, i, |a| - 1, a[i], eq);
    Alike(b[k], a[|a| - 1], a[i], eq);
  }

  lemma AllCounted<T(!new)>(a: seq<T>, b: seq<T>, k: nat, i: nat, eq: (T, T) -> bool)
    requires Equivalence(eq) && a != [] && k < |b| && i < |b| && eq(b[k], a[|a| - 1]) && AllIn(Without(b, k), a[..|a| - 1], eq)
    ensures Has(a, b[i], eq)
  {
    ButLastHas(a, b[i], eq);
    if i == k {
      assert eq(a[|a| - 1], b[k]);
    } else {
      var m := if i < k then i else i - 1;
      WithoutAt(b, k, m);
      assert Has(a[..|a| - 1], Without(b, k)[m], eq);
    }
  }

  /** Hence the one-sided scan decides equality of sets. */
  lemma ScanDecides<T(!new)>(a: seq<T>, b: seq<T>, eq: (T, T) -> bool)
    requires Equivalence(eq) && Distinct(a, eq) && Distinct(b, eq)
    ensures SameItems(a, b, eq) <==> |a| == |b| && AllIn(a, b, eq)
  {
    if |a| == |b| && AllIn(a, b, eq) {
      Counting(a, b, eq);
      forall x ensures Has(a, x, eq) <==> Has(b, x, eq) {
        if Has(a, x, eq) { AllInHas(a, b, x, eq); }
        if Has(b, x, eq) { AllInHas(b, a, x, eq); }
      }
    }
    if SameItems(a, b, eq) {
      forall i | 0 <= i < |a| ensures Has(b, a[i], eq) { assert eq(a[i], a[i]); assert Has(a, a[i], eq); }
      forall i | 0 <= i < |b| ensures Has(a, b[i], eq) { assert eq(b[i], b[i]); assert Has(b, b[i], eq); }
      Counting(a, b, eq);
      Counting(b, a, eq);
    }
  }

  lemma AllInHas<T(!new)>(a: seq<T>, b: seq<T>, x: T, eq: (T, T) -> bool)
    requires Equivalence(eq) && AllIn(a, b, eq) && Has(a, x, eq)
    ensures Has(b, x, eq)
  {
    var i :| 0 <= i < |a| && eq(a[i], x);
    HasEqual(b, a[i], x, eq);
  }

  /** The subset test, in terms of membership. */
  lemma SubsetDecides<T(!new)>(a: seq<T>, b: seq<T>, eq: (T, T) -> bool)
    requires Equivalence(eq)
    ensures AllIn(a, b, eq) <==> forall x :: Has(a, x, eq) ==> Has(b, x, eq)
  {
    if AllIn(a, b, eq) {
      forall x | Has(a, x, eq) ensures Has(b, x, eq) { AllInHas(a, b, x, eq); }
    }
    if forall x :: Has(a, x, eq) ==> Has(b, x, eq) {
      forall i | 0 <= i < |a| ensures Has(b, a[i], eq) { assert eq(a[i], a[i]); assert Has(a, a[i], eq); }
    }
  }

  // ------------------------------------------------------------ adding items

  function Added<T>(s: seq<T>, x: T, eq: (T, T) -> bool): seq<T> {
    if Has(s, x, eq) then s else s + [x]
  }

  function AddedAll<T>(s: seq<T>, xs: seq<T>, eq: (T, T) -> bool): seq<T> {
    if xs == [] then s else Added(AddedAll(s, xs[..|xs| - 1], eq), xs[|xs| - 1], eq)
  }

  lemma AddedHas<T(!new)>(s: seq<T>, v: T, x: T, eq: (T, T) -> bool)
    requires Equivalence(eq) && Distinct(s, eq)
    ensures Distinct(Added(s, v, eq), eq)
    ensures Has(Added(s, v, eq), x, eq) <==> Has(s, x, eq) || eq(v, x)
  {
    if Has(s, v, eq) {
      if eq(v, x) { HasEqual(s, v, x, eq); }
    } else {
      var r := s + [v];
      ButLastHas(r, x, eq);
      assert r[..|s|] == s;
    }
  }

  /** Union: exactly the items of both, each once. */
  lemma {:induction false} AddedAllHas<T(!new)>(s: seq<T>, xs: seq<T>, x: T, eq: (T, T) -> bool)
    requires Equivalence(eq) && Distinct(s, eq)
    ensures Distinct(AddedAll(s, xs, eq), eq)
    ensures Has(AddedAll(s, xs, eq), x, eq) <==> Has(s, x, eq) || Has(xs, x, eq)
    decreases |xs|
  {
    hide Distinct, Added, Equivalence;
    if xs != [] {
      AddedAllHas(s, xs[..|xs| - 1], x, eq);
      AddedHas(AddedAll(s, xs[..|xs| - 1], eq), xs[|xs| - 1], x, eq);
      ButLastHas(xs, x, eq);
    }
  }

  /** The items of `xs` that occur (`want`) or do not occur in `other`. */
  function Filtered<T>(xs: seq<T>, other: seq<T>, want: bool, eq: (T, T) -> bool): seq<T> {
    if xs == [] then []
    else
      var rest := Filtered(xs[..|xs| - 1], other, want, eq);
      if Has(other, xs[|xs| - 1], eq) == want then rest + [xs[|xs| - 1]] else rest
  }

  lemma {:induction false} FilteredHas<T(!new)>(xs: seq<T>, other: seq<T>, want: bool, x: T, eq: (T, T) -> bool)
    requires Equivalence(eq)
    ensures Has(Filtered(xs, other, want, eq), x, eq) <==> Has(xs, x, eq) && Has(other, x, eq) == want
    decreases |xs|
  {
    if xs != [] {
      var init, last := xs[..|xs| - 1], xs[|xs| - 1];
      FilteredHas(init, other, want, x, eq);
      ButLastHas(xs, x, eq);
      if eq(last, x) { HasEqual(other, last, x, eq); }
      if Has(other, last, eq) == want {
        var r := Filtered(xs, other, want, eq);
        ButLastHas(r, x, eq);
        assert r[..|r| - 1] == Filtered(init, other, want, eq);
      }
    }
  }
}
