/** Dicts of the emitted runtime (src/codegen.rs): two parallel arrays in insertion order.
    They refine association lists, and those refine finite maps under `==`. */
module RuntimeDicts {
  import opened Syntax
  import opened DistinctItems
  import opened RuntimeLists

  // ------------------------------------------------------ association lists

  function KeysOf<K, V>(e: seq<(K, V)>): seq<K> { seq(|e|, i requires 0 <= i < |e| => e[i].0) }

  predicate WellKeyed<K, V>(e: seq<(K, V)>, eq: (K, K) -> bool) { Distinct(KeysOf(e), eq) }

  /** The value under a key, if any. */
  function Lookup<K, V>(e: seq<(K, V)>, k: K, eq: (K, K) -> bool): Option<V> {
    if e == [] then None
    else if eq(e[|e| - 1].0, k) then Some(e[|e| - 1].1)
    else Lookup(e[..|e| - 1], k, eq)
  }

  /** Assignment: the entry keeps its place and its key, or goes to the end. */
  function Put<K, V>(e: seq<(K, V)>, k: K, v: V, eq: (K, K) -> bool): seq<(K, V)> {
    if Has(KeysOf(e), k, eq) then seq(|e|, i requires 0 <= i < |e| => if eq(e[i].0, k) then (e[i].0, v) else e[i])
    else e + [(k, v)]
  }

  lemma {:induction false} LookupAt<K(!new), V>(e: seq<(K, V)>, i: nat, k: K, eq: (K, K) -> bool)
    requires Equivalence(eq) && WellKeyed(e, eq) && i < |e| && eq(e[i].0, k)
    ensures Lookup(e, k, eq) == Some(e[i].1)
    decreases |e|
  {
    hide Equivalence;
    if i < |e| - 1 {
      var init := e[..|e| - 1];
      assert KeysOf(init) == KeysOf(e)[..|e| - 1];
      DistinctAt(KeysOf(e), i, |e| - 1, k, eq);
      LookupAt(init, i, k, eq);
    }
  }

  lemma {:induction false} LookupSome<K, V>(e: seq<(K, V)>, k: K, eq: (K, K) -> bool)
    ensures Lookup(e, k, eq).Some? <==> Has(KeysOf(e), k, eq)
    decreases |e|
  {
    if e != [] {
      hide Has;
      LookupSome(e[..|e| - 1], k, eq);
      ButLastHas(KeysOf(e), k, eq);
      assert KeysOf(e)[..|e| - 1] == KeysOf(e[..|e| - 1]);
    }
  }

  lemma KeyIndex<K, V>(e: seq<(K, V)>, k: K, eq: (K, K) -> bool) returns (i: nat)
    requires Has(KeysOf(e), k, eq)
    ensures i < |e| && eq(e[i].0, k)
  {
    i :| i < |e| && eq(KeysOf(e)[i], k);
  }

  /** Equal keys find the same entry. */
  lemma LookupAlike<K(!new), V>(e: seq<(K, V)>, j: K, k: K, eq: (K, K) -> bool)
    requires Equivalence(eq) && WellKeyed(e, eq) && eq(j, k)
    ensures Lookup(e, j, eq) == Lookup(e, k, eq)
  {
    LookupSome(e, j, eq);
    LookupSome(e, k, eq);
    HasEqual(KeysOf(e), j, k, eq);
    if Has(KeysOf(e), j, eq) {
      var i := KeyIndex(e, j, eq);
      LookupAt(e, i, j, eq);
      LookupAt(e, i, k, eq);
    }
  }

  lemma PutKeys<K, V>(e: seq<(K, V)>, k: K, v: V, eq: (K, K) -> bool)
    ensures KeysOf(Put(e, k, v, eq)) == Added(KeysOf(e), k, eq)
  {
    hide Has;
    assert KeysOf(e + [(k, v)]) == KeysOf(e) + [k];
  }

  /** `d[k] = v` changes what equals `k`, and nothing else. */
  lemma PutLookup<K(!new), V>(e: seq<(K, V)>, k: K, v: V, j: K, eq: (K, K) -> bool)
    requires Equivalence(eq) && WellKeyed(e, eq)
    ensures WellKeyed(Put(e, k, v, eq), eq)
    ensures Lookup(Put(e, k, v, eq), j, eq) == if eq(k, j) then Some(v) else Lookup(e, j, eq)
  {
    hide Equivalence, Lookup, Put;
    var r := Put(e, k, v, eq);
    PutKeys(e, k, v, eq);
    AddedHas(KeysOf(e), k, j, eq);
    hide WellKeyed;
    LookupSome(r, j, eq);
    LookupSome(e, j, eq);
    if Has(KeysOf(r), j, eq) {
      var i := KeyIndex(r, j, eq);
      LookupAt(r, i, j, eq);
      PutEntry(e, k, v, i, j, eq);
      if !eq(k, j) { LookupAt(e, i, j, eq); }
    }
  }

  lemma PutEntry<K(!new), V>(e: seq<(K, V)>, k: K, v: V, i: nat, j: K, eq: (K, K) -> bool)
    requires Equivalence(eq) && i < |Put(e, k, v, eq)| && eq(Put(e, k, v, eq)[i].0, j)
    ensures if eq(k, j) then Put(e, k, v, eq)[i].1 == v else i < |e| && Put(e, k, v, eq)[i] == e[i]
  {
    var r := Put(e, k, v, eq);
    Alike(r[i].0, j, k, eq);
    if i < |e| && !Has(KeysOf(e), k, eq) { assert KeysOf(e)[i] == e[i].0; }
  }

  /** Removing an entry forgets its key, and nothing else. */
  lemma RemoveLookup<K(!new), V>(e: seq<(K, V)>, n: nat, j: K, eq: (K, K) -> bool)
    requires Equivalence(eq) && WellKeyed(e, eq) && n < |e|
    ensures WellKeyed(Without(e, n), eq)
    ensures Lookup(Without(e, n), j, eq) == if eq(e[n].0, j) then None else Lookup(e, j, eq)
  {
    hide Equivalence, Lookup, Without, Has, KeysOf, Distinct;
    var r := Without(e, n);
    RemoveKeys(e, n);
    WithoutHas(KeysOf(e), n, j, eq);
    LookupSome(r, j, eq);
    LookupSome(e, j, eq);
    if Has(KeysOf(r), j, eq) {
      var i := KeyIndex(r, j, eq);
      LookupAt(r, i, j, eq);
      WithoutAt(e, n, i);
      LookupAt(e, if i < n then i else i + 1, j, eq);
    }
  }

  lemma RemoveKeys<K, V>(e: seq<(K, V)>, n: nat)
    requires n < |e|
    ensures |Without(e, n)| == |e| - 1 && |KeysOf(e)| == |e| && KeysOf(e)[n] == e[n].0
    ensures KeysOf(Without(e, n)) == Without(KeysOf(e), n)
  {
  }

  /** The same map: equal keys, equal values. */
  ghost predicate SameDict<K(!new), V>(a: seq<(K, V)>, b: seq<(K, V)>, eq: (K, K) -> bool, veq: (V, V) -> bool) {
    forall k :: Agree(Lookup(a, k, eq), Lookup(b, k, eq), veq)
  }

  predicate Agree<V>(x: Option<V>, y: Option<V>, veq: (V, V) -> bool) {
    x.Some? == y.Some? && (x.Some? ==> veq(x.value, y.value))
  }

  /** What the scan checks of entry `i` of `a`. */
  predicate Matched<K, V>(a: seq<(K, V)>, b: seq<(K, V)>, i: nat, eq: (K, K) -> bool, veq: (V, V) -> bool)
    requires i < |a|
  {
    var y := Lookup(b, a[i].0, eq); y.Some? && veq(a[i].1, y.value)
  }

  /** The one-sided scan decides dict equality. */
  lemma DictScanDecides<K(!new), V>(a: seq<(K, V)>, b: seq<(K, V)>, eq: (K, K) -> bool, veq: (V, V) -> bool)
    requires Equivalence(eq) && WellKeyed(a, eq) && WellKeyed(b, eq)
    ensures SameDict(a, b, eq, veq) <==> |a| == |b| && forall i :: 0 <= i < |a| ==> Matched(a, b, i, eq, veq)
  {
    hide Equivalence, Lookup, Has;
    if SameDict(a, b, eq, veq) {
      forall i | 0 <= i < |a| ensures Matched(a, b, i, eq, veq) { SameMatched(a, b, i, eq, veq); }
      SameSize(a, b, eq, veq);
    }
    if |a| == |b| && forall i :: 0 <= i < |a| ==> Matched(a, b, i, eq, veq) {
      MatchedKeys(a, b, eq, veq);
      forall k ensures Agree(Lookup(a, k, eq), Lookup(b, k, eq), veq) { MatchedAgree(a, b, k, eq, veq); }
    }
  }

  lemma SameMatched<K(!new), V>(a: seq<(K, V)>, b: seq<(K, V)>, i: nat, eq: (K, K) -> bool, veq: (V, V) -> bool)
    requires Equivalence(eq) && WellKeyed(a, eq) && SameDict(a, b, eq, veq) && i < |a|
    ensures Matched(a, b, i, eq, veq)
  {
    hide Lookup;
    var k := a[i].0;
    assert eq(k, k);
    LookupAt(a, i, k, eq);
    assert Agree(Lookup(a, k, eq), Lookup(b, k, eq), veq);
  }

  lemma SameSize<K(!new), V>(a: seq<(K, V)>, b: seq<(K, V)>, eq: (K, K) -> bool, veq: (V, V) -> bool)
    requires Equivalence(eq) && WellKeyed(a, eq) && WellKeyed(b, eq) && SameDict(a, b, eq, veq)
    ensures |a| == |b|
  {
    hide Lookup;
    forall k ensures Has(KeysOf(a), k, eq) <==> Has(KeysOf(b), k, eq) {
      LookupSome(a, k, eq);
      LookupSome(b, k, eq);
      assert Agree(Lookup(a, k, eq), Lookup(b, k, eq), veq);
    }
    ScanDecides(KeysOf(a), KeysOf(b), eq);
  }

  lemma MatchedKeys<K(!new), V>(a: seq<(K, V)>, b: seq<(K, V)>, eq: (K, K) -> bool, veq: (V, V) -> bool)
    requires Equivalence(eq) && WellKeyed(a, eq) && WellKeyed(b, eq) && |a| == |b|
    requires forall i :: 0 <= i < |a| ==> Matched(a, b, i, eq, veq)
    ensures SameItems(KeysOf(a), KeysOf(b), eq)
  {
    hide Lookup;
    forall i | 0 <= i < |KeysOf(a)| ensures Has(KeysOf(b), KeysOf(a)[i], eq) {
      assert Matched(a, b, i, eq, veq);
      LookupSome(b, a[i].0, eq);
    }
    ScanDecides(KeysOf(a), KeysOf(b), eq);
  }

  lemma MatchedAgree<K(!new), V>(a: seq<(K, V)>, b: seq<(K, V)>, k: K, eq: (K, K) -> bool, veq: (V, V) -> bool)
    requires Equivalence(eq) && WellKeyed(a, eq) && WellKeyed(b, eq) && SameItems(KeysOf(a), KeysOf(b), eq)
    requires forall i :: 0 <= i < |a| ==> Matched(a, b, i, eq, veq)
    ensures Agree(Lookup(a, k, eq), Lookup(b, k, eq), veq)
  {
    hide Lookup, Has;
    LookupSome(a, k, eq);
    LookupSome(b, k, eq);
    if Has(KeysOf(a), k, eq) {
      var i := KeyIndex(a, k, eq);
      LookupAt(a, i, k, eq);
      LookupAlike(b, a[i].0, k, eq);
      assert Matched(a, b, i, eq, veq);
    }
  }

  // ------------------------------------------------------------------ the dict

  class PyDict<K(0,!new), V(0)> {
    const eq: (K, K) -> bool
    var len: nat
    var keys: array<K>
    var vals: array<V>

    ghost predicate Shaped() reads this {
      len <= keys.Length == vals.Length && keys as object != vals as object
    }

    ghost function Entries(): seq<(K, V)>
      requires Shaped()
      reads this, keys, vals
    {
      seq(len, i requires 0 <= i < len && Shaped() reads this, keys, vals => (keys[i], vals[i]))
    }

    ghost predicate Valid() reads this, keys, vals {
      Shaped() && Equivalence(eq) && WellKeyed(Entries(), eq)
    }

    /** How many entries the dict can ever hold; growing does not change it. */
    ghost function Limit(): nat reads this { Ceiling(keys.Length) }

    constructor (eq: (K, K) -> bool)
      requires Equivalence(eq)
      ensures Valid() && this.eq == eq && Entries() == [] && Limit() == Ceiling(0) && fresh(keys) && fresh(vals)
    {
      this.eq, len := eq, 0;
      keys, vals := new K[0], new V[0];
    }

    /** `$dict_find`: an index, or -1. */
    method Find(k: K) returns (i: int)
      requires Valid()
      ensures -1 <= i < len && (i >= 0 <==> Has(KeysOf(Entries()), k, eq))
      ensures i >= 0 ==> eq(keys[i], k)
    {
      i := 0;
      while i < len
        invariant 0 <= i <= len && forall j :: 0 <= j < i ==> !eq(KeysOf(Entries())[j], k)
      {
        assert KeysOf(Entries())[i] == keys[i];
        if eq(keys[i], k) { return; }
        i := i + 1;
      }
      i := -1;
    }

    /** `$dict_get`: none is a KeyError; with a default it is `dict.get`. */
    method Get(k: K) returns (v: Option<V>)
      requires Valid()
      ensures v == Lookup(Entries(), k, eq)
    {
      var i := Find(k);
      LookupSome(Entries(), k, eq);
      if i < 0 { return None; }
      LookupAt(Entries(), i, k, eq);
      v := Some(vals[i]);
    }

    /** Both arrays grow together. */
    method Grow() returns (ok: bool)
      requires Shaped()
      modifies this`keys, this`vals
      ensures Shaped() && Entries() == old(Entries()) && Limit() == old(Limit())
      ensures ok <==> (old(keys.Length) + 4) * 2 <= MAX_I32
      ensures if ok then fresh(keys) && fresh(vals) && keys.Length > len else keys == old(keys) && vals == old(vals)
    {
      var cap := (keys.Length + 4) * 2;
      if cap > MAX_I32 { return false; }
      var nk, nv := new K[cap], new V[cap];
      forall i | 0 <= i < len { nk[i] := keys[i]; }
      forall i | 0 <= i < len { nv[i] := vals[i]; }
      keys, vals := nk, nv;
      ok := true;
    }

    /** `$dict_set`; `ok` is false exactly when a new key finds no room. */
    method Set(k: K, v: V) returns (ok: bool)
      requires Valid()
      modifies this`len, this`keys, this`vals, keys, vals
      ensures Valid() && ((keys == old(keys) && vals == old(vals)) || (fresh(keys) && fresh(vals)))
      ensures Entries() == if ok then Put(old(Entries()), k, v, eq) else old(Entries())
      ensures ok <==> old(Has(KeysOf(Entries()), k, eq) || len < Limit())
      ensures Limit() == old(Limit())
    {
      CeilingBound(keys.Length);
      ghost var was := Entries();
      PutLookup(was, k, v, k, eq);
      var i := Find(k);
      if i >= 0 {
        vals[i] := v;
        OnlyOne(was, i, k, eq);
        assert Entries() == Put(was, k, v, eq);
        return true;
      }
      if len >= keys.Length {
        ok := Grow();
        if !ok { return; }
      }
      keys[len] := k;
      vals[len] := v;
      len := len + 1;
      assert Entries() == was + [(k, v)];
      ok := true;
    }

    /** `$dict_remove_at`: both tails shift down by one. */
    method RemoveAt(n: nat)
      requires Valid() && n < len
      modifies this`len, keys, vals
      ensures Valid() && Entries() == Without(old(Entries()), n)
    {
      ghost var was := Entries();
      RemoveLookup(was, n, was[n].0, eq);
      forall i | n <= i < len - 1 { keys[i] := keys[i + 1]; }
      forall i | n <= i < len - 1 { vals[i] := vals[i + 1]; }
      len := len - 1;
      assert Entries() == Without(was, n);
    }

    /** `dict.pop(key)`: the value leaves with its entry; none is a KeyError. */
    method Pop(k: K) returns (v: Option<V>)
      requires Valid()
      modifies this`len, keys, vals
      ensures Valid() && v == Lookup(old(Entries()), k, eq)
      ensures v == None ==> Entries() == old(Entries())
      ensures forall j :: Lookup(Entries(), j, eq) == if eq(k, j) then None else Lookup(old(Entries()), j, eq)
    {
      ghost var was := Entries();
      LookupSome(was, k, eq);
      var i := Find(k);
      if i < 0 {
        forall j | eq(k, j) ensures Lookup(was, j, eq) == None { LookupAlike(was, k, j, eq); }
        return None;
      }
      LookupAt(was, i, k, eq);
      v := Some(vals[i]);
      RemoveAt(i);
      forall j ensures Lookup(Entries(), j, eq) == if eq(k, j) then None else Lookup(was, j, eq) {
        RemoveLookup(was, i, j, eq);
        Alike(was[i].0, k, j, eq);
      }
    }

    /** `$dict_setdefault`. */
    method SetDefault(k: K, d: V) returns (ok: bool, v: V)
      requires Valid()
      modifies this`len, this`keys, this`vals, keys, vals
      ensures Valid() && Limit() == old(Limit()) && (ok <==> old(Lookup(Entries(), k, eq).Some? || len < Limit()))
      ensures ok ==> Some(v) == (if old(Lookup(Entries(), k, eq)).Some? then old(Lookup(Entries(), k, eq)) else Some(d))
      ensures Entries() == if !ok || old(Lookup(Entries(), k, eq)).Some? then old(Entries()) else Put(old(Entries()), k, d, eq)
    {
      LookupSome(Entries(), k, eq);
      var i := Find(k);
      if i >= 0 {
        LookupAt(Entries(), i, k, eq);
        return true, vals[i];
      }
      ok := Set(k, d);
      v := d;
    }

    /** `$dict_clear`. */
    method Clear()
      requires Valid()
      modifies this`len
      ensures Valid() && Entries() == []
    {
      len := 0;
    }

    /** `$dict_eq`: sizes, then one direction only. */
    method Equals(b: PyDict<K, V>, veq: (V, V) -> bool) returns (same: bool)
      requires Valid() && b.Valid() && b.eq == eq
      ensures same <==> SameDict(Entries(), b.Entries(), eq, veq)
    {
      DictScanDecides(Entries(), b.Entries(), eq, veq);
      if len != b.len { return false; }
      hide Has, SameDict;
      var i := 0;
      while i < len
        invariant 0 <= i <= len && forall m :: 0 <= m < i ==> Matched(Entries(), b.Entries(), m, eq, veq)
      {
        LookupSome(b.Entries(), keys[i], eq);
        var j := b.Find(keys[i]);
        if j < 0 {
          assert !Matched(Entries(), b.Entries(), i, eq, veq);
          return false;
        }
        LookupAt(b.Entries(), j, keys[i], eq);
        assert Matched(Entries(), b.Entries(), i, eq, veq) <==> veq(vals[i], b.vals[j]);
        if !veq(vals[i], b.vals[j]) { return false; }
        i := i + 1;
      }
      same := true;
    }
  }

  /** Distinct keys: the one that matches is the only one. */
  lemma OnlyOne<K(!new), V>(e: seq<(K, V)>, i: nat, k: K, eq: (K, K) -> bool)
    requires Equivalence(eq) && WellKeyed(e, eq) && i < |e| && eq(e[i].0, k)
    ensures forall j :: 0 <= j < |e| && eq(e[j].0, k) ==> j == i
  {
    forall j | 0 <= j < |e| && j != i ensures !eq(e[j].0, k) { DistinctAt(KeysOf(e), i, j, k, eq); }
  }

  /** All entries of `b` assigned in turn. */
  function PutAll<K, V>(e: seq<(K, V)>, b: seq<(K, V)>, eq: (K, K) -> bool): seq<(K, V)> {
    if b == [] then e else Put(PutAll(e, b[..|b| - 1], eq), b[|b| - 1].0, b[|b| - 1].1, eq)
  }

  /** The right-hand dict wins. */
  lemma {:induction false} PutAllLookup<K(!new), V>(e: seq<(K, V)>, b: seq<(K, V)>, k: K, eq: (K, K) -> bool)
    requires Equivalence(eq) && WellKeyed(e, eq)
    ensures WellKeyed(PutAll(e, b, eq), eq)
    ensures Lookup(PutAll(e, b, eq), k, eq) == if Lookup(b, k, eq).Some? then Lookup(b, k, eq) else Lookup(e, k, eq)
    decreases |b|
  {
    hide Put, Equivalence, WellKeyed;
    if b != [] {
      PutAllLookup(e, b[..|b| - 1], k, eq);
      PutLookup(PutAll(e, b[..|b| - 1], eq), b[|b| - 1].0, b[|b| - 1].1, k, eq);
    }
  }

  /** Assigning what is there already changes nothing. */
  lemma PutSame<K(!new), V>(e: seq<(K, V)>, i: nat, eq: (K, K) -> bool)
    requires Equivalence(eq) && WellKeyed(e, eq) && i < |e|
    ensures Put(e, e[i].0, e[i].1, eq) == e
  {
    var k := e[i].0;
    assert eq(KeysOf(e)[i], k);
    OnlyOne(e, i, k, eq);
  }

  lemma {:induction false} PutAllSame<K(!new), V>(e: seq<(K, V)>, i: nat, eq: (K, K) -> bool)
    requires Equivalence(eq) && WellKeyed(e, eq) && i <= |e|
    ensures PutAll(e, e[..i], eq) == e
    decreases i
  {
    hide Put, Equivalence, WellKeyed;
    if i > 0 {
      assert e[..i][..i - 1] == e[..i - 1];
      PutAllSame(e, i - 1, eq);
      PutSame(e, i - 1, eq);
    }
  }

  /** Assigning more entries never shrinks a dict. */
  lemma {:induction false} PutAllGrows<K, V>(e: seq<(K, V)>, b: seq<(K, V)>, i: nat, eq: (K, K) -> bool)
    requires i <= |b|
    ensures |PutAll(e, b[..i], eq)| <= |PutAll(e, b, eq)|
    decreases |b|
  {
    hide Has;
    if i == |b| {
      assert b[..i] == b;
    } else {
      assert b[..|b| - 1][..i] == b[..i];
      PutAllGrows(e, b[..|b| - 1], i, eq);
    }
  }

  /** Where an update that runs out of room stops: full, before a key that is not there. */
  ghost predicate StoppedAt<K, V>(now: seq<(K, V)>, e: seq<(K, V)>, b: seq<(K, V)>, i: nat, limit: nat, eq: (K, K) -> bool) {
    i < |b| && now == PutAll(e, b[..i], eq) && |now| == limit && !Has(KeysOf(now), b[i].0, eq)
  }

  /** `$dict_update` from another dict, or from itself. */
  method Update<K(0,!new), V(0)>(r: PyDict<K, V>, o: PyDict<K, V>) returns (ok: bool)
    requires r.Valid() && o.Valid() && r.eq == o.eq
    requires r == o || {r.keys as object, r.vals as object} !! {o.keys as object, o.vals as object}
    modifies r`len, r`keys, r`vals, r.keys, r.vals
    ensures r.Valid() && r.Limit() == old(r.Limit())
    ensures ok <==> |PutAll(old(r.Entries()), old(o.Entries()), r.eq)| <= r.Limit()
    ensures ok ==> r.Entries() == PutAll(old(r.Entries()), old(o.Entries()), r.eq)
    ensures !ok ==> exists i :: StoppedAt(r.Entries(), old(r.Entries()), old(o.Entries()), i, r.Limit(), r.eq)
    ensures o.Valid() && (o.Entries() == old(o.Entries()))
  {
    hide Equivalence, WellKeyed, Put, Has, PutAll, Ceiling;
    CeilingBound(r.keys.Length);
    ghost var was, theirs := r.Entries(), o.Entries();
    var n := o.len;
    var i := 0;
    PutAllNone(was, theirs, r.eq);
    while i < n
      invariant 0 <= i <= n == |theirs| && r.Valid() && o.Valid() && o.Entries() == theirs && o.len == n
      invariant r.len <= r.Limit() == old(r.Limit())
      invariant r != o ==> o.keys == old(o.keys) && o.vals == old(o.vals)
      invariant (r.keys == old(r.keys) && r.vals == old(r.vals)) || (fresh(r.keys) && fresh(r.vals))
      invariant r.Entries() == PutAll(was, theirs[..i], r.eq)
    {
      assert theirs[i] == (o.keys[i], o.vals[i]);
      if r == o { PutSame(theirs, i, r.eq); }
      PutAllStep(was, theirs, i, r.eq);
      ok := r.Set(o.keys[i], o.vals[i]);
      CeilingBound(r.keys.Length);
      if !ok {
        PutAllFull(r.Entries(), was, theirs, i, r.Limit(), r.eq);
        return;
      }
      i := i + 1;
    }
    assert theirs[..i] == theirs;
    ok := true;
  }

  lemma PutAllNone<K, V>(e: seq<(K, V)>, b: seq<(K, V)>, eq: (K, K) -> bool)
    ensures PutAll(e, b[..0], eq) == e
  {
    assert b[..0] == [];
  }

  lemma PutAllStep<K, V>(e: seq<(K, V)>, b: seq<(K, V)>, i: nat, eq: (K, K) -> bool)
    requires i < |b|
    ensures PutAll(e, b[..i + 1], eq) == Put(PutAll(e, b[..i], eq), b[i].0, b[i].1, eq)
  {
    hide Put;
    assert b[..i + 1][..i] == b[..i];
  }

  lemma PutAllFull<K, V>(now: seq<(K, V)>, e: seq<(K, V)>, b: seq<(K, V)>, i: nat, limit: nat, eq: (K, K) -> bool)
    requires i < |b| && now == PutAll(e, b[..i], eq) && |now| == limit && !Has(KeysOf(now), b[i].0, eq)
    ensures StoppedAt(now, e, b, i, limit, eq) && |PutAll(e, b, eq)| > limit
  {
    hide Put, Has;
    PutAllStep(e, b, i, eq);
    NewKey(now, b[i].0, b[i].1, eq);
    PutAllGrows(e, b, i + 1, eq);
  }

  lemma NewKey<K, V>(e: seq<(K, V)>, k: K, v: V, eq: (K, K) -> bool)
    requires !Has(KeysOf(e), k, eq)
    ensures |Put(e, k, v, eq)| == |e| + 1
  {
  }
}
