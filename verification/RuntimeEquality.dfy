/** `==` on nested lists in the emitted runtime (src/codegen.rs): `$py_eq` and `$list_eq`
    call each other down to the numbers.  They decide whether two values spell the same
    tree; on a list inside itself they never answer. */
module RuntimeEquality {
  import opened Syntax
  import opened Values
  import opened Machine

  /** An answer, an error, or still comparing when `depth` levels are used up. */
  datatype Verdict = Says(same: bool) | Fails(error: Error) | Deep

  function NumbersEq(a: Ref, b: Ref): Verdict {
    match (Unbox(a), Unbox(b))
    case (NoNum(e), _) => Fails(e)
    case (_, NoNum(e)) => Fails(e)
    case (Num(x), Num(y)) => Says(x == y)
  }

  function PyEq(a: Ref, b: Ref, store: Store, depth: nat): Verdict
    decreases depth, 0, 0
  {
    if a.NoneRef? || b.NoneRef? then Says(a.NoneRef? && b.NoneRef?)
    else if a.ListRef? && b.ListRef? then
      if depth == 0 then Deep else ListEq(RefsAt(store, a.at), RefsAt(store, b.at), store, depth - 1)
    else if a.ListRef? || b.ListRef? then Says(false)
    else NumbersEq(a, b)
  }

  function ListEq(xs: seq<Ref>, ys: seq<Ref>, store: Store, depth: nat): Verdict
    decreases depth, 2, 0
  {
    if |xs| != |ys| then Says(false) else ItemsEq(xs, ys, store, depth)
  }

  /** Item by item, up to the first difference. */
  function ItemsEq(xs: seq<Ref>, ys: seq<Ref>, store: Store, depth: nat): Verdict
    requires |xs| == |ys|
    decreases depth, 1, |xs|
  {
    if xs == [] then Says(true)
    else if PyEq(xs[0], ys[0], store, depth) == Says(true) then ItemsEq(xs[1..], ys[1..], store, depth)
    else PyEq(xs[0], ys[0], store, depth)
  }

  method PyEquals(a: Ref, b: Ref, store: Store, depth: nat) returns (v: Verdict)
    ensures v == PyEq(a, b, store, depth)
    decreases depth, 0
  {
    if a.NoneRef? || b.NoneRef? { return Says(a.NoneRef? && b.NoneRef?); }
    if a.ListRef? && b.ListRef? {
      if depth == 0 { return Deep; }
      v := ListEquals(RefsAt(store, a.at), RefsAt(store, b.at), store, depth - 1);
      return;
    }
    if a.ListRef? || b.ListRef? { return Says(false); }
    v := NumbersEq(a, b);
  }

  method ListEquals(xs: seq<Ref>, ys: seq<Ref>, store: Store, depth: nat) returns (v: Verdict)
    ensures v == ListEq(xs, ys, store, depth)
    decreases depth, 1
  {
    hide PyEq;
    if |xs| != |ys| { return Says(false); }
    var i := 0;
    assert xs[0..] == xs && ys[0..] == ys;
    while i < |xs|
      invariant 0 <= i <= |xs| && ItemsEq(xs[i..], ys[i..], store, depth) == ItemsEq(xs, ys, store, depth)
    {
      assert xs[i..][1..] == xs[i + 1..] && ys[i..][1..] == ys[i + 1..];
      v := PyEquals(xs[i], ys[i], store, depth);
      if v != Says(true) { return; }
      i := i + 1;
    }
    v := Says(true);
  }

  // ------------------------------------------------------------ what it decides

  /** A value written out; booleans are the numbers 0 and 1. */
  datatype Tree = Leaf(n: int) | Nothing | Branch(items: seq<Tree>)

  /** The tree below a reference, if it ends within `depth` levels and holds no null. */
  function Unfold(r: Ref, store: Store, depth: nat): Option<Tree>
    decreases depth, 0, 0
  {
    match r
    case Null => None
    case I31(n) => Some(Leaf(n))
    case IntBox(n) => Some(Leaf(n))
    case BoolRef(b) => Some(Leaf(if b then 1 else 0))
    case NoneRef => Some(Nothing)
    case ListRef(at) =>
      if depth == 0 then None
      else match UnfoldAll(RefsAt(store, at), store, depth - 1) case None => None case Some(ts) => Some(Branch(ts))
  }

  function UnfoldAll(rs: seq<Ref>, store: Store, depth: nat): (ts: Option<seq<Tree>>)
    ensures ts.Some? ==> |ts.value| == |rs|
    decreases depth, 1, |rs|
  {
    if rs == [] then Some([])
    else
      match (Unfold(rs[0], store, depth), UnfoldAll(rs[1..], store, depth))
      case (Some(t), Some(ts)) => Some([t] + ts)
      case _ => None
  }

  /** Two values that can be written out are equal exactly when they are written the same. */
  lemma {:induction false} EqDecides(a: Ref, b: Ref, store: Store, depth: nat)
    requires Unfold(a, store, depth).Some? && Unfold(b, store, depth).Some?
    ensures PyEq(a, b, store, depth) == Says(Unfold(a, store, depth) == Unfold(b, store, depth))
    decreases depth, 0, 0
  {
    if a.ListRef? && b.ListRef? {
      var xs, ys := RefsAt(store, a.at), RefsAt(store, b.at);
      var ts, us := UnfoldAll(xs, store, depth - 1).value, UnfoldAll(ys, store, depth - 1).value;
      assert Unfold(a, store, depth) == Some(Branch(ts)) && Unfold(b, store, depth) == Some(Branch(us));
      if |xs| == |ys| { ItemsDecide(xs, ys, store, depth - 1); } else { assert |ts| != |us|; }
    }
  }

  lemma {:induction false} ItemsDecide(xs: seq<Ref>, ys: seq<Ref>, store: Store, depth: nat)
    requires |xs| == |ys| && UnfoldAll(xs, store, depth).Some? && UnfoldAll(ys, store, depth).Some?
    ensures ItemsEq(xs, ys, store, depth) == Says(UnfoldAll(xs, store, depth) == UnfoldAll(ys, store, depth))
    decreases depth, 1, |xs|
  {
    if xs != [] {
      hide PyEq, Unfold;
      EqDecides(xs[0], ys[0], store, depth);
      ItemsDecide(xs[1..], ys[1..], store, depth);
      var s, t := Unfold(xs[0], store, depth).value, Unfold(ys[0], store, depth).value;
      var ss, ts := UnfoldAll(xs[1..], store, depth).value, UnfoldAll(ys[1..], store, depth).value;
      assert [s] + ss == [t] + ts <==> s == t && ss == ts by {
        assert ([s] + ss)[0] == s && ([s] + ss)[1..] == ss && ([t] + ts)[0] == t && ([t] + ts)[1..] == ts;
      }
    }
  }

  /** So it is an equivalence on them. */
  lemma EqEquivalence(a: Ref, b: Ref, c: Ref, store: Store, depth: nat)
    requires Unfold(a, store, depth).Some? && Unfold(b, store, depth).Some? && Unfold(c, store, depth).Some?
    ensures PyEq(a, a, store, depth) == Says(true) && PyEq(a, b, store, depth) == PyEq(b, a, store, depth)
    ensures PyEq(a, b, store, depth) == Says(true) && PyEq(b, c, store, depth) == Says(true) ==> PyEq(a, c, store, depth) == Says(true)
  {
    hide PyEq, Unfold;
    EqDecides(a, a, store, depth);
    EqDecides(a, b, store, depth);
    EqDecides(b, a, store, depth);
    EqDecides(b, c, store, depth);
    EqDecides(a, c, store, depth);
  }

  /** The question the machine asks when it compares two lists, answered by `PyEq`. */
  ghost predicate Compares(a: Ref, b: Ref, m: Machine, o: Oracle, depth: nat) {
    var reply := o(Query(m.calls, "==", [ValueOf(a), ValueOf(b)], HeapOf(m.store), m.globals));
    reply.Gives? && reply.value == VBool(PyEq(a, b, m.store, depth) == Says(true))
  }

  /** So compiled code compares any two values that can be written out as what is written. */
  lemma EqRefsDecides(a: Ref, b: Ref, m: Machine, o: Oracle, depth: nat)
    requires Unfold(a, m.store, depth).Some? && Unfold(b, m.store, depth).Some?
    requires a.ListRef? && b.ListRef? ==> Compares(a, b, m, o, depth)
    ensures var g := EqRefs(a, b, m, o);
      g.Got? && (g.value != 0 <==> Unfold(a, m.store, depth) == Unfold(b, m.store, depth))
  {
    EqDecides(a, b, m.store, depth);
    hide HeapOf, StoreOf;
    if !a.ListRef? && !b.ListRef? && !a.NoneRef? && !b.NoneRef? { NumbersCompared(a, b, m, o); }
  }

  lemma NumbersCompared(a: Ref, b: Ref, m: Machine, o: Oracle)
    requires !a.ListRef? && !b.ListRef? && !a.NoneRef? && !b.NoneRef? && Unbox(a).Num? && Unbox(b).Num?
    ensures EqRefs(a, b, m, o) == Got(Flag(Unbox(a).n == Unbox(b).n), m)
  {
  }

  // -------------------------------------------------------------- when it answers

  /** Every list holds lists of a lower rank only, and no null. */
  ghost predicate Ranked(store: Store, rank: nat -> nat) {
    forall at: nat, i :: 0 <= i < |RefsAt(store, at)| ==>
      var r := RefsAt(store, at)[i]; !r.Null? && (r.ListRef? ==> rank(r.at) < rank(at))
  }

  /** In such a store every value can be written out, so every comparison answers. */
  lemma {:induction false} RankedUnfolds(r: Ref, store: Store, rank: nat -> nat, depth: nat)
    requires Ranked(store, rank) && !r.Null? && (r.ListRef? ==> rank(r.at) < depth)
    ensures Unfold(r, store, depth).Some?
    decreases depth, 0, 0
  {
    if r.ListRef? {
      var rs := RefsAt(store, r.at);
      forall i | 0 <= i < |rs| ensures !rs[i].Null? && (rs[i].ListRef? ==> rank(rs[i].at) < depth - 1) {}
      RankedAll(rs, store, rank, depth - 1);
    }
  }

  lemma {:induction false} RankedAll(rs: seq<Ref>, store: Store, rank: nat -> nat, depth: nat)
    requires Ranked(store, rank) && forall i :: 0 <= i < |rs| ==> !rs[i].Null? && (rs[i].ListRef? ==> rank(rs[i].at) < depth)
    ensures UnfoldAll(rs, store, depth).Some?
    decreases depth, 1, |rs|
  {
    if rs != [] {
      hide Unfold, Ranked;
      RankedUnfolds(rs[0], store, rank, depth);
      RankedAll(rs[1..], store, rank, depth);
    }
  }

  /** Levels beyond what was needed change nothing. */
  lemma {:induction false} DeeperSame(a: Ref, b: Ref, store: Store, d: nat, e: nat)
    requires d <= e && PyEq(a, b, store, d) != Deep
    ensures PyEq(a, b, store, e) == PyEq(a, b, store, d)
    decreases d, 0, 0
  {
    if a.ListRef? && b.ListRef? {
      var xs, ys := RefsAt(store, a.at), RefsAt(store, b.at);
      if |xs| == |ys| { ItemsDeeper(xs, ys, store, d - 1, e - 1); }
    }
  }

  lemma {:induction false} ItemsDeeper(xs: seq<Ref>, ys: seq<Ref>, store: Store, d: nat, e: nat)
    requires d <= e && |xs| == |ys| && ItemsEq(xs, ys, store, d) != Deep
    ensures ItemsEq(xs, ys, store, e) == ItemsEq(xs, ys, store, d)
    decreases d, 1, |xs|
  {
    if xs != [] {
      hide PyEq;
      DeeperSame(xs[0], ys[0], store, d, e);
      if PyEq(xs[0], ys[0], store, d) == Says(true) { ItemsDeeper(xs[1..], ys[1..], store, d, e); }
    }
  }

  /** A comparison with itself looks at everything: it answers yes exactly for values that
      can be written out, and never no. */
  lemma {:induction false} SelfEqExactly(a: Ref, store: Store, depth: nat)
    ensures PyEq(a, a, store, depth) == Says(true) <==> Unfold(a, store, depth).Some?
    ensures PyEq(a, a, store, depth) != Says(false)
    decreases depth, 0, 0
  {
    if a.ListRef? && depth > 0 { SelfItems(RefsAt(store, a.at), store, depth - 1); }
  }

  lemma {:induction false} SelfItems(xs: seq<Ref>, store: Store, depth: nat)
    ensures ItemsEq(xs, xs, store, depth) == Says(true) <==> UnfoldAll(xs, store, depth).Some?
    ensures ItemsEq(xs, xs, store, depth) != Says(false)
    decreases depth, 1, |xs|
  {
    if xs != [] {
      hide PyEq, Unfold;
      SelfEqExactly(xs[0], store, depth);
      SelfItems(xs[1..], store, depth);
    }
  }

  ghost predicate NoNulls(store: Store) { forall at: nat :: Null !in RefsAt(store, at) }

  /** Without nulls nothing fails. */
  lemma {:induction false} NeverFails(a: Ref, b: Ref, store: Store, depth: nat)
    requires NoNulls(store) && !a.Null? && !b.Null?
    ensures !PyEq(a, b, store, depth).Fails?
    decreases depth, 0, 0
  {
    if a.ListRef? && b.ListRef? && depth > 0 {
      var xs, ys := RefsAt(store, a.at), RefsAt(store, b.at);
      assert Null !in xs && Null !in ys;
      if |xs| == |ys| { NoItemFails(xs, ys, store, depth - 1); }
    }
  }

  lemma {:induction false} NoItemFails(xs: seq<Ref>, ys: seq<Ref>, store: Store, depth: nat)
    requires NoNulls(store) && |xs| == |ys| && Null !in xs && Null !in ys
    ensures !ItemsEq(xs, ys, store, depth).Fails?
    decreases depth, 1, |xs|
  {
    if xs != [] {
      hide PyEq, NoNulls;
      assert xs[0] in xs && ys[0] in ys;
      NeverFails(xs[0], ys[0], store, depth);
      NoItemFails(xs[1..], ys[1..], store, depth);
    }
  }

  /** In a store without nulls, every comparison of these values answers exactly if each of
      them can be written out. */
  lemma EndsExactly(values: set<Ref>, store: Store, depth: nat)
    requires NoNulls(store) && Null !in values
    ensures (forall a, b :: a in values && b in values ==> PyEq(a, b, store, depth) != Deep)
      <==> (forall a :: a in values ==> Unfold(a, store, depth).Some?)
  {
    hide PyEq, Unfold, NoNulls;
    if forall a, b :: a in values && b in values ==> PyEq(a, b, store, depth) != Deep {
      forall a | a in values ensures Unfold(a, store, depth).Some? {
        SelfEqExactly(a, store, depth);
        NeverFails(a, a, store, depth);
        assert PyEq(a, a, store, depth) != Deep;
      }
    }
    if forall a :: a in values ==> Unfold(a, store, depth).Some? {
      forall a, b | a in values && b in values ensures PyEq(a, b, store, depth) != Deep { EqDecides(a, b, store, depth); }
    }
  }

  /** Each list of the way holds the next one. */
  ghost predicate Nested(way: seq<nat>, store: Store) {
    way != [] && forall i :: 0 <= i < |way| - 1 ==> ListRef(way[i + 1]) in RefsAt(store, way[i])
  }

  lemma {:induction false} DownTheWay(way: seq<nat>, store: Store, depth: nat)
    requires Nested(way, store) && Unfold(ListRef(way[0]), store, depth).Some?
    ensures depth >= |way| && Unfold(ListRef(way[|way| - 1]), store, depth - |way| + 1).Some?
    decreases |way|
  {
    if |way| > 1 {
      var rs := RefsAt(store, way[0]);
      ItemUnfolds(rs, ListRef(way[1]), store, depth - 1);
      forall i | 0 <= i < |way[1..]| - 1 ensures ListRef(way[1..][i + 1]) in RefsAt(store, way[1..][i]) {
        assert ListRef(way[i + 2]) in RefsAt(store, way[i + 1]);
      }
      DownTheWay(way[1..], store, depth - 1);
    }
  }

  lemma {:induction false} ItemUnfolds(rs: seq<Ref>, r: Ref, store: Store, depth: nat)
    requires UnfoldAll(rs, store, depth).Some? && r in rs
    ensures Unfold(r, store, depth).Some?
    decreases |rs|
  {
    hide Unfold;
    if rs[0] != r { ItemUnfolds(rs[1..], r, store, depth); }
  }

  /** A list that holds itself, however deep inside, is compared with itself for ever, if the
      comparison does not fail on a null. */
  lemma CyclicNeverAnswers(way: seq<nat>, store: Store, depth: nat)
    requires Nested(way, store) && |way| > 1 && way[0] == way[|way| - 1]
    ensures var v := PyEq(ListRef(way[0]), ListRef(way[0]), store, depth); v == Deep || (v.Fails? && !NoNulls(store))
  {
    hide PyEq, Unfold, NoNulls, Nested;
    SelfEqExactly(ListRef(way[0]), store, depth);
    if Unfold(ListRef(way[0]), store, depth).Some? { NeverUnfolds(way, store, depth); }
    if NoNulls(store) { NeverFails(ListRef(way[0]), ListRef(way[0]), store, depth); }
  }

  lemma {:induction false} NeverUnfolds(way: seq<nat>, store: Store, depth: nat)
    requires Nested(way, store) && |way| > 1 && way[0] == way[|way| - 1]
    ensures Unfold(ListRef(way[0]), store, depth).None?
    decreases depth
  {
    hide Unfold, Nested;
    if Unfold(ListRef(way[0]), store, depth).Some? {
      DownTheWay(way, store, depth);
      NeverUnfolds(way, store, depth - |way| + 1);
    }
  }
}
