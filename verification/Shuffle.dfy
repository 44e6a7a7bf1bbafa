/** `random.shuffle` of the emitted runtime (src/codegen.rs): Fisher-Yates from the last
    position down to 1.  The draws are a parameter. */
module Shuffle {
  function Swapped<T>(s: seq<T>, i: nat, j: nat): seq<T>
    requires i < |s| && j < |s|
  {
    s[i := s[j]][j := s[i]]
  }

  /** One choice per position: at step `i` a position in `0..i`. */
  predicate Choices(c: seq<nat>, n: nat) { |c| == n && forall i :: 0 <= i < n ==> c[i] <= i }

  /** The steps from position `i` down to 1. */
  function Steps<T>(s: seq<T>, c: seq<nat>, i: nat): (r: seq<T>)
    requires Choices(c, |s|) && (i < |s| || i == 0)
    ensures |r| == |s|
    decreases i
  {
    if i == 0 then s else Steps(Swapped(s, i, c[i]), c, i - 1)
  }

  function Shuffled<T>(s: seq<T>, c: seq<nat>): seq<T>
    requires Choices(c, |s|)
  {
    if s == [] then s else Steps(s, c, |s| - 1)
  }

  predicate Distinct<T(==)>(s: seq<T>) { forall i, j :: 0 <= i < j < |s| ==> s[i] != s[j] }

  /** Every step keeps the items and, past its position, their places. */
  lemma {:induction false} StepsKeep<T>(s: seq<T>, c: seq<nat>, i: nat)
    requires Choices(c, |s|) && i < |s|
    ensures var r := Steps(s, c, i);
      multiset(r) == multiset(s) && r[i + 1..] == s[i + 1..] && r[i] == s[c[i]]
    decreases i
  {
    if i > 0 {
      var u := Swapped(s, i, c[i]);
      StepsKeep(u, c, i - 1);
      assert Steps(s, c, i)[i] == Steps(u, c, i - 1)[i..][0] == u[i..][0];
      assert Steps(s, c, i)[i + 1..] == Steps(u, c, i - 1)[i..][1..] == u[i..][1..];
    }
  }

  /** A shuffle is a permutation, whatever the draws. */
  lemma ShuffledPermutes<T>(s: seq<T>, c: seq<nat>)
    requires Choices(c, |s|)
    ensures multiset(Shuffled(s, c)) == multiset(s)
  {
    if s != [] { StepsKeep(s, c, |s| - 1); }
  }

  lemma SwapDistinct<T>(s: seq<T>, i: nat, j: nat)
    requires Distinct(s) && i < |s| && j < |s|
    ensures Distinct(Swapped(s, i, j))
  {
  }

  /** Different choices give different orders of distinct items. */
  lemma {:induction false} StepsInjective<T>(s: seq<T>, c: seq<nat>, d: seq<nat>, i: nat)
    requires Distinct(s) && Choices(c, |s|) && Choices(d, |s|) && i < |s| && Steps(s, c, i) == Steps(s, d, i)
    ensures c[..i + 1] == d[..i + 1]
    decreases i
  {
    StepsKeep(s, c, i);
    StepsKeep(s, d, i);
    assert c[i] == d[i];
    if i > 0 {
      SwapDistinct(s, i, c[i]);
      StepsInjective(Swapped(s, i, c[i]), c, d, i - 1);
    }
    assert c[..i + 1] == c[..i] + [c[i]] && d[..i + 1] == d[..i] + [d[i]];
  }

  lemma ShuffledInjective<T>(s: seq<T>, c: seq<nat>, d: seq<nat>)
    requires Distinct(s) && Choices(c, |s|) && Choices(d, |s|) && Shuffled(s, c) == Shuffled(s, d)
    ensures c == d
  {
    if s != [] {
      StepsInjective(s, c, d, |s| - 1);
      assert c[..|s|] == c && d[..|s|] == d;
    }
  }

  /** Every order of the items is reached by some choices. */
  lemma {:induction false} StepsSurjective<T>(s: seq<T>, r: seq<T>, i: nat) returns (c: seq<nat>)
    requires i < |s| == |r| && multiset(s[..i + 1]) == multiset(r[..i + 1]) && s[i + 1..] == r[i + 1..]
    ensures Choices(c, |s|) && Steps(s, c, i) == r
    decreases i
  {
    if i == 0 {
      assert s[..1] == [s[0]] && r[..1] == [r[0]];
      assert r[0] in multiset(s[..1]);
      c := seq(|s|, _ => 0);
      assert s == s[..1] + s[1..] && r == r[..1] + r[1..];
    } else {
      var j := Found(s[..i + 1], r[..i + 1]);
      var u := Swapped(s, i, j);
      SwapPrefix(s, r, i, j);
      var d := StepsSurjective(u, r, i - 1);
      c := d[i := j];
      SameSteps(u, c, d, i - 1);
    }
  }

  lemma Found<T>(s: seq<T>, r: seq<T>) returns (j: nat)
    requires r != [] && multiset(s) == multiset(r)
    ensures j < |s| && s[j] == r[|r| - 1]
  {
    assert r[|r| - 1] in multiset(r);
    assert r[|r| - 1] in s;
    j :| j < |s| && s[j] == r[|r| - 1];
  }

  lemma SwapPermutes<T>(s: seq<T>, i: nat, j: nat)
    requires i < |s| && j < |s|
    ensures multiset(Swapped(s, i, j)) == multiset(s)
  {
  }

  lemma ButLast<T>(s: seq<T>)
    requires s != []
    ensures multiset(s[..|s| - 1]) == multiset(s) - multiset{s[|s| - 1]}
  {
    assert s == s[..|s| - 1] + [s[|s| - 1]];
  }

  lemma SwapPrefix<T>(s: seq<T>, r: seq<T>, i: nat, j: nat)
    requires 0 < i < |s| == |r| && j <= i && s[j] == r[i]
    requires multiset(s[..i + 1]) == multiset(r[..i + 1]) && s[i + 1..] == r[i + 1..]
    ensures var u := Swapped(s, i, j); multiset(u[..i]) == multiset(r[..i]) && u[i..] == r[i..]
  {
    hide Swapped;
    var v, w := Swapped(s[..i + 1], i, j), r[..i + 1];
    SwapPermutes(s[..i + 1], i, j);
    SwapTake(s, i, j);
    ButLast(v);
    ButLast(w);
    assert w[..i] == r[..i] && r[i..] == [r[i]] + r[i + 1..];
  }

  lemma SwapTake<T>(s: seq<T>, i: nat, j: nat)
    requires i < |s| && j <= i
    ensures var v, u := Swapped(s[..i + 1], i, j), Swapped(s, i, j);
      |v| == i + 1 && v[i] == s[j] && v[..i] == u[..i] && u[i..] == [s[j]] + s[i + 1..]
  {
  }

  lemma {:induction false} SameSteps<T>(s: seq<T>, c: seq<nat>, d: seq<nat>, i: nat)
    requires Choices(c, |s|) && Choices(d, |s|) && i < |s| && c[..i + 1] == d[..i + 1]
    ensures Steps(s, c, i) == Steps(s, d, i)
    decreases i
  {
    assert c[..i + 1][i] == c[i] && d[..i + 1][i] == d[i];
    if i > 0 {
      assert c[..i + 1][..i] == c[..i] && d[..i + 1][..i] == d[..i];
      SameSteps(Swapped(s, i, c[i]), c, d, i - 1);
    }
  }

  lemma ShuffledSurjective<T>(s: seq<T>, r: seq<T>) returns (c: seq<nat>)
    requires multiset(s) == multiset(r)
    ensures Choices(c, |s|) && Shuffled(s, c) == r
  {
    assert |s| == |multiset(s)| && |r| == |multiset(r)|;
    if s == [] {
      c := [];
    } else {
      assert s[..|s|] == s && r[..|r|] == r;
      c := StepsSurjective(s, r, |s| - 1);
    }
  }

  /** The choice at position `i` is the next draw modulo `i + 1`. */
  function Drawn(draws: seq<nat>, n: nat): (c: seq<nat>)
    requires |draws| >= n
    ensures Choices(c, n)
  {
    seq(n, i requires 0 <= i < n => draws[n - 1 - i] % (i + 1))
  }

  method Exchange<T>(a: array<T>, i: nat, j: nat)
    requires i < a.Length && j < a.Length
    modifies a
    ensures a[..] == Swapped(old(a[..]), i, j)
  {
    var tmp := a[i];
    a[i] := a[j];
    a[j] := tmp;
  }

  /** `$rnd_shuffle`. */
  method ShuffleInPlace<T>(a: array<T>, draws: seq<nat>)
    requires |draws| >= a.Length
    modifies a
    ensures a[..] == Shuffled(old(a[..]), Drawn(draws, a.Length))
  {
    hide Swapped;
    ghost var c := Drawn(draws, a.Length);
    var i := a.Length - 1;
    var k := 0;
    while i > 0
      invariant k == a.Length - 1 - i && -1 <= i
      invariant i >= 0 ==> Steps(a[..], c, i) == Shuffled(old(a[..]), c)
      invariant i < 0 ==> a.Length == 0
    {
      var j := draws[k] % (i + 1);
      assert c[i] == j;
      Exchange(a, i, j);
      i := i - 1;
      k := k + 1;
    }
    assert i == 0 ==> Steps(a[..], c, 0) == a[..];
    assert i < 0 ==> old(a[..]) == [] && a[..] == [];
  }
}
