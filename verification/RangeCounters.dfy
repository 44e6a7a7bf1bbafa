/** Range loops (src/codegen.rs), whose hidden counter the compiled code steps without a
    check: exactly when it wraps, and exactly when a loop that wraps ends. */
module RangeCounters {
  import opened Syntax
  import opened Values
  import opened MachineIntegers
  import opened SlotChoice
  import opened PythonSemantics
  import opened Departures

  // ---------------------------------------------------------- the last counter

  function CeilQuotient(n: int, d: int): int
    requires d > 0
  {
    (n + d - 1) / d
  }

  /** The value of the counter when the loop ends, if nothing wraps. */
  function Last(c: int, end: int, step: int): int
    requires step != 0
  {
    if Exhausted(c, end, step) then c
    else if step > 0 then c + CeilQuotient(end - c, step) * step
    else c + CeilQuotient(c - end, -step) * step
  }

  /** What a caller can check: the final counter fits 32 bits. */
  predicate Stays(c: int, end: int, step: int)
    requires step != 0
  {
    Fits(Last(c, end, step))
  }

  lemma CeilStep(n: int, d: int)
    requires d > 0 && n > 0
    ensures CeilQuotient(n, d) == if n <= d then 1 else 1 + CeilQuotient(n - d, d)
    ensures CeilQuotient(n, d) >= 1
  {
    if n <= d {
      UniqueQuotient(n + d - 1, d, 1, n - 1);
    } else {
      var q := (n - 1) / d;
      assert n - 1 == d * q + (n - 1) % d;
      assert d * (q + 1) == d * q + d;
      UniqueQuotient(n + d - 1, d, q + 1, (n - 1) % d);
      NonNegativeQuotient(n - 1, d);
    }
  }

  lemma NonNegativeQuotient(n: int, d: int)
    requires n >= 0 && d > 0
    ensures n / d >= 0
  {
  }

  lemma LastStep(c: int, end: int, step: int)
    requires step != 0 && !Exhausted(c, end, step)
    ensures Last(c, end, step) == Last(c + step, end, step)
    ensures step > 0 ==> Last(c, end, step) >= c + step
    ensures step < 0 ==> Last(c, end, step) <= c + step
  {
    var d := if step > 0 then step else -step;
    var n := if step > 0 then end - c else c - end;
    CeilStep(n, d);
    var k := CeilQuotient(n, d);
    assert k * step == step + (k - 1) * step;
    ScaledSign(k - 1, step);
  }

  lemma ScaledSign(k: int, step: int)
    requires k >= 0
    ensures step > 0 ==> k * step >= 0
    ensures step < 0 ==> k * step <= 0
  {
  }

  /** Near the end of the 32-bit range it is enough to look at the end and the step. */
  lemma StaysNear(c: int, end: int, step: int)
    requires step != 0 && Fits(c) && Fits(if step > 0 then end - 1 + step else end + 1 + step)
    ensures Stays(c, end, step)
  {
    if !Exhausted(c, end, step) {
      var d := if step > 0 then step else -step;
      var n := Distance(c, end, step);
      var k := CeilQuotient(n, d);
      assert n + d - 1 == d * k + (n + d - 1) % d;
      assert k * step == if step > 0 then d * k else -(d * k);
    }
  }

  function Distance(c: int, end: int, step: int): int { if step > 0 then end - c else c - end }

  // ------------------------------------------------------------ whole loops

  predicate Wraps(y: Outcome) { y.Stopped? && y.error == Departs(CounterWrap) }

  /** Some pass of this run wraps a counter of the body's own. */
  predicate WrapsInside(x: string, c: int, end: int, step: int, body: Block, w: World, o: Oracle, env: Env, fuel: nat)
    decreases fuel
  {
    !Exhausted(c, end, step) &&
    var y := ExecBlock(body, Bind(w, x, VInt(c)), o, Watching(env, false), fuel);
    Wraps(y) || (PassOf(y).Again? && fuel > 0 && Fits(c + step) && WrapsInside(x, c + step, end, step, body, PassOf(y).world, o, env, fuel - 1))
  }

  /** A counter that stays in range never wraps, whatever the body does; only the body's own
      loops can. */
  lemma {:induction false} StaysSafe(x: string, c: int, end: int, step: int, body: Block, w: World, o: Oracle, env: Env, fuel: nat)
    requires step != 0 && Fits(c) && Stays(c, end, step)
    ensures Wraps(ExecRange(x, c, end, step, body, w, o, Watching(env, false), fuel)) <==> WrapsInside(x, c, end, step, body, w, o, env, fuel)
    decreases fuel
  {
    hide ExecBlock, Last;
    if !Exhausted(c, end, step) {
      LastStep(c, end, step);
      var y := ExecBlock(body, Bind(w, x, VInt(c)), o, Watching(env, false), fuel);
      var p := PassOf(y);
      if p.Again? && fuel > 0 { StaysSafe(x, c + step, end, step, body, p.world, o, env, fuel - 1); }
    }
  }

  /** In this run no pass leaves the loop, fails or runs on for ever. */
  predicate GoesOn(x: string, c: int, end: int, step: int, body: Block, w: World, o: Oracle, r: Rules, fuel: nat)
    decreases fuel
  {
    Exhausted(c, end, step) ||
    var p, d := PassOf(ExecBlock(body, Bind(w, x, VInt(c)), o, r, fuel)), Stepped(c, step, r);
    p.Again? && (fuel > 0 && d.Num? ==> GoesOn(x, d.n, end, step, body, p.world, o, r, fuel - 1))
  }

  /** With enough fuel a loop whose passes go on wraps its counter exactly when the last
      counter does not fit. */
  lemma {:induction false} OverflowsExactly(x: string, c: int, end: int, step: int, body: Block, w: World, o: Oracle, env: Env, fuel: nat)
    requires step != 0 && Fits(c) && fuel >= Distance(c, end, step) && GoesOn(x, c, end, step, body, w, o, Watching(env, false), fuel)
    ensures var y := ExecRange(x, c, end, step, body, w, o, Watching(env, false), fuel);
      (Wraps(y) <==> !Stays(c, end, step)) && (y.Next? <==> Stays(c, end, step))
    decreases fuel
  {
    if !Exhausted(c, end, step) {
      hide Last, ExecBlock;
      LastStep(c, end, step);
      var p := PassOf(ExecBlock(body, Bind(w, x, VInt(c)), o, Watching(env, false), fuel));
      if Fits(c + step) { OverflowsExactly(x, c + step, end, step, body, p.world, o, env, fuel - 1); }
    }
  }

  /** Python, whose counters do not wrap, ends such a loop. */
  lemma {:induction false} PythonEnds(x: string, c: int, end: int, step: int, body: Block, w: World, o: Oracle, env: Env, fuel: nat)
    requires step != 0 && fuel >= Distance(c, end, step) && GoesOn(x, c, end, step, body, w, o, Rules(Python, env, false), fuel)
    ensures ExecRange(x, c, end, step, body, w, o, Rules(Python, env, false), fuel).Next?
    decreases fuel
  {
    if !Exhausted(c, end, step) {
      hide ExecBlock;
      var p := PassOf(ExecBlock(body, Bind(w, x, VInt(c)), o, Rules(Python, env, false), fuel));
      PythonEnds(x, c + step, end, step, body, p.world, o, env, fuel - 1);
    }
  }

  // ------------------------------------------- the compiled counter going round

  const WORD: int := 0x1_0000_0000

  /** The compiled counter after `k` passes. */
  function Visited(c: int, step: int, k: nat): int { Wrap32(c + k * step) }

  /** The largest power of two that divides the step. */
  function PowerIn(n: int): (g: int)
    requires n != 0
    ensures g > 0
    decreases if n < 0 then -n else n
  {
    if n % 2 == 0 then 2 * PowerIn(n / 2) else 1
  }

  lemma {:induction false} OddPart(n: int) returns (s: int)
    requires n != 0
    ensures n == PowerIn(n) * s && s % 2 != 0
    decreases if n < 0 then -n else n
  {
    if n % 2 == 0 {
      s := OddPart(n / 2);
      assert 2 * (PowerIn(n / 2) * s) == (2 * PowerIn(n / 2)) * s;
    } else {
      s := n;
    }
  }

  function Two(e: nat): int { if e == 0 then 1 else 2 * Two(e - 1) }

  lemma TwoWord()
    ensures Two(32) == WORD
  {
    assert Two(8) == 0x100;
    assert Two(16) == 0x1_0000;
    assert Two(24) == 0x100_0000;
  }

  lemma {:induction false} PowerDivides(n: int, e: nat) returns (h: int)
    requires n != 0 && -Two(e) <= n <= Two(e)
    ensures PowerIn(n) * h == Two(e)
    decreases e
  {
    if n % 2 == 0 {
      h := PowerDivides(n / 2, e - 1);
      assert (2 * PowerIn(n / 2)) * h == 2 * (PowerIn(n / 2) * h);
    } else {
      h := Two(e);
    }
  }

  /** Odd numbers have an inverse modulo a power of two. */
  lemma {:induction false} Inverse(s: int, e: nat) returns (i: int, z: int)
    requires s % 2 != 0
    ensures s * i == 1 + Two(e) * z
    decreases e
  {
    if e == 0 {
      i, z := 1, s - 1;
    } else {
      var j, y := Inverse(s, e - 1);
      var t := Two(e - 1);
      if y % 2 == 0 {
        i, z := j, y / 2;
        Halve(t, z);
      } else {
        i, z := j + t, (y + s) / 2;
        Lift(s, j, t, z);
      }
    }
  }

  lemma Halve(t: int, z: int)
    ensures t * (2 * z) == (2 * t) * z
  {
  }

  lemma Lift(s: int, j: int, t: int, z: int)
    requires s * j == 1 + t * (2 * z - s)
    ensures s * (j + t) == 1 + (2 * t) * z
  {
    assert s * (j + t) == s * j + s * t;
    assert t * (2 * z - s) == t * (2 * z) - t * s;
    Halve(t, z);
  }

  lemma WrapTurns(n: int) returns (q: int)
    ensures Wrap32(n) == n - q * WORD && Fits(Wrap32(n))
  {
    q := (n + 0x8000_0000) / WORD;
  }

  lemma WrapFound(n: int, v: int, q: int)
    requires Fits(v) && n == v + q * WORD
    ensures Wrap32(n) == v
  {
    var p := WrapTurns(n);
  }

  lemma VisitedNext(c: int, step: int, k: nat)
    ensures Wrap32(Visited(c, step, k) + step) == Visited(c, step, k + 1)
  {
    hide Wrap;
    assert c + (k + 1) * step == c + k * step + step;
    var p := WrapTurns(c + k * step);
    var q := WrapTurns(c + (k + 1) * step);
    WrapFound(Visited(c, step, k) + step, Visited(c, step, k + 1), q - p);
  }

  /** A number the counter can take lies a multiple of the power of two from its start. */
  lemma VisitedNear(c: int, step: int, k: nat) returns (m: int)
    requires step != 0 && Fits(step)
    ensures Visited(c, step, k) == c + PowerIn(step) * m && Fits(Visited(c, step, k))
  {
    hide Wrap, PowerIn, Two;
    TwoWord();
    var g := PowerIn(step);
    var s := OddPart(step);
    var h := PowerDivides(step, 32);
    var q := WrapTurns(c + k * step);
    m := k * s - q * h;
    assert k * step == g * (k * s) && q * WORD == g * (q * h);
    assert g * (k * s - q * h) == g * (k * s) - g * (q * h);
  }

  /** And every such number is taken. */
  lemma VisitedAll(c: int, step: int, t: int) returns (k: nat)
    requires step != 0 && Fits(step) && Fits(c + PowerIn(step) * t)
    ensures k < WORD && Visited(c, step, k) == c + PowerIn(step) * t
  {
    hide Wrap, PowerIn, Two;
    TwoWord();
    var g := PowerIn(step);
    var s := OddPart(step);
    var i, z := Inverse(s, 32);
    var n := t * i;
    k := n % WORD;
    var q := n / WORD;
    assert k == n - q * WORD;
    Product(g, s, t, i, z, q);
    WrapFound(c + k * step, c + g * t, g * t * z - q * (g * s));
  }

  lemma Product(g: int, s: int, t: int, i: int, z: int, q: int)
    requires s * i == 1 + WORD * z
    ensures (t * i - q * WORD) * (g * s) == g * t + (g * t * z - q * (g * s)) * WORD
  {
    assert (t * i) * (g * s) == (g * t) * (s * i);
    assert (g * t) * (1 + WORD * z) == g * t + (g * t * z) * WORD;
    assert (q * WORD) * (g * s) == (q * (g * s)) * WORD;
    assert (t * i - q * WORD) * (g * s) == (t * i) * (g * s) - (q * WORD) * (g * s);
  }

  /** The number closest to the end of the 32-bit range that the counter takes. */
  function Farthest(c: int, step: int): int
    requires step != 0
  {
    if step > 0 then I32_MAX - (I32_MAX - c) % PowerIn(step) else I32_MIN + (c - I32_MIN) % PowerIn(step)
  }

  /** What a caller can check: going round, the counter meets the end. */
  predicate ComesOut(c: int, end: int, step: int)
    requires step != 0
  {
    Exhausted(Farthest(c, step), end, step)
  }

  lemma FarthestNear(c: int, step: int) returns (t: int)
    requires step != 0 && Fits(c)
    ensures Farthest(c, step) == c + PowerIn(step) * t && Fits(Farthest(c, step))
    ensures forall m :: Fits(c + PowerIn(step) * m) ==> if step > 0 then m <= t else m >= t
  {
    hide PowerIn;
    var g := PowerIn(step);
    var d := if step > 0 then I32_MAX - c else c - I32_MIN;
    assert d == g * (d / g) + d % g;
    NonNegativeQuotient(d, g);
    t := if step > 0 then d / g else -(d / g);
    assert g * -(d / g) == -(g * (d / g));
    NonNegative(g, d / g);
    forall m | Fits(c + g * m) ensures if step > 0 then m <= t else m >= t {
      if step > 0 && m > t { Ordered(g, t, m); }
      if step < 0 && m < t { Ordered(g, m, t); }
    }
  }

  lemma Ordered(d: int, j: int, k: int)
    requires d > 0 && j < k
    ensures d * j + d <= d * k
  {
    assert d * k == d * (k - j - 1) + d * j + d;
    NonNegative(d, k - j - 1);
  }

  lemma NonNegative(d: int, n: int)
    requires d > 0 && n >= 0
    ensures d * n >= 0
  {
  }

  lemma NoneBeyond(c: int, end: int, step: int, k: nat)
    requires step != 0 && Fits(step) && Fits(c) && !ComesOut(c, end, step)
    ensures !Exhausted(Visited(c, step, k), end, step)
  {
    hide Wrap, PowerIn;
    var g := PowerIn(step);
    var t := FarthestNear(c, step);
    var m := VisitedNear(c, step, k);
    assert Fits(c + g * m);
    if step > 0 && m < t { Ordered(g, m, t); }
    if step < 0 && t < m { Ordered(g, t, m); }
  }

  lemma {:induction false} RoundAndRound(x: string, c: int, end: int, step: int, k: nat, body: Block, w: World, o: Oracle, env: Env, fuel: nat)
    requires step != 0 && Fits(step) && Fits(c) && !ComesOut(c, end, step)
    requires GoesOn(x, Visited(c, step, k), end, step, body, w, o, Rules(Compiled, env, false), fuel)
    ensures ExecRange(x, Visited(c, step, k), end, step, body, w, o, Rules(Compiled, env, false), fuel).Timeout?
    decreases fuel
  {
    hide ExecBlock, Visited, ComesOut, Exhausted;
    NoneBeyond(c, end, step, k);
    var v := Visited(c, step, k);
    var p := PassOf(ExecBlock(body, Bind(w, x, VInt(v)), o, Rules(Compiled, env, false), fuel));
    VisitedNext(c, step, k);
    if fuel > 0 { RoundAndRound(x, c, end, step, k + 1, body, p.world, o, env, fuel - 1); }
  }

  lemma {:induction false} OutAtLast(x: string, c: int, end: int, step: int, k: nat, n: nat, body: Block, w: World, o: Oracle, env: Env, fuel: nat)
    requires step != 0 && k <= n && fuel >= n - k && Exhausted(Visited(c, step, n), end, step)
    requires GoesOn(x, Visited(c, step, k), end, step, body, w, o, Rules(Compiled, env, false), fuel)
    ensures ExecRange(x, Visited(c, step, k), end, step, body, w, o, Rules(Compiled, env, false), fuel).Next?
    decreases fuel
  {
    hide ExecBlock, Visited, Exhausted;
    var v := Visited(c, step, k);
    if !Exhausted(v, end, step) {
      var p := PassOf(ExecBlock(body, Bind(w, x, VInt(v)), o, Rules(Compiled, env, false), fuel));
      VisitedNext(c, step, k);
      OutAtLast(x, c, end, step, k + 1, n, body, p.world, o, env, fuel - 1);
    }
  }

  /** The compiled loop, its counter wrapping as often as it may, ends exactly when one of the
      numbers it can take is past the end; if none is, it runs for ever. */
  lemma CodeEndsExactly(x: string, c: int, end: int, step: int, body: Block, w: World, o: Oracle, env: Env, fuel: nat)
    requires step != 0 && Fits(step) && Fits(c) && GoesOn(x, c, end, step, body, w, o, Rules(Compiled, env, false), fuel)
    ensures var y := ExecRange(x, c, end, step, body, w, o, Rules(Compiled, env, false), fuel);
      if ComesOut(c, end, step) then fuel >= WORD ==> y.Next? else y.Timeout?
  {
    hide ExecRange, GoesOn, ComesOut, PowerIn, Farthest, Wrap;
    assert Visited(c, step, 0) == c by { WrapFound(c + 0 * step, c, 0); }
    if ComesOut(c, end, step) {
      var t := FarthestNear(c, step);
      var n := VisitedAll(c, step, t);
      assert Exhausted(Visited(c, step, n), end, step) by { Met(c, end, step); }
      if fuel >= WORD { OutAtLast(x, c, end, step, 0, n, body, w, o, env, fuel); }
    } else {
      RoundAndRound(x, c, end, step, 0, body, w, o, env, fuel);
    }
  }

  lemma Met(c: int, end: int, step: int)
    requires step != 0 && ComesOut(c, end, step)
    ensures Exhausted(Farthest(c, step), end, step)
  {
  }

  /** An odd step always comes out, if late; a counter that stays in range comes out in
      time. */
  lemma OddComesOut(c: int, end: int, step: int)
    requires Fits(c) && Fits(end) && step != 0
    ensures step % 2 != 0 ==> ComesOut(c, end, step)
    ensures Stays(c, end, step) ==> ComesOut(c, end, step)
  {
    hide PowerIn, Farthest, Stays, Last;
    if step % 2 != 0 { OddPower(c, step); }
    if Stays(c, end, step) {
      var t := FarthestNear(c, step);
      var m := LastNear(c, end, step);
      if step > 0 && m < t { Ordered(PowerIn(step), m, t); }
      if step < 0 && t < m { Ordered(PowerIn(step), t, m); }
    }
  }

  lemma OddPower(c: int, step: int)
    requires step % 2 != 0
    ensures Farthest(c, step) == if step > 0 then I32_MAX else I32_MIN
  {
  }

  lemma LastNear(c: int, end: int, step: int) returns (m: int)
    requires step != 0 && Fits(c) && Stays(c, end, step)
    ensures Fits(c + PowerIn(step) * m) && Exhausted(c + PowerIn(step) * m, end, step)
  {
    hide PowerIn, CeilQuotient;
    var s := OddPart(step);
    var d := if step > 0 then step else -step;
    var n := Distance(c, end, step);
    var k := if Exhausted(c, end, step) then 0 else CeilQuotient(n, d);
    m := k * s;
    Regrouped(PowerIn(step), k, s);
    assert Last(c, end, step) == c + k * step;
    if !Exhausted(c, end, step) {
      Reaches(n, d);
      assert k * step == if step > 0 then d * k else -(d * k);
    }
  }

  lemma Regrouped(g: int, k: int, s: int)
    ensures g * (k * s) == k * (g * s)
  {
  }

  /** The quotient rounded up reaches. */
  lemma Reaches(n: int, d: int)
    requires d > 0
    ensures d * CeilQuotient(n, d) >= n
  {
    assert n + d - 1 == d * CeilQuotient(n, d) + (n + d - 1) % d;
  }
}
