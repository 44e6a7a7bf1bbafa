/** Machine integers: arithmetic that wraps, the checks of the emitted runtime
    (src/codegen.rs) that decide where to trap, and why the results are Python's. */
module MachineIntegers {
  import opened Syntax
  import opened Values

  function Wrap(n: int, half: int): int
    requires half > 0
  {
    (n + half) % (2 * half) - half
  }

  function Wrap31(n: int): int { Wrap(n, 0x4000_0000) }
  function Wrap32(n: int): int { Wrap(n, 0x8000_0000) }
  function Wrap64(n: int): int { Wrap(n, 0x8000_0000_0000_0000) }

  /** Division towards zero, as `i32.div_s` does it. */
  function TruncQuotient(a: int, b: int): int
    requires b != 0
  {
    if (a < 0) == (b < 0) then Abs(a) / Abs(b) else -(Abs(a) / Abs(b))
  }

  function Abs(a: int): nat { if a < 0 then -a else a }

  function TruncRemainder(a: int, b: int): int
    requires b != 0
  {
    a - b * TruncQuotient(a, b)
  }

  /** Division rounding towards minus infinity. */
  function FloorQuotient(x: int, y: int): int
    requires y != 0
  {
    if y > 0 then x / y else (-x) / (-y)
  }

  function FloorRemainder(x: int, y: int): int
    requires y != 0
  {
    x - y * FloorQuotient(x, y)
  }

  /** `$ck32` on a 64-bit intermediate. */
  function Ck32(r: int): Num { if Wrap32(r) != r then NoNum(Overflow) else Num(Wrap32(r)) }

  function Widened(op: BinOp, x: int, y: int): Num {
    match op
    case Add => Ck32(Wrap64(x + y))
    case Sub => Ck32(Wrap64(x - y))
    case _ => Ck32(Wrap64(x * y))
  }

  /** `$i32_floordiv`; the division itself traps on -2^31 / -1. */
  function I32FloorDiv(a: int, b: int): Num {
    if b == 0 then NoNum(ZeroDivision)
    else if a == I32_MIN && b == -1 then NoNum(Overflow)
    else
      var q := TruncQuotient(a, b);
      Num(if TruncRemainder(a, b) != 0 && (a < 0) != (b < 0) then Wrap32(q - 1) else q)
  }

  /** `$i32_floormod`. */
  function I32FloorMod(a: int, b: int): Num {
    if b == 0 then NoNum(ZeroDivision)
    else
      var r := TruncRemainder(a, b);
      Num(if r != 0 && (r < 0) != (b < 0) then Wrap32(r + b) else r)
  }

  // -------------------------------------------------------------------- laws

  lemma WrapExact(n: int, half: int)
    requires half > 0
    ensures -half <= Wrap(n, half) < half
    ensures Wrap(n, half) == n <==> -half <= n < half
  {
    if -half <= n < half { SmallModulus(n + half, 2 * half); }
  }

  lemma SmallModulus(n: nat, d: int)
    requires n < d
    ensures n % d == n
  {
  }

  lemma ProductFits64(x: int, y: int)
    requires Fits(x) && Fits(y)
    ensures -0x4000_0000_0000_0000 <= x * y <= 0x4000_0000_0000_0000
  {
    var a: int, b: int := Abs(x), Abs(y);
    assert a <= 0x8000_0000 && b <= 0x8000_0000;
    Multiply(a, b, 0x8000_0000);
    assert x * y == a * b || x * y == -(a * b);
  }

  lemma Multiply(a: nat, b: nat, n: nat)
    requires a <= n && b <= n
    ensures a * b <= n * n
  {
  }

  /** A checked 64-bit operation yields the exact result or traps; it never wraps. */
  lemma WidenedExact(op: BinOp, x: int, y: int)
    requires op in {Add, Sub, Mul} && Fits(x) && Fits(y)
    ensures var exact := if op == Add then x + y else if op == Sub then x - y else x * y;
      Widened(op, x, y) == if Fits(exact) then Num(exact) else NoNum(Overflow)
  {
    hide Wrap;
    ProductFits64(x, y);
    var exact := if op == Add then x + y else if op == Sub then x - y else x * y;
    WrapExact(exact, 0x8000_0000_0000_0000);
    WrapExact(exact, 0x8000_0000);
  }

  lemma INegExact(x: int)
    requires Fits(x)
    ensures Ck32(Wrap64(0 - x)) == if Fits(-x) then Num(-x) else NoNum(Overflow)
  {
    hide Wrap;
    WrapExact(-x, 0x8000_0000_0000_0000);
    WrapExact(-x, 0x8000_0000);
  }

  /** Truncating division corrected by one is division towards minus infinity. */
  lemma FloorDivExact(a: int, b: int)
    requires Fits(a) && Fits(b)
    ensures I32FloorDiv(a, b) ==
            if b == 0 then NoNum(ZeroDivision)
            else if Fits(FloorQuotient(a, b)) then Num(FloorQuotient(a, b)) else NoNum(Overflow)
  {
    hide TruncQuotient, TruncRemainder, FloorQuotient, Wrap;
    if b != 0 {
      FloorFromTrunc(a, b);
      FloorQuotientFits(a, b);
      WrapExact(TruncQuotient(a, b) - 1, 0x8000_0000);
    }
  }

  /** The remainder takes the divisor's sign. */
  lemma FloorModExact(a: int, b: int)
    requires Fits(a) && Fits(b)
    ensures I32FloorMod(a, b) == if b == 0 then NoNum(ZeroDivision) else Num(FloorRemainder(a, b))
    ensures b != 0 ==> Fits(FloorRemainder(a, b))
  {
    hide TruncRemainder, FloorRemainder, Wrap;
    if b != 0 {
      RemainderFromTrunc(a, b);
      RemainderBound(a, b);
      WrapExact(FloorRemainder(a, b), 0x8000_0000);
    }
  }

  lemma DivMod(a: nat, b: nat)
    requires b > 0
    ensures a == b * (a / b) + a % b && 0 <= a % b < b
  {
  }

  lemma UniqueQuotient(a: int, b: int, q: int, r: int)
    requires b > 0 && a == b * q + r && 0 <= r < b
    ensures a / b == q
  {
    var p := a / b;
    assert a == b * p + a % b;
    assert b * (p - q) == b * p - b * q;
    if p > q { ScaleUp(b, p - q); }
    if p < q { ScaleUp(b, q - p); }
  }

  lemma ScaleUp(b: int, k: int)
    requires b > 0 && k >= 1
    ensures b * k >= b && b * (-k) <= -b
  {
  }

  lemma SignedProduct(b: int, p: int)
    ensures b >= 0 ==> b * p == Abs(b) * p && b * (-p) == -(Abs(b) * p)
    ensures b < 0 ==> b * p == -(Abs(b) * p) && b * (-p) == Abs(b) * p
  {
  }

  /** The truncated remainder has the dividend's sign. */
  lemma TruncRemainderIs(a: int, b: int)
    requires b != 0
    ensures TruncRemainder(a, b) == if a < 0 then -(Abs(a) % Abs(b)) else Abs(a) % Abs(b)
  {
    DivMod(Abs(a), Abs(b));
    SignedProduct(b, Abs(a) / Abs(b));
  }

  lemma NegatedDivision(x: int, y: int)
    requires x >= 0 && y > 0
    ensures (-x) / y == if x % y == 0 then -(x / y) else -(x / y) - 1
  {
    var p: int := x / y;
    var r: int := x % y;
    DivMod(x, y);
    SignedProduct(y, p);
    if r == 0 {
      UniqueQuotient(-x, y, -p, 0);
    } else {
      SignedProduct(y, p + 1);
      assert y * (p + 1) == y * p + y;
      UniqueQuotient(-x, y, -p - 1, y - r);
    }
  }

  lemma FloorFromTrunc(a: int, b: int)
    requires b != 0
    ensures var q := TruncQuotient(a, b);
      FloorQuotient(a, b) == if TruncRemainder(a, b) != 0 && (a < 0) != (b < 0) then q - 1 else q
  {
    TruncRemainderIs(a, b);
    NegatedDivision(Abs(a), Abs(b));
  }

  lemma QuotientBound(a: int, b: int)
    requires Fits(a) && Fits(b) && b != 0
    ensures Abs(TruncQuotient(a, b)) <= Abs(a)
    ensures Abs(b) >= 2 ==> 2 * Abs(TruncQuotient(a, b)) <= Abs(a)
  {
    var x, y := Abs(a), Abs(b);
    SmallerQuotient(x, y);
    assert Abs(TruncQuotient(a, b)) == x / y by { PositiveQuotient(x, y); }
    if y >= 2 { HalvedQuotient(x, y); }
  }

  lemma PositiveQuotient(x: int, y: int)
    requires x >= 0 && y > 0
    ensures x / y >= 0
  {
  }

  lemma FloorQuotientFits(a: int, b: int)
    requires Fits(a) && Fits(b) && b != 0
    ensures Fits(FloorQuotient(a, b)) <==> !(a == I32_MIN && b == -1)
    ensures !(a == I32_MIN && b == -1) ==> -0x8000_0000 <= TruncQuotient(a, b) <= 0x7fff_ffff
  {
    FloorFromTrunc(a, b);
    QuotientBound(a, b);
    if b != 1 && b != -1 {
      hide TruncQuotient, TruncRemainder, FloorQuotient;
    }
  }

  lemma SmallerQuotient(x: nat, y: nat)
    requires y > 0
    ensures x / y <= x
  {
    DivMod(x, y);
    assert y * (x / y) == (x / y) + (y - 1) * (x / y);
    NonNegative(y - 1, x / y);
  }

  lemma HalvedQuotient(x: nat, y: nat)
    requires y >= 2
    ensures 2 * (x / y) <= x
  {
    DivMod(x, y);
    var q := x / y;
    assert y * q == 2 * q + (y - 2) * q;
    NonNegative(y - 2, q);
  }

  lemma NonNegative(a: nat, b: nat)
    ensures a * b >= 0
  {
  }

  lemma RemainderBound(a: int, b: int)
    requires b != 0
    ensures b > 0 ==> 0 <= FloorRemainder(a, b) < b
    ensures b < 0 ==> b < FloorRemainder(a, b) <= 0
  {
    if b > 0 {
      assert a == b * (a / b) + a % b;
    } else {
      var n, y := -a, -b;
      assert n == y * (n / y) + n % y;
      assert b * (n / y) == -(y * (n / y));
    }
  }

  lemma RemainderFromTrunc(a: int, b: int)
    requires b != 0
    ensures var r := TruncRemainder(a, b);
      FloorRemainder(a, b) == if r != 0 && (r < 0) != (b < 0) then r + b else r
  {
    hide FloorQuotient, TruncQuotient;
    FloorFromTrunc(a, b);
    TruncRemainderIs(a, b);
    var q := TruncQuotient(a, b);
    assert b * (q - 1) == b * q - b;
  }
}
