/** Float layout (src/floatfmt.rs): the digits and exponent of a shortest-digits text are
    laid out again the way CPython does, without changing the number. */
module FloatText {
  import opened MachineIntegers
  import opened IntegerText

  // ------------------------------------------------------- reading a decimal text

  function Pow10(e: int): (r: real)
    ensures r > 0.0
    decreases if e < 0 then -e else e
  {
    if e == 0 then 1.0 else if e > 0 then 10.0 * Pow10(e - 1) else Pow10(e + 1) / 10.0
  }

  /** The first position of `c`, or the length. */
  function IndexOf(s: string, c: char): (i: nat)
    ensures i <= |s| && (i < |s| ==> s[i] == c)
  {
    if s == [] || s[0] == c then 0 else 1 + IndexOf(s[1..], c)
  }

  function Mantissa(s: string): string { s[..IndexOf(s, 'e')] }

  function ExponentText(s: string): string { if IndexOf(s, 'e') < |s| then s[IndexOf(s, 'e') + 1..] else "" }

  function Whole(m: string): string { m[..IndexOf(m, '.')] }

  function Fraction(m: string): string { if IndexOf(m, '.') < |m| then m[IndexOf(m, '.') + 1..] else "" }

  function Num(ds: string): nat { if AllDigits(ds) then NumberOf(ds) else 0 }

  function ExponentOf(t: string): int {
    if t == "" then 0 else if t[0] == '-' then -(Num(t[1..]) as int) else if t[0] == '+' then Num(t[1..]) else Num(t)
  }

  /** The number an unsigned decimal text denotes. */
  function Magnitude(s: string): real {
    var m := Mantissa(s);
    Num(Whole(m) + Fraction(m)) as real * Pow10(ExponentOf(ExponentText(s)) - |Fraction(m)|)
  }

  /** What the digit generator emits: digits, perhaps a point and digits, perhaps an
      exponent. */
  predicate RyuShaped(s: string) {
    var m := Mantissa(s);
    && Whole(m) != "" && AllDigits(Whole(m)) && AllDigits(Fraction(m))
    && forall i :: 0 <= i < |s| ==> s[i] != 'E'
  }

  // ------------------------------------------------------------- powers of ten

  lemma {:induction false} PowStep(e: int)
    ensures Pow10(e + 1) == 10.0 * Pow10(e)
  {
  }

  lemma {:induction false} PowSum(a: int, k: nat)
    ensures Pow10(a + k) == Pow10(a) * Pow10(k)
    decreases k
  {
    if k > 0 {
      PowSum(a, k - 1);
      PowStep(a + k - 1);
      Assoc(Pow10(a), Pow10(k - 1));
    }
  }

  lemma Assoc(x: real, y: real)
    ensures 10.0 * (x * y) == x * (10.0 * y)
  {
  }

  lemma {:induction false} PowMonotone(a: int, b: int)
    requires a <= b
    ensures Pow10(a) <= Pow10(b)
    decreases b - a
  {
    if a < b {
      PowMonotone(a, b - 1);
      PowStep(b - 1);
    }
  }

  // --------------------------------------------------------------- digit strings

  function Zeros(k: nat): (z: string)
    ensures |z| == k && AllDigits(z)
  {
    seq(k, _ => '0')
  }

  lemma {:induction false} ZerosBefore(k: nat, ds: string)
    requires AllDigits(ds)
    ensures AllDigits(Zeros(k) + ds) && NumberOf(Zeros(k) + ds) == NumberOf(ds)
    decreases k + |ds|
  {
    var all := Zeros(k) + ds;
    if ds != [] {
      assert all[..|all| - 1] == Zeros(k) + ds[..|ds| - 1];
      ZerosBefore(k, ds[..|ds| - 1]);
    } else if k > 0 {
      assert all[..|all| - 1] == Zeros(k - 1) + ds;
      ZerosBefore(k - 1, ds);
    }
  }

  function WholePow(k: nat): (p: nat)
    ensures p > 0
  {
    if k == 0 then 1 else 10 * WholePow(k - 1)
  }

  lemma {:induction false} PowIsWhole(k: nat)
    ensures Pow10(k) == WholePow(k) as real
    decreases k
  {
    if k > 0 {
      PowIsWhole(k - 1);
      CastProduct(10, WholePow(k - 1));
    }
  }

  lemma CastProduct(a: int, b: int)
    ensures (a * b) as real == a as real * b as real
  {
  }

  lemma Regroup(a: nat, b: nat)
    ensures 10 * (a * b) == a * (10 * b)
  {
  }

  lemma {:induction false} ZerosAfter(ds: string, k: nat)
    requires AllDigits(ds)
    ensures AllDigits(ds + Zeros(k)) && NumberOf(ds + Zeros(k)) == NumberOf(ds) * WholePow(k)
    decreases k
  {
    var all := ds + Zeros(k);
    if k > 0 {
      assert all[..|all| - 1] == ds + Zeros(k - 1);
      ZerosAfter(ds, k - 1);
      assert all[|all| - 1] == '0';
      Regroup(NumberOf(ds), WholePow(k - 1));
    } else {
      assert all == ds;
    }
  }

  /** The size of a number without leading zeros. */
  lemma {:induction false} DigitBounds(ds: string)
    requires AllDigits(ds) && ds != [] && ds[0] != '0'
    ensures WholePow(|ds| - 1) <= NumberOf(ds) < WholePow(|ds|)
    decreases |ds|
  {
    var init := ds[..|ds| - 1];
    assert IsDigit(ds[|ds| - 1]);
    if init != [] {
      DigitBounds(init);
      assert WholePow(|ds| - 1) == 10 * WholePow(|init| - 1);
    } else {
      assert NumberOf(init) == 0 && WholePow(0) == 1 && WholePow(1) == 10;
    }
  }

  lemma {:induction false} IndexIs(s: string, c: char, i: nat)
    requires i <= |s| && (forall k :: 0 <= k < i ==> s[k] != c) && (i < |s| ==> s[i] == c)
    ensures IndexOf(s, c) == i
    decreases i
  {
    if i > 0 { IndexIs(s[1..], c, i - 1); }
  }

  lemma NoneOf(ds: string, c: char)
    requires AllDigits(ds) && !IsDigit(c)
    ensures forall k :: 0 <= k < |ds| ==> ds[k] != c
  {
  }

  /** Reading `a`, a mark, `b`: the mark is found, unless there is none. */
  lemma Cut(a: string, c: char, b: string)
    requires forall k :: 0 <= k < |a| ==> a[k] != c
    ensures IndexOf(a, c) == |a| && IndexOf(a + [c] + b, c) == |a|
    ensures (a + [c] + b)[..|a|] == a && (a + [c] + b)[|a| + 1..] == b
  {
    var s := a + [c] + b;
    forall k | 0 <= k < |a| ensures s[k] != c { assert s[k] == a[k]; }
    IndexIs(s, c, |a|);
    IndexIs(a, c, |a|);
  }

  function Point(frac: string): string { if frac == "" then "" else "." + frac }

  function Tail(exp: string): string { if exp == "" then "" else "e" + exp }

  lemma LaidMantissa(whole: string, frac: string)
    requires AllDigits(whole) && AllDigits(frac)
    ensures var m := whole + Point(frac);
      Whole(m) == whole && Fraction(m) == frac && forall k :: 0 <= k < |m| ==> m[k] != 'e'
  {
    NoneOf(whole, '.');
    Cut(whole, '.', frac);
    if frac == "" { assert whole + "" == whole; } else { assert whole + ("." + frac) == whole + ['.'] + frac; }
  }

  /** How a text laid out as whole, point, fraction, exponent reads back. */
  lemma Laid(whole: string, frac: string, exp: string)
    requires AllDigits(whole) && AllDigits(frac)
    ensures var m := whole + Point(frac);
      && Mantissa(m + Tail(exp)) == m && ExponentText(m + Tail(exp)) == exp
      && Whole(m) == whole && Fraction(m) == frac
  {
    hide Whole, Fraction;
    var m := whole + Point(frac);
    LaidMantissa(whole, frac);
    Cut(m, 'e', exp);
    if exp == "" { assert m + "" == m; } else { assert m + ("e" + exp) == m + ['e'] + exp; }
  }

  lemma LaidMagnitude(whole: string, frac: string, exp: string)
    requires AllDigits(whole) && AllDigits(frac)
    ensures Magnitude(whole + Point(frac) + Tail(exp)) == NumberOf(whole + frac) as real * Pow10(ExponentOf(exp) - |frac|)
  {
    hide Pow10, Mantissa, ExponentText, Whole, Fraction, ExponentOf, Point, Tail, NumberOf, AllDigits;
    Laid(whole, frac, exp);
    NumSum(whole, frac);
  }

  lemma NumSum(a: string, b: string)
    requires AllDigits(a) && AllDigits(b)
    ensures AllDigits(a + b) && Num(a + b) == NumberOf(a + b)
  {
  }

  // ------------------------------------------------------- digits and their place

  /** The digits without zeros at either end, and where the point goes: the value is
      0.d0d1... times ten to `decpt`. */
  datatype Digits = Digits(ds: string, decpt: int)

  /** The number they denote. */
  function Worth(d: Digits): real
    requires AllDigits(d.ds)
  {
    NumberOf(d.ds) as real * Pow10(d.decpt - |d.ds|)
  }

  predicate Trimmed(d: Digits) { d.ds != "" && AllDigits(d.ds) && d.ds[0] != '0' && d.ds[|d.ds| - 1] != '0' }

  /** `decpt` is the decimal exponent of the number. */
  lemma WorthBounds(d: Digits)
    requires Trimmed(d)
    ensures Pow10(d.decpt - 1) <= Worth(d) < Pow10(d.decpt)
  {
    hide Pow10, WholePow, NumberOf;
    var n := |d.ds|;
    DigitBounds(d.ds);
    PowIsWhole(n - 1);
    PowIsWhole(n);
    PowSum(d.decpt - n, n - 1);
    PowSum(d.decpt - n, n);
    CastOrder(WholePow(n - 1), NumberOf(d.ds), WholePow(n));
    ScaleOrder(WholePow(n - 1) as real, NumberOf(d.ds) as real, WholePow(n) as real, Pow10(d.decpt - n),
               Pow10(d.decpt - 1), Pow10(d.decpt));
  }

  lemma CastOrder(a: int, b: int, c: int)
    requires a <= b < c
    ensures a as real <= b as real < c as real
  {
  }

  lemma ScaleOrder(a: real, b: real, c: real, p: real, low: real, high: real)
    requires a <= b < c && p > 0.0 && low == p * a && high == p * c
    ensures low <= b * p < high
  {
  }

  /** Appending zeros and moving the point along leaves the number alone. */
  lemma ShiftZeros(ds: string, k: nat, e: int)
    requires AllDigits(ds)
    ensures AllDigits(ds + Zeros(k)) && NumberOf(ds + Zeros(k)) as real * Pow10(e) == NumberOf(ds) as real * Pow10(e + k)
  {
    hide Pow10, WholePow, NumberOf, AllDigits, Zeros;
    ZerosAfter(ds, k);
    PowIsWhole(k);
    CastProduct(NumberOf(ds), WholePow(k));
    PowSum(e, k);
    Reassociate(NumberOf(ds) as real, WholePow(k) as real, Pow10(e), NumberOf(ds + Zeros(k)) as real, Pow10(e + k));
  }

  lemma Reassociate(a: real, b: real, c: real, ab: real, cb: real)
    requires ab == a * b && cb == c * b
    ensures ab * c == a * cb
  {
  }

  // ------------------------------------------------------------------ extraction

  function FirstNonzero(s: string): (i: nat)
    ensures i <= |s| && (forall k :: 0 <= k < i ==> s[k] == '0') && (i < |s| ==> s[i] != '0')
  {
    if s == "" || s[0] != '0' then 0 else 1 + FirstNonzero(s[1..])
  }

  function AfterLastNonzero(s: string): (i: nat)
    ensures i <= |s| && (forall k :: i <= k < |s| ==> s[k] == '0') && (i > 0 ==> s[i - 1] != '0')
  {
    if s == "" || s[|s| - 1] != '0' then |s| else AfterLastNonzero(s[..|s| - 1])
  }

  /** The significant digits of a text, and their point; none for zero. */
  function Extracted(s: string): (d: Digits)
    requires RyuShaped(s)
  {
    var m := Mantissa(s);
    var all := Whole(m) + Fraction(m);
    var first, last := FirstNonzero(all), AfterLastNonzero(all);
    if first == |all| then Digits("", 0)
    else
      assert all[first] != '0';
      assert last > first;
      Digits(all[first..last], |Whole(m)| - first + ExponentOf(ExponentText(s)))
  }

  lemma ZerosAround(all: string, first: nat, last: nat)
    requires AllDigits(all) && first < last <= |all| && first == FirstNonzero(all) && last == AfterLastNonzero(all)
    ensures var ds := all[first..last];
      ds[0] != '0' && ds[|ds| - 1] != '0' && AllDigits(ds) && all == Zeros(first) + (ds + Zeros(|all| - last))
  {
    var ds := all[first..last];
    assert forall i :: 0 <= i < |ds| ==> ds[i] == all[first + i];
  }

  lemma AllZeros(all: string)
    requires FirstNonzero(all) == |all|
    ensures AllDigits(all) && NumberOf(all) == 0
  {
    assert all == Zeros(|all|) + "";
    ZerosBefore(|all|, "");
  }

  lemma RyuDigits(s: string)
    requires RyuShaped(s)
    ensures AllDigits(Whole(Mantissa(s)) + Fraction(Mantissa(s)))
  {
  }

  /** Trimming zeros and folding the exponent in keep the number. */
  lemma ExtractedWorth(s: string)
    requires RyuShaped(s)
    ensures var d := Extracted(s);
      if d.ds == "" then Magnitude(s) == 0.0 else Trimmed(d) && Worth(d) == Magnitude(s)
  {
    hide Pow10, Mantissa, ExponentText, Whole, Fraction, ExponentOf, IndexOf, NumberOf, FirstNonzero, AfterLastNonzero, AllDigits, Zeros;
    RyuDigits(s);
    var m := Mantissa(s);
    var all, e := Whole(m) + Fraction(m), ExponentOf(ExponentText(s)) - |Fraction(m)|;
    var first, last := FirstNonzero(all), AfterLastNonzero(all);
    if first == |all| {
      AllZeros(all);
      assert 0 as real * Pow10(e) == 0.0;
    } else {
      assert last > first by { assert all[first] != '0'; }
      var ds, k := all[first..last], |all| - last;
      ZerosAround(all, first, last);
      ZerosAfter(ds, k);
      ZerosBefore(first, ds + Zeros(k));
      ShiftZeros(ds, k, e);
      assert Extracted(s) == Digits(ds, |Whole(m)| - first + ExponentOf(ExponentText(s)));
    }
  }

  // -------------------------------------------------------------- the layouts

  function PaddedExponent(e: nat): string { (if e < 10 then "0" else "") + DigitsOf(e) }

  function ScientificText(d: Digits): string
    requires Trimmed(d)
  {
    [d.ds[0]] + Point(d.ds[1..]) + "e" + (if d.decpt - 1 < 0 then "-" else "+") + PaddedExponent(Abs(d.decpt - 1))
  }

  function PlainText(d: Digits): string
    requires Trimmed(d)
  {
    var n := |d.ds|;
    if d.decpt <= 0 then "0." + Zeros(-d.decpt) + d.ds
    else if d.decpt >= n then d.ds + Zeros(d.decpt - n) + ".0"
    else d.ds[..d.decpt] + "." + d.ds[d.decpt..]
  }

  predicate IsScientific(decpt: int) { decpt <= -4 || decpt > 16 }

  function Layout(d: Digits): string
    requires d.ds == "" || Trimmed(d)
  {
    if d.ds == "" then "0.0" else if IsScientific(d.decpt) then ScientificText(d) else PlainText(d)
  }

  lemma PaddedReads(e: nat)
    ensures AllDigits(PaddedExponent(e)) && NumberOf(PaddedExponent(e)) == e && PaddedExponent(e) != ""
  {
    DigitsBack(e);
    if e < 10 {
      ZerosBefore(1, DigitsOf(e));
      assert Zeros(1) == "0";
    } else {
      assert "" + DigitsOf(e) == DigitsOf(e);
    }
  }

  lemma ScientificWorth(d: Digits)
    requires Trimmed(d)
    ensures Magnitude(ScientificText(d)) == Worth(d)
    ensures ScientificText(d)[|Mantissa(ScientificText(d))|..] != ""
  {
    hide Pow10, NumberOf, Mantissa, ExponentText, Whole, Fraction, PaddedExponent;
    var e, n := d.decpt - 1, |d.ds|;
    var sign := if e < 0 then "-" else "+";
    var exp := sign + PaddedExponent(Abs(e));
    PaddedReads(Abs(e));
    assert exp[1..] == PaddedExponent(Abs(e)) && exp[0] == sign[0];
    var whole, frac := [d.ds[0]], d.ds[1..];
    assert AllDigits(whole) && AllDigits(frac) && whole + frac == d.ds;
    LaidMagnitude(whole, frac, exp);
    Laid(whole, frac, exp);
    assert ScientificText(d) == whole + Point(frac) + Tail(exp);
  }

  lemma ReadsBack(whole: string, frac: string, ds: string, e: int, text: string)
    requires AllDigits(whole) && AllDigits(frac) && frac != "" && AllDigits(ds) && text == whole + "." + frac
    requires NumberOf(whole + frac) as real * Pow10(-|frac|) == NumberOf(ds) as real * Pow10(e)
    ensures Magnitude(text) == NumberOf(ds) as real * Pow10(e) && Mantissa(text) == text && '.' in text
  {
    hide Pow10, NumberOf, Mantissa, ExponentText, Whole, Fraction;
    LaidMagnitude(whole, frac, "");
    Laid(whole, frac, "");
    assert text == whole + Point(frac) + Tail("");
    assert text[|whole|] == '.';
  }

  lemma SmallWorth(d: Digits)
    requires Trimmed(d) && d.decpt <= 0
    ensures Magnitude(PlainText(d)) == Worth(d) && Mantissa(PlainText(d)) == PlainText(d) && '.' in PlainText(d)
  {
    hide Pow10, NumberOf, Mantissa, Magnitude;
    var k := -d.decpt;
    ZerosBefore(k + 1, d.ds);
    assert "0" + (Zeros(k) + d.ds) == Zeros(k + 1) + d.ds;
    assert "0." + Zeros(k) + d.ds == "0" + "." + (Zeros(k) + d.ds);
    ReadsBack("0", Zeros(k) + d.ds, d.ds, d.decpt - |d.ds|, PlainText(d));
  }

  lemma WholeWorth(d: Digits)
    requires Trimmed(d) && d.decpt >= |d.ds|
    ensures Magnitude(PlainText(d)) == Worth(d) && Mantissa(PlainText(d)) == PlainText(d) && '.' in PlainText(d)
  {
    hide Pow10, NumberOf, Mantissa, Magnitude;
    var k := d.decpt - |d.ds|;
    ShiftZeros(d.ds, k + 1, -1);
    assert d.ds + Zeros(k) + "0" == d.ds + Zeros(k + 1);
    assert d.ds + Zeros(k) + ".0" == d.ds + Zeros(k) + "." + "0";
    ReadsBack(d.ds + Zeros(k), "0", d.ds, k, PlainText(d));
  }

  lemma PlainWorth(d: Digits)
    requires Trimmed(d)
    ensures Magnitude(PlainText(d)) == Worth(d) && Mantissa(PlainText(d)) == PlainText(d) && '.' in PlainText(d)
  {
    hide Pow10, NumberOf, Mantissa, Magnitude;
    if d.decpt <= 0 {
      SmallWorth(d);
    } else if d.decpt >= |d.ds| {
      WholeWorth(d);
    } else {
      assert d.ds[..d.decpt] + d.ds[d.decpt..] == d.ds;
      ReadsBack(d.ds[..d.decpt], d.ds[d.decpt..], d.ds, d.decpt - |d.ds|, PlainText(d));
    }
  }

  // ------------------------------------------------------------------ the code

  /** `py_float_repr` for finite numbers: `s` is the shortest-digits text of the
      absolute value. */
  method PyFloatRepr(neg: bool, s: string) returns (out: string)
    requires RyuShaped(s)
    ensures out == (if neg then "-" else "") + Layout(Extracted(s))
  {
    hide Pow10, NumberOf, ScientificText, PlainText, Mantissa, Whole, Fraction, ExponentText, ExponentOf;
    ExtractedWorth(s);
    var digits, decpt := Extract(s);
    if |digits| == 0 {
      return if neg then "-0.0" else "0.0";
    }
    out := "";
    if neg { out := out + ['-']; }
    ghost var d := Digits(digits, decpt);
    if decpt <= -4 || decpt > 16 {
      out := PushScientific(out, d, digits, decpt);
    } else {
      out := PushPlain(out, d, digits, decpt);
    }
  }

  /** The three layouts without an exponent. */
  method PushPlain(out0: string, ghost d: Digits, digits: string, decpt: int) returns (out: string)
    requires d == Digits(digits, decpt) && Trimmed(d)
    ensures out == out0 + PlainText(d)
  {
    var n := |digits|;
    out := out0;
    if decpt <= 0 {
      out := out + "0.";
      out := PushZeros(out, -decpt);
      out := out + digits;
    } else if decpt >= n {
      out := out + digits;
      out := PushZeros(out, decpt - n);
      out := out + ".0";
    } else {
      out := out + digits[..decpt];
      out := out + ['.'];
      out := out + digits[decpt..];
    }
    assert out == out0 + PlainText(d);
  }

  /** Splits the text and keeps its significant digits; none when it is zero. */
  method Extract(s: string) returns (digits: string, decpt: int)
    requires RyuShaped(s)
    ensures Digits(digits, decpt) == Extracted(s)
  {
    hide Mantissa, Whole, Fraction, ExponentText, ExponentOf;
    var m := Mantissa(s);
    var intStr, fracStr, exp := Whole(m), Fraction(m), ExponentOf(ExponentText(s));
    var all := intStr + fracStr;
    var point := |intStr|;
    var first := Position(all);
    if first == |all| { return "", 0; }
    var last := RPosition(all);
    digits := all[first..last + 1];
    decpt := point - first + exp;
  }

  /** d[0](.d[1..])e+XX, with at least two digits of exponent. */
  method PushScientific(out0: string, ghost d: Digits, digits: string, decpt: int) returns (out: string)
    requires d == Digits(digits, decpt) && Trimmed(d)
    ensures out == out0 + ScientificText(d)
  {
    hide DigitsOf;
    out := out0 + [digits[0]];
    if |digits| > 1 {
      out := out + ['.'];
      out := out + digits[1..];
    }
    assert out == out0 + ([digits[0]] + Point(digits[1..]));
    out := out + ['e'];
    var ex := decpt - 1;
    out := out + [if ex < 0 then '-' else '+'];
    var e := Abs(ex);
    if e < 10 { out := out + ['0']; }
    out := out + DigitsOf(e);
    assert out == out0 + ScientificText(d);
  }

  method PushZeros(out0: string, k: nat) returns (out: string)
    ensures out == out0 + Zeros(k)
  {
    out := out0;
    var i := 0;
    while i < k
      invariant 0 <= i <= k && out == out0 + Zeros(i)
    {
      out := out + ['0'];
      i := i + 1;
    }
  }

  /** The first nonzero digit, or the length. */
  method Position(all: string) returns (i: nat)
    ensures i == FirstNonzero(all)
  {
    i := 0;
    while i < |all| && all[i] == '0'
      invariant 0 <= i <= |all| && FirstNonzero(all) == i + FirstNonzero(all[i..])
    {
      i := i + 1;
    }
  }

  /** The last nonzero digit. */
  method RPosition(all: string) returns (i: nat)
    requires FirstNonzero(all) < |all|
    ensures i + 1 == AfterLastNonzero(all)
  {
    var k := |all|;
    assert all[..k] == all;
    while k > 0 && all[k - 1] == '0'
      invariant FirstNonzero(all) < k <= |all| && AfterLastNonzero(all) == AfterLastNonzero(all[..k])
    {
      assert all[..k][..k - 1] == all[..k - 1];
      k := k - 1;
    }
    i := k - 1;
  }

  /** The layout loses nothing: it denotes the same number, always reads as a float, and is
      scientific exactly for nonzero numbers below 0.0001 or from 10^16 on. */
  lemma LayoutFaithful(s: string)
    requires RyuShaped(s)
    ensures var text := Layout(Extracted(s));
      && Magnitude(text) == Magnitude(s)
      && ('.' in text || 'e' in text)
      && ('e' in text <==> Magnitude(s) != 0.0 && (Magnitude(s) < Pow10(-4) || Magnitude(s) >= Pow10(16)))
  {
    hide Pow10, NumberOf, Magnitude, Worth, Mantissa;
    ExtractedWorth(s);
    var d := Extracted(s);
    var text := Layout(d);
    if d.ds == "" {
      ZeroText();
    } else {
      WorthBounds(d);
      ScientificRange(d, Magnitude(s));
      if IsScientific(d.decpt) {
        ScientificWorth(d);
        assert text[|text| - |PaddedExponent(Abs(d.decpt - 1))| - 2] == 'e';
      } else {
        PlainWorth(d);
        NoExponent(text);
      }
    }
  }

  lemma NoExponent(text: string)
    requires Mantissa(text) == text
    ensures 'e' !in text
  {
    if 'e' in text {
      var k :| 0 <= k < |text| && text[k] == 'e';
      EarlierIndex(text, 'e', k);
    }
  }

  lemma {:induction false} EarlierIndex(s: string, c: char, k: nat)
    requires k < |s| && s[k] == c
    ensures IndexOf(s, c) <= k
    decreases k
  {
    if s[0] != c { EarlierIndex(s[1..], c, k - 1); }
  }

  lemma ZeroText()
    ensures Magnitude("0.0") == 0.0 && 'e' !in "0.0" && '.' in "0.0"
  {
    assert "0.0" == "0" + Point("0") + Tail("");
    LaidMagnitude("0", "0", "");
    ZerosBefore(2, "");
    assert Zeros(2) + "" == "0" + "0";
    assert 0 as real * Pow10(ExponentOf("") - 1) == 0.0;
    assert "0.0"[1] == '.';
  }

  lemma ScientificRange(d: Digits, v: real)
    requires Pow10(d.decpt - 1) <= v < Pow10(d.decpt)
    ensures IsScientific(d.decpt) <==> v < Pow10(-4) || v >= Pow10(16)
    ensures v != 0.0
  {
    if d.decpt <= -4 { PowMonotone(d.decpt, -4); }
    if d.decpt >= -3 { PowMonotone(-4, d.decpt - 1); }
    if d.decpt > 16 { PowMonotone(16, d.decpt - 1); }
    if d.decpt <= 16 { PowMonotone(d.decpt, 16); }
  }
}
