/** The texts CPython writes floats as, described without saying how they are made, and the
    proof that the layout (src/floatfmt.rs) writes no others. */
module FloatShape {
  import opened MachineIntegers
  import opened IntegerText
  import opened FloatText

  // ------------------------------------------------------------- the shape

  /** One digit, perhaps a point and more digits, an exponent with a sign and at least two
      digits. */
  ghost predicate Scientific(text: string, lead: char, frac: string, sign: char, exp: string) {
    && text == [lead] + (if frac == "" then "" else "." + frac) + "e" + [sign] + exp
    && '1' <= lead <= '9' && AllDigits(frac) && (frac != "" ==> frac[|frac| - 1] != '0')
    && (sign == '+' || sign == '-') && AllDigits(exp) && |exp| >= 2 && (|exp| > 2 ==> exp[0] != '0')
  }

  /** Digits on both sides of a point, with no zero too many. */
  ghost predicate Positional(text: string, whole: string, frac: string) {
    && text == whole + "." + frac && whole != "" && frac != "" && AllDigits(whole) && AllDigits(frac)
    && (|whole| > 1 ==> whole[0] != '0') && (|frac| > 1 ==> frac[|frac| - 1] != '0')
  }

  /** How CPython writes the number `v >= 0`: with an exponent below 0.0001 and from 10^16
      on, a negative one exactly below 1. */
  ghost predicate PythonWrites(text: string, v: real) {
    if v != 0.0 && (v < 0.0001 || v >= 10000000000000000.0) then
      exists lead, frac, sign, exp :: Scientific(text, lead, frac, sign, exp) && (sign == '-' <==> v < 1.0)
    else exists whole, frac :: Positional(text, whole, frac)
  }

  // -------------------------------------------------------------- reading it

  /** What a decimal text denotes, for every way to write one: the digits as one number,
      moved by the exponent and by the digits behind the point. */
  lemma ReadsAsWritten(whole: string, frac: string, sign: string, exp: string, digits: string)
    requires AllDigits(whole) && AllDigits(frac) && AllDigits(exp) && exp != "" && sign in {"", "+", "-"}
    requires digits == whole + frac && AllDigits(digits)
    ensures Magnitude(whole + (if frac == "" then "" else "." + frac) + "e" + sign + exp)
         == NumberOf(digits) as real * Pow10((if sign == "-" then -1 else 1) * NumberOf(exp) - |frac|)
  {
    hide Pow10, NumberOf, Magnitude, AllDigits, ExponentOf;
    var m, t := whole + Point(frac), sign + exp;
    LaidMagnitude(whole, frac, t);
    assert m + Tail(t) == m + "e" + sign + exp;
    Exponents(exp);
    assert "" + exp == exp;
  }

  lemma ReadsWithoutExponent(whole: string, frac: string, digits: string)
    requires AllDigits(whole) && AllDigits(frac) && digits == whole + frac && AllDigits(digits)
    ensures Magnitude(whole + (if frac == "" then "" else "." + frac)) == NumberOf(digits) as real * Pow10(-|frac|)
  {
    hide Pow10, NumberOf, Magnitude, AllDigits;
    LaidMagnitude(whole, frac, "");
    assert whole + Point(frac) + Tail("") == whole + (if frac == "" then "" else "." + frac);
  }

  lemma Exponents(exp: string)
    requires AllDigits(exp) && exp != ""
    ensures ExponentOf("") == 0 && ExponentOf(exp) == NumberOf(exp)
    ensures ExponentOf("+" + exp) == NumberOf(exp) && ExponentOf("-" + exp) == -(NumberOf(exp) as int)
  {
    assert ("+" + exp)[1..] == exp && ("-" + exp)[1..] == exp;
  }

  // --------------------------------------------------------------- writing it

  lemma {:induction false} NoLeadingZero(n: nat)
    ensures (n >= 10 ==> |DigitsOf(n)| >= 2) && (n > 0 ==> DigitsOf(n)[0] != '0') && (n < 10 ==> |DigitsOf(n)| == 1)
    decreases n
  {
    if n >= 10 { NoLeadingZero(n / 10); }
  }

  /** Two digits, or more without a leading zero. */
  lemma PaddedShape(e: nat)
    ensures var exp := PaddedExponent(e); AllDigits(exp) && |exp| >= 2 && (|exp| > 2 ==> exp[0] != '0')
  {
    PaddedReads(e);
    NoLeadingZero(e);
    if e >= 10 { assert PaddedExponent(e) == DigitsOf(e); }
  }

  lemma ScientificShape(d: Digits)
    requires Trimmed(d)
    ensures Scientific(ScientificText(d), d.ds[0], d.ds[1..], if d.decpt - 1 < 0 then '-' else '+', PaddedExponent(Abs(d.decpt - 1)))
  {
    hide PaddedExponent;
    PaddedShape(Abs(d.decpt - 1));
    var frac := d.ds[1..];
    if frac != "" { assert frac[|frac| - 1] == d.ds[|d.ds| - 1]; }
  }

  lemma PlainShape(d: Digits)
    requires Trimmed(d)
    ensures exists whole, frac :: Positional(PlainText(d), whole, frac)
  {
    var n := |d.ds|;
    if d.decpt <= 0 {
      var frac := Zeros(-d.decpt) + d.ds;
      assert PlainText(d) == "0" + "." + frac;
      assert Positional(PlainText(d), "0", frac);
    } else if d.decpt >= n {
      var whole := d.ds + Zeros(d.decpt - n);
      assert PlainText(d) == whole + "." + "0";
      assert Positional(PlainText(d), whole, "0");
    } else {
      assert Positional(PlainText(d), d.ds[..d.decpt], d.ds[d.decpt..]);
    }
  }

  lemma Thresholds()
    ensures Pow10(-4) == 0.0001 && Pow10(16) == 10000000000000000.0 && Pow10(0) == 1.0
  {
    assert Pow10(-4) == Pow10(-3) / 10.0 && Pow10(-3) == Pow10(-2) / 10.0 && Pow10(-2) == Pow10(-1) / 10.0;
    PowIsWhole(16);
    assert WholePow(4) == 10000;
    assert WholePow(8) == 100000000;
    assert WholePow(12) == 1000000000000;
  }

  lemma ExponentSign(d: Digits)
    requires Trimmed(d)
    ensures d.decpt - 1 < 0 <==> Worth(d) < 1.0
  {
    hide Worth;
    WorthBounds(d);
    if d.decpt <= 0 { PowMonotone(d.decpt, 0); } else { PowMonotone(0, d.decpt - 1); }
  }

  /** The layout is CPython's: the same number, written as CPython writes it. */
  lemma LayoutIsPythons(s: string)
    requires RyuShaped(s)
    ensures Magnitude(Layout(Extracted(s))) == Magnitude(s) && PythonWrites(Layout(Extracted(s)), Magnitude(s))
  {
    hide Pow10, NumberOf, Magnitude, Worth, ScientificText, PlainText, Extracted;
    LayoutFaithful(s);
    ExtractedWorth(s);
    Thresholds();
    var d := Extracted(s);
    if d.ds == "" {
      assert Positional("0.0", "0", "0");
    } else {
      WorthBounds(d);
      ScientificRange(d, Magnitude(s));
      ExponentSign(d);
      ScientificShape(d);
      PlainShape(d);
    }
  }
}
