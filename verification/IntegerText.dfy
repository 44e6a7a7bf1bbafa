/** `str(int)` and `int(str)` of the emitted runtime (src/codegen.rs): decimal print and
    parse of 32-bit numbers. */
module IntegerText {
  import opened Values
  import opened MachineIntegers

  // -------------------------------------------------------------- the functions

  predicate IsDigit(c: char) { '0' <= c <= '9' }

  predicate IsBlank(c: char) { c == ' ' || c == '\t' }

  function DigitChar(d: nat): char
    requires d < 10
  {
    '0' + d as char
  }

  function DigitsOf(n: nat): (ds: string)
    ensures ds != []
  {
    if n < 10 then [DigitChar(n)] else DigitsOf(n / 10) + [DigitChar(n % 10)]
  }

  function TextOf(v: int): string { if v < 0 then "-" + DigitsOf(-v) else DigitsOf(v) }

  predicate AllDigits(ds: string) { forall i :: 0 <= i < |ds| ==> IsDigit(ds[i]) }

  predicate AllBlanks(t: string) { forall i :: 0 <= i < |t| ==> IsBlank(t[i]) }

  function NumberOf(ds: string): nat
    requires AllDigits(ds)
  {
    if ds == [] then 0 else 10 * NumberOf(ds[..|ds| - 1]) + (ds[|ds| - 1] - '0') as nat
  }

  datatype Parsed = Value(n: int) | Malformed | TooBig

  /** A sign, digits, blanks around: what `int()` accepts. */
  ghost predicate Numeral(s: string, pre: string, sign: string, ds: string, post: string) {
    && s == pre + sign + ds + post && AllBlanks(pre) && AllBlanks(post)
    && sign in {"", "+", "-"} && ds != [] && AllDigits(ds)
  }

  function Signed(sign: string, n: int): int { if sign == "-" then -n else n }

  // ------------------------------------------------------ the parser's result

  function SkipBlanks(s: string, i: nat): (k: nat)
    requires i <= |s|
    ensures i <= k <= |s| && AllBlanks(s[i..k]) && (k < |s| ==> !IsBlank(s[k]))
    decreases |s| - i
  {
    if i < |s| && IsBlank(s[i]) then
      var k := SkipBlanks(s, i + 1);
      assert s[i..k] == [s[i]] + s[i + 1..k];
      k
    else i
  }

  function SkipDigits(s: string, i: nat): (k: nat)
    requires i <= |s|
    ensures i <= k <= |s| && AllDigits(s[i..k]) && (k < |s| ==> !IsDigit(s[k]))
    decreases |s| - i
  {
    if i < |s| && IsDigit(s[i]) then
      var k := SkipDigits(s, i + 1);
      assert s[i..k] == [s[i]] + s[i + 1..k];
      k
    else i
  }

  function SignAt(s: string, i: nat): string {
    if i < |s| && s[i] == '-' then "-" else if i < |s| && s[i] == '+' then "+" else ""
  }

  /** What the helper returns.  Digits beyond 2^31 are too big before anything else is
      looked at. */
  function Parse(s: string): Parsed {
    var i := SkipBlanks(s, 0);
    var sign := SignAt(s, i);
    var start := i + |sign|;
    var end := SkipDigits(s, start);
    var n := NumberOf(s[start..end]);
    if n > 0x8000_0000 then TooBig
    else if end == start then Malformed
    else if SkipBlanks(s, end) < |s| then Malformed
    else if Fits(Signed(sign, n)) then Value(Signed(sign, n))
    else TooBig
  }

  lemma {:induction false} SkipBlanksIs(s: string, i: nat, k: nat)
    requires i <= k <= |s| && AllBlanks(s[i..k]) && (k < |s| ==> !IsBlank(s[k]))
    ensures SkipBlanks(s, i) == k
    decreases k - i
  {
    if i < k {
      assert s[i..k][0] == s[i] && s[i..k][1..] == s[i + 1..k];
      SkipBlanksIs(s, i + 1, k);
    }
  }

  lemma {:induction false} SkipDigitsIs(s: string, i: nat, k: nat)
    requires i <= k <= |s| && AllDigits(s[i..k]) && (k < |s| ==> !IsDigit(s[k]))
    ensures SkipDigits(s, i) == k
    decreases k - i
  {
    if i < k {
      assert s[i..k][0] == s[i] && s[i..k][1..] == s[i + 1..k];
      SkipDigitsIs(s, i + 1, k);
    }
  }

  /** How the parser cuts a text of the accepted shape. */
  lemma NumeralCuts(s: string, pre: string, sign: string, ds: string, post: string)
    requires Numeral(s, pre, sign, ds, post)
    ensures SkipBlanks(s, 0) == |pre| && SignAt(s, |pre|) == sign
    ensures SkipDigits(s, |pre| + |sign|) == |pre| + |sign| + |ds|
    ensures s[|pre| + |sign|..|pre| + |sign| + |ds|] == ds && SkipBlanks(s, |pre| + |sign| + |ds|) == |s|
  {
    var i, start, end := |pre|, |pre| + |sign|, |pre| + |sign| + |ds|;
    assert s[0..i] == pre && s[start..end] == ds && s[end..|s|] == post;
    assert s[start] == ds[0];
    assert sign != "" ==> s[i] == sign[0];
    SkipBlanksIs(s, 0, i);
    assert end < |s| ==> s[end] == post[0];
    SkipDigitsIs(s, start, end);
    SkipBlanksIs(s, end, |s|);
  }

  lemma ParsedNumeral(s: string)
    requires Parse(s).Value?
    ensures var i := SkipBlanks(s, 0);
      var sign := SignAt(s, i);
      var start := i + |sign|;
      var end := SkipDigits(s, start);
      Numeral(s, s[0..i], sign, s[start..end], s[end..|s|]) && Parse(s).n == Signed(sign, NumberOf(s[start..end]))
  {
    hide SkipBlanks, SkipDigits, NumberOf, AllDigits, AllBlanks;
    var i := SkipBlanks(s, 0);
    var start := i + |SignAt(s, i)|;
    SignIs(s, i);
    FourParts(s, i, start, SkipDigits(s, start));
  }

  lemma SignIs(s: string, i: nat)
    requires i <= |s|
    ensures i + |SignAt(s, i)| <= |s| && SignAt(s, i) == s[i..i + |SignAt(s, i)|] && SignAt(s, i) in {"", "+", "-"}
  {
  }

  lemma FourParts(s: string, i: nat, j: nat, k: nat)
    requires i <= j <= k <= |s|
    ensures s == s[0..i] + s[i..j] + s[j..k] + s[k..|s|]
  {
  }

  lemma NumeralParsed(s: string, pre: string, sign: string, ds: string, post: string)
    requires Numeral(s, pre, sign, ds, post) && Fits(Signed(sign, NumberOf(ds)))
    ensures Parse(s) == Value(Signed(sign, NumberOf(ds)))
  {
    hide SkipBlanks, SkipDigits, NumberOf;
    NumeralCuts(s, pre, sign, ds, post);
  }

  lemma ValueIsNumeral(s: string, v: int)
    requires Parse(s) == Value(v)
    ensures exists pre, sign, ds, post :: Numeral(s, pre, sign, ds, post) && v == Signed(sign, NumberOf(ds)) && Fits(v)
  {
    hide Numeral, NumberOf, SkipBlanks, SkipDigits;
    ParsedNumeral(s);
  }

  /** The parser returns a value exactly for blanks, an optional sign, digits, blanks, when
      that number fits 32 bits; and then it is that number. */
  lemma ParseExact(s: string, v: int)
    ensures Parse(s) == Value(v) <==>
            exists pre, sign, ds, post :: Numeral(s, pre, sign, ds, post) && v == Signed(sign, NumberOf(ds)) && Fits(v)
  {
    hide Parse, NumberOf, AllDigits, AllBlanks;
    if Parse(s) == Value(v) { ValueIsNumeral(s, v); }
    if pre, sign, ds, post :| Numeral(s, pre, sign, ds, post) && v == Signed(sign, NumberOf(ds)) && Fits(v) {
      NumeralParsed(s, pre, sign, ds, post);
    }
  }

  // -------------------------------------------------------------- round trip

  lemma {:induction false} DigitsBack(n: nat)
    ensures AllDigits(DigitsOf(n)) && NumberOf(DigitsOf(n)) == n
    decreases n
  {
    if n >= 10 {
      DigitsBack(n / 10);
      var init, ds := DigitsOf(n / 10), DigitsOf(n);
      assert ds[..|ds| - 1] == init;
    } else {
      assert DigitsOf(n)[..0] == [];
    }
  }

  /** `int(str(v)) == v` for every 32-bit number, -2147483648 included. */
  lemma PrintParse(v: int)
    requires Fits(v)
    ensures Parse(TextOf(v)) == Value(v)
  {
    var sign := if v < 0 then "-" else "";
    var ds := DigitsOf(Abs(v));
    DigitsBack(Abs(v));
    assert TextOf(v) == "" + sign + ds + "";
    assert Numeral(TextOf(v), "", sign, ds, "");
    ParseExact(TextOf(v), v);
  }

  /** Canonical digits: printing what was parsed gives the same digits, leading zeros
      aside. */
  lemma {:induction false} ParsePrint(ds: string)
    requires AllDigits(ds) && ds != [] && (|ds| > 1 ==> ds[0] != '0')
    ensures DigitsOf(NumberOf(ds)) == ds && (|ds| > 1 ==> NumberOf(ds) >= 10)
    decreases |ds|
  {
    var init, d := ds[..|ds| - 1], (ds[|ds| - 1] - '0') as nat;
    if |ds| > 1 {
      ParsePrint(init);
      assert NumberOf(ds) == 10 * NumberOf(init) + d;
      assert NumberOf(init) > 0 by { if |init| == 1 { assert init[..0] == []; assert init[0] == ds[0]; } }
      assert NumberOf(ds) / 10 == NumberOf(init) && NumberOf(ds) % 10 == d;
      assert ds == init + [DigitChar(d)];
    } else {
      assert init == [] && NumberOf(ds) == d;
      assert ds == [DigitChar(d)];
    }
  }

  // ------------------------------------------------------------------ the code

  /** The low 32 bits, unsigned. */
  function Unsigned(n: int): nat { n % 0x1_0000_0000 }

  /** `$i32_to_str`: counts the digits of the unsigned magnitude, then fills from the
      right. */
  method PrintInt(v: int) returns (s: array<char>)
    requires Fits(v)
    ensures fresh(s) && s[..] == TextOf(v)
  {
    if v == 0 {
      s := new char[1];
      s[0] := '0';
      assert s[..] == ['0'];
      return;
    }
    var neg := v < 0;
    var mag := Unsigned(if neg then 0 - v else v);
    assert mag == Abs(v);
    var len := CountDigits(mag);
    var shift := if neg then 1 else 0;
    s := new char[len + shift];
    FillDigits(s, mag, shift);
    if neg { s[0] := '-'; }
    assert s[..] == s[..shift] + s[shift..];
  }

  method CountDigits(mag: nat) returns (len: nat)
    requires mag > 0
    ensures len == |DigitsOf(mag)|
  {
    len := 0;
    var tmp := mag;
    while tmp != 0
      invariant len + (if tmp == 0 then 0 else |DigitsOf(tmp)|) == |DigitsOf(mag)|
      decreases tmp
    {
      len := len + 1;
      tmp := tmp / 10;
    }
  }

  method FillDigits(s: array<char>, mag0: nat, shift: nat)
    requires mag0 > 0 && s.Length == shift + |DigitsOf(mag0)|
    modifies s
    ensures s[shift..] == DigitsOf(mag0) && s[..shift] == old(s[..shift])
  {
    var mag, i := mag0, s.Length - 1;
    ghost var done: string := [];
    while mag != 0
      invariant s[..shift] == old(s[..shift])
      invariant i == shift - 1 + (if mag == 0 then 0 else |DigitsOf(mag)|) && i < s.Length
      invariant (if mag == 0 then [] else DigitsOf(mag)) + s[i + 1..] == DigitsOf(mag0)
      decreases mag
    {
      ghost var tail := s[i + 1..];
      s[i] := DigitChar(mag % 10);
      assert s[i..] == [DigitChar(mag % 10)] + tail;
      mag := mag / 10;
      i := i - 1;
    }
  }

  /** `$str_to_int`.  The 64-bit accumulator stops before it can wrap. */
  method ParseInt(s: string) returns (r: Parsed)
    ensures r == Parse(s)
  {
    hide NumberOf, SkipBlanks, SkipDigits;
    var n := |s|;
    var i := Blanks(s, 0);
    var sign := 1;
    ghost var first := i;
    if i < n {
      var c := s[i];
      if c == '-' {
        sign := -1;
        i := i + 1;
      }
      if c == '+' { i := i + 1; }
    }
    var start := i;
    assert start == first + |SignAt(s, first)| && sign == Signed(SignAt(s, first), 1);
    var acc, big;
    acc, i, big := Digits(s, start);
    if big { return TooBig; }
    if i == start { return Malformed; }
    i := Blanks(s, i);
    if i < n { return Malformed; }
    WrapExact(sign * acc, 0x8000_0000_0000_0000);
    acc := Wrap64(sign * acc);
    if acc > 2147483647 || acc < -2147483648 { return TooBig; }
    r := Value(acc);
  }

  method Blanks(s: string, from: nat) returns (i: nat)
    requires from <= |s|
    ensures i == SkipBlanks(s, from)
  {
    i := from;
    while i < |s| && (s[i] == ' ' || s[i] == '\t')
      invariant from <= i <= |s| && SkipBlanks(s, i) == SkipBlanks(s, from)
    {
      i := i + 1;
    }
  }

  lemma MoreDigits(s: string, start: nat, i: nat, end: nat)
    requires start <= i < end <= |s| && AllDigits(s[start..end])
    ensures AllDigits(s[start..i]) && AllDigits(s[start..i + 1])
    ensures NumberOf(s[start..i + 1]) == 10 * NumberOf(s[start..i]) + (s[i] - '0') as nat
    ensures NumberOf(s[start..i + 1]) <= NumberOf(s[start..end])
    decreases end - i
  {
    forall k | start <= k < end ensures IsDigit(s[k]) { assert s[start..end][k - start] == s[k]; }
    assert s[start..i + 1][..i - start] == s[start..i];
    if i + 1 < end {
      MoreDigits(s, start, i + 1, end);
    }
  }

  /** The digit loop: the value so far, or too big as soon as it passes 2^31. */
  method Digits(s: string, start: nat) returns (acc: int, i: nat, big: bool)
    requires start <= |s|
    ensures var end := SkipDigits(s, start);
      && (big <==> NumberOf(s[start..end]) > 0x8000_0000)
      && (!big ==> i == end && acc == NumberOf(s[start..end]))
  {
    assert NumberOf([]) == 0;
    hide NumberOf, SkipDigits, Wrap;
    ghost var end := SkipDigits(s, start);
    acc, i, big := 0, start, false;
    assert s[start..start] == [];
    while i < |s| && '0' <= s[i] <= '9'
      invariant start <= i <= end && AllDigits(s[start..i])
      invariant acc == NumberOf(s[start..i]) && acc <= 0x8000_0000
    {
      InsideDigits(s, start, i);
      MoreDigits(s, start, i, end);
      var d := (s[i] - '0') as int;
      NextDigit(acc, d);
      acc := Wrap64(Wrap64(acc * 10) + d);
      if acc > 2147483648 { return acc, i, true; }
      i := i + 1;
    }
    SkipDigitsIs(s, start, i);
  }

  lemma NextDigit(acc: int, d: int)
    requires 0 <= acc <= 0x8000_0000 && 0 <= d <= 9
    ensures Wrap64(Wrap64(acc * 10) + d) == 10 * acc + d
  {
    hide Wrap;
    WrapExact(acc * 10, 0x8000_0000_0000_0000);
    WrapExact(acc * 10 + d, 0x8000_0000_0000_0000);
  }

  lemma InsideDigits(s: string, start: nat, i: nat)
    requires start <= i < |s| && IsDigit(s[i]) && i <= SkipDigits(s, start)
    ensures i < SkipDigits(s, start)
  {
  }
}
