/**
 * How the cart turns its percentage and amount strings into numbers
 * (src/Cart.php, getPercentageValue and the numeric coercion done by
 * `array_sum`). PHP reads the leading number of a string; the model reads an
 * optional '-', decimal digits and an optional '.' with more digits, and
 * ignores what follows. Numbers are exact reals.
 */
module Numbers {
  import opened Patterns

  function DigitValue(c: char): (v: nat)
    requires IsDigit(c)
    ensures v <= 9
  {
    (c as int) - ('0' as int)
  }

  /** The digits of s read as a whole number. */
  function IntegerValue(s: string): (v: nat)
    requires AllDigits(s)
  {
    if s == [] then 0 else 10 * IntegerValue(s[..|s| - 1]) + DigitValue(s[|s| - 1])
  }

  /** The digits of s read as the part after a decimal point. */
  function FractionValue(s: string): (v: real)
    requires AllDigits(s)
    ensures 0.0 <= v < 1.0
  {
    if s == [] then 0.0 else (DigitValue(s[0]) as real + FractionValue(s[1..])) / 10.0
  }

  /** The leading unsigned decimal number of s: digits, then '.' and digits. */
  function UnsignedLeading(s: string): (v: real)
    ensures v >= 0.0
  {
    var d := DigitRun(s);
    var whole := IntegerValue(s[..d]) as real;
    if d < |s| && s[d] == '.' then
      var t := s[d + 1..];
      whole + FractionValue(t[..DigitRun(t)])
    else
      whole
  }

  /** The leading decimal number of s, as PHP coerces a numeric string. */
  function LeadingNumber(s: string): (v: real)
    ensures |s| > 0 && s[0] == '-' ==> v <= 0.0
    ensures !(|s| > 0 && s[0] == '-') ==> v >= 0.0
  {
    if |s| > 0 && s[0] == '-' then -UnsignedLeading(s[1..]) else UnsignedLeading(s)
  }

  /** `rtrim(s, "%")`: s without its trailing '%' characters. */
  function TrimPercent(s: string): (r: string)
    ensures r <= s
    ensures r == [] || r[|r| - 1] != '%'
    ensures forall i :: |r| <= i < |s| ==> s[i] == '%'
  {
    if |s| > 0 && s[|s| - 1] == '%' then TrimPercent(s[..|s| - 1]) else s
  }

  /**
   * `getPercentageValue`: the number before the trailing '%' signs, as a
   * fraction; a zero number gives exactly 0.
   */
  function PercentageValue(v: string): (f: real)
  {
    var n := LeadingNumber(TrimPercent(v));
    if n == 0.0 then 0.0 else n / 100.0
  }

  // ---------------------------------------------------------------------
  // Properties.

  /** A string that starts with a digit or '.' reads as a non-negative number. */
  lemma LeadingNumberNonNegative(s: string)
    requires |s| > 0 && (IsDigit(s[0]) || s[0] == '.')
    ensures LeadingNumber(s) >= 0.0
  {
  }

  /** Every amount the numeric check accepts reads as a non-negative number. */
  lemma AmountNonNegative(s: string)
    requires ValidateNumericValue(s)
    ensures LeadingNumber(s) >= 0.0
  {
    assert s[0] != '-' by {
      if DigitRun(s) == 0 { assert s[0] == '.'; }
    }
  }

  /** The prefix kept by rtrim still starts as the string did. */
  lemma TrimKeepsStart(s: string, i: nat)
    requires i < |s| && s[i] != '%'
    ensures |TrimPercent(s)| > i && TrimPercent(s)[0] == s[0]
  {
    var r := TrimPercent(s);
    assert r[0] == s[0];
  }

  /** Every tax accepted by the validator is a non-negative fraction. */
  lemma TaxFractionNonNegative(s: string)
    requires ValidateTaxPercentage(s)
    ensures PercentageValue(s) >= 0.0
  {
    TaxPatternStart(s);
    var i :| 0 < i < |s| && s[i] == '%' && IsDigit(s[i - 1]);
    TrimKeepsStart(s, i - 1);
    LeadingNumberNonNegative(TrimPercent(s));
  }

  /** Every discount accepted by the validator is a non-positive fraction. */
  lemma DiscountFractionNonPositive(s: string)
    requires ValidateDiscountPercentage(s)
    ensures PercentageValue(s) <= 0.0
  {
    TaxPatternStart(s[1..]);
    var i :| 0 < i < |s[1..]| && s[1..][i] == '%' && IsDigit(s[1..][i - 1]);
    TrimKeepsStart(s, i);
    var r := TrimPercent(s);
    assert r[0] == '-';
  }

  ghost predicate AllSigns(t: string) {
    forall i :: 0 <= i < |t| ==> t[i] == '%'
  }

  /** Digits a, '.', digits c read as the number a.c. */
  lemma LeadingDecimal(a: string, c: string)
    requires AllDigits(a) && AllDigits(c)
    ensures UnsignedLeading(a + "." + c) == IntegerValue(a) as real + FractionValue(c)
  {
    var body := a + "." + c;
    assert body[..|a|] == a;
    DigitRunIs(body, |a|);
    var t := body[|a| + 1..];
    assert t == c;
    DigitRunIs(t, |c|);
    assert t[..|c|] == c;
  }

  /** Digits a alone read as the whole number a. */
  lemma LeadingWhole(a: string)
    requires AllDigits(a)
    ensures UnsignedLeading(a) == IntegerValue(a) as real
  {
    DigitRunIs(a, |a|);
    assert a[..|a|] == a;
  }

  /**
   * A well-formed percentage `a.c%` (digits a, digits c) is the number a.c
   * divided by 100, whatever number of '%' signs end it.
   */
  lemma PercentageOfDecimal(a: string, c: string, signs: string)
    requires AllDigits(a) && AllDigits(c) && AllSigns(signs)
    ensures PercentageValue(a + "." + c + signs)
         == (IntegerValue(a) as real + FractionValue(c)) / 100.0
  {
    var body := a + "." + c;
    TrimDropsSigns(body, signs);
    LeadingDecimal(a, c);
    assert body[0] != '-' by {
      if |a| > 0 { assert body[0] == a[0] && IsDigit(a[0]); }
    }
  }

  /**
   * `getPercentageValue` on each form the validators accept when the string
   * ends in its '%' signs: `a%`, `a.c%`, `-a%` and `-a.c%` are the number
   * before the signs divided by 100.
   */
  lemma PercentageForms(a: string, c: string, signs: string)
    requires AllDigits(a) && AllDigits(c) && AllSigns(signs)
    ensures PercentageValue(a + signs) == IntegerValue(a) as real / 100.0
    ensures PercentageValue(a + "." + c + signs) == (IntegerValue(a) as real + FractionValue(c)) / 100.0
    ensures PercentageValue("-" + a + signs) == -(IntegerValue(a) as real) / 100.0
    ensures PercentageValue("-" + a + "." + c + signs)
         == -(IntegerValue(a) as real + FractionValue(c)) / 100.0
  {
    PercentageOfDecimal(a, c, signs);
    PercentageOfWhole(a, signs);
    NegativePercentageOfWhole(a, signs);
    NegativePercentageOfDecimal(a, c, signs);
  }

  lemma PercentageOfWhole(a: string, signs: string)
    requires AllDigits(a) && AllSigns(signs)
    ensures PercentageValue(a + signs) == IntegerValue(a) as real / 100.0
  {
    if |a| > 0 { assert IsDigit(a[|a| - 1]); }
    TrimDropsSigns(a, signs);
    LeadingWhole(a);
    if |a| > 0 { assert IsDigit(a[0]); }
  }

  lemma NegativePercentageOfWhole(a: string, signs: string)
    requires AllDigits(a) && AllSigns(signs)
    ensures PercentageValue("-" + a + signs) == -(IntegerValue(a) as real) / 100.0
  {
    var body := "-" + a;
    assert body[|body| - 1] != '%';
    TrimDropsSigns(body, signs);
    assert body + signs == "-" + a + signs;
    assert body[1..] == a;
    LeadingWhole(a);
  }

  lemma NegativePercentageOfDecimal(a: string, c: string, signs: string)
    requires AllDigits(a) && AllDigits(c) && AllSigns(signs)
    ensures PercentageValue("-" + a + "." + c + signs)
         == -(IntegerValue(a) as real + FractionValue(c)) / 100.0
  {
    var body := "-" + a + "." + c;
    assert body[|body| - 1] != '%';
    TrimDropsSigns(body, signs);
    assert body[1..] == a + "." + c;
    LeadingDecimal(a, c);
  }

  lemma {:induction false} TrimDropsSigns(body: string, signs: string)
    requires body == [] || body[|body| - 1] != '%'
    requires AllSigns(signs)
    ensures TrimPercent(body + signs) == body
  {
    if signs == [] {
      assert body + signs == body;
    } else {
      var s := body + signs;
      var fewer := signs[..|signs| - 1];
      assert s[..|s| - 1] == body + fewer;
      TrimDropsSigns(body, fewer);
    }
  }

  /** The documented readings: "0%" is 0 and "-15.5%" is -0.155. */
  lemma PercentageExamples()
    ensures PercentageValue("0%") == 0.0
    ensures PercentageValue("-15.5%") == -0.155
    ensures PercentageValue("10%") == 0.1
    ensures PercentageValue("-10%") == -0.1
    ensures PercentageValue("-5%") == -0.05
  {
    ZeroPercent();
    FifteenAndAHalf();
    TenPercent();
    FivePercent();
  }

  lemma ZeroPercent()
    ensures PercentageValue("0%") == 0.0
  {
    assert TrimPercent("0%") == "0";
    assert DigitRun("0") == 1;
    assert IntegerValue("0") == 0 by { assert "0"[..0] == ""; }
    assert UnsignedLeading("0") == 0.0 by { assert "0"[..1] == "0"; }
  }

  lemma FifteenAndAHalf()
    ensures PercentageValue("-15.5%") == -0.155
  {
    assert TrimPercent("-15.5%") == "-15.5";
    assert "-15.5"[1..] == "15.5";
    assert DigitRun("15.5") == 2;
    assert IntegerValue("15") == 15 by { assert "15"[..1] == "1"; assert "1"[..0] == ""; }
    assert "15.5"[3..] == "5";
    assert DigitRun("5") == 1;
    assert FractionValue("5") == 0.5 by { assert "5"[1..] == ""; }
    assert UnsignedLeading("15.5") == 15.5 by { assert "15.5"[..2] == "15"; assert "5"[..1] == "5"; }
  }

  lemma TenPercent()
    ensures PercentageValue("10%") == 0.1
    ensures PercentageValue("-10%") == -0.1
  {
    assert TrimPercent("10%") == "10";
    assert DigitRun("10") == 2;
    assert IntegerValue("10") == 10 by { assert "10"[..1] == "1"; assert "1"[..0] == ""; }
    assert UnsignedLeading("10") == 10.0 by { assert "10"[..2] == "10"; }
    assert TrimPercent("-10%") == "-10";
    assert "-10"[1..] == "10";
  }

  lemma FivePercent()
    ensures PercentageValue("-5%") == -0.05
  {
    assert TrimPercent("-5%") == "-5";
    assert "-5"[1..] == "5";
    assert DigitRun("5") == 1;
    assert IntegerValue("5") == 5 by { assert "5"[..0] == ""; }
    assert UnsignedLeading("5") == 5.0 by { assert "5"[..1] == "5"; }
  }
}
