/**
 * The three regular expressions the cart validates its input strings with
 * (src/Cart.php, validateTaxPercentage, validateDiscountPercentage and
 * validateNumericValue):
 *
 *   tax       /^[0-9]*\.{0,1}\d{1,2}\%/
 *   discount  /^\-[0-9]*\.{0,1}\d{1,2}\%/
 *   numeric   /^[0-9]*\.{0,1}\d{1,2}/
 *
 * None of them is anchored at the end, so each accepts a string when some
 * PREFIX of it has the shape. Each is given twice: as the language the
 * regular expression denotes (ghost, with the split points as witnesses) and
 * as a scanner over the string; a lemma shows the two agree.
 */
module Patterns {

  predicate IsDigit(c: char) {
    '0' <= c <= '9'
  }

  ghost predicate AllDigits(s: string) {
    forall i :: 0 <= i < |s| ==> IsDigit(s[i])
  }

  /** Length of the longest run of digits at the start of s. */
  function DigitRun(s: string): (n: nat)
    ensures n <= |s|
    ensures forall i :: 0 <= i < n ==> IsDigit(s[i])
    ensures n < |s| ==> !IsDigit(s[n])
  {
    if |s| > 0 && IsDigit(s[0]) then 1 + DigitRun(s[1..]) else 0
  }

  // ---------------------------------------------------------------------
  // The languages of the regular expressions.

  /**
   * u read as `[0-9]*\.{0,1}\d{1,2}`: u[..p] are the leading digits,
   * u[p..q] is empty or a single '.', and u[q..] are one or two digits.
   */
  ghost predicate NumberShapeAt(u: string, p: int, q: int) {
    && 0 <= p <= q <= |u|
    && AllDigits(u[..p])
    && (q == p || (q == p + 1 && u[p] == '.'))
    && 1 <= |u| - q <= 2
    && AllDigits(u[q..])
  }

  ghost predicate NumberShape(u: string) {
    exists p, q :: NumberShapeAt(u, p, q)
  }

  /** w read as `[0-9]*\.{0,1}\d{1,2}\%`. */
  ghost predicate PercentShape(w: string) {
    |w| >= 1 && w[|w| - 1] == '%' && NumberShape(w[..|w| - 1])
  }

  /** Some prefix of s is in the tax language. */
  ghost predicate MatchesTaxPattern(s: string) {
    exists n :: 0 <= n <= |s| && PercentShape(s[..n])
  }

  /** s starts with '-' and some prefix of the rest is in the tax language. */
  ghost predicate MatchesDiscountPattern(s: string) {
    exists n :: 1 <= n <= |s| && s[0] == '-' && PercentShape(s[1..n])
  }

  /** Some prefix of s is in the numeric language. */
  ghost predicate MatchesNumericPattern(s: string) {
    exists n :: 0 <= n <= |s| && NumberShape(s[..n])
  }

  // ---------------------------------------------------------------------
  // The scanners.

  /**
   * `validateTaxPercentage`: digits followed by '%', or digits, '.', one or
   * two digits and '%'; anything may follow.
   */
  function ValidateTaxPercentage(s: string): (ok: bool)
    ensures ok <==> MatchesTaxPattern(s)
  {
    TaxPatternExact(s);
    TaxScan(s)
  }

  /** `validateDiscountPercentage`: a '-' and then what the tax check accepts. */
  function ValidateDiscountPercentage(s: string): (ok: bool)
    ensures ok <==> MatchesDiscountPattern(s)
  {
    DiscountPatternExact(s);
    |s| >= 1 && s[0] == '-' && TaxScan(s[1..])
  }

  /**
   * `validateNumericValue`: a leading digit, or a '.' followed by a digit;
   * anything may follow.
   */
  function ValidateNumericValue(s: string): (ok: bool)
    ensures ok <==> MatchesNumericPattern(s)
  {
    NumericPatternExact(s);
    NumericScan(s)
  }

  function TaxScan(s: string): bool {
    var d := DigitRun(s);
    || (1 <= d < |s| && s[d] == '%')
    || (d < |s| && s[d] == '.' &&
        var e := DigitRun(s[d + 1..]);
        1 <= e <= 2 && d + 1 + e < |s| && s[d + 1 + e] == '%')
  }

  function NumericScan(s: string): bool {
    DigitRun(s) >= 1 || (|s| >= 2 && s[0] == '.' && IsDigit(s[1]))
  }

  // ---------------------------------------------------------------------
  // Agreement of scanners and languages.

  lemma DigitRunIs(s: string, k: nat)
    requires k <= |s| && AllDigits(s[..k]) && (k == |s| || !IsDigit(s[k]))
    ensures DigitRun(s) == k
  {
  }

  lemma AllDigitsJoin(u: string, p: nat)
    requires p <= |u| && AllDigits(u[..p]) && AllDigits(u[p..])
    ensures AllDigits(u)
  {
    forall i | 0 <= i < |u|
      ensures IsDigit(u[i])
    {
      if i < p { assert u[..p][i] == u[i]; } else { assert u[p..][i - p] == u[i]; }
    }
  }

  lemma TaxPatternExact(s: string)
    ensures TaxScan(s) <==> MatchesTaxPattern(s)
  {
    if TaxScan(s) { TaxScanSound(s); }
    if MatchesTaxPattern(s) {
      var n :| 0 <= n <= |s| && PercentShape(s[..n]);
      TaxScanComplete(s, n);
    }
  }

  lemma TaxScanSound(s: string)
    requires TaxScan(s)
    ensures MatchesTaxPattern(s)
  {
    var d := DigitRun(s);
    if 1 <= d < |s| && s[d] == '%' {
      var w := s[..d + 1];
      assert w[..d] == s[..d];
      assert NumberShapeAt(w[..d], d - 1, d - 1);
      assert PercentShape(w);
    } else {
      var e := DigitRun(s[d + 1..]);
      var w := s[..d + 2 + e];
      var u := w[..d + 1 + e];
      assert u[..d] == s[..d];
      assert u[d + 1..] == s[d + 1..][..e];
      assert NumberShapeAt(u, d, d + 1);
      assert PercentShape(w);
    }
  }

  lemma TaxScanComplete(s: string, n: nat)
    requires n <= |s| && PercentShape(s[..n])
    ensures TaxScan(s)
  {
    var u := s[..n][..n - 1];
    assert u == s[..n - 1];
    var p, q :| NumberShapeAt(u, p, q);
    assert s[n - 1] == '%';
    if q == p {
      AllDigitsJoin(u, p);
      DigitRunIs(s, n - 1);
    } else {
      assert u[..p] == s[..p];
      DigitRunIs(s, p);
      var t := s[p + 1..];
      assert t[..n - 1 - (p + 1)] == u[q..];
      DigitRunIs(t, n - 1 - (p + 1));
      assert t[n - 1 - (p + 1)] == s[n - 1];
    }
  }

  lemma DiscountPatternExact(s: string)
    ensures (|s| >= 1 && s[0] == '-' && TaxScan(s[1..])) <==> MatchesDiscountPattern(s)
  {
    if |s| >= 1 {
      var t := s[1..];
      TaxPatternExact(t);
      if MatchesTaxPattern(t) {
        var n :| 0 <= n <= |t| && PercentShape(t[..n]);
        assert t[..n] == s[1..n + 1];
      }
      if MatchesDiscountPattern(s) {
        var n :| 1 <= n <= |s| && s[0] == '-' && PercentShape(s[1..n]);
        assert t[..n - 1] == s[1..n];
      }
    }
  }

  lemma NumericPatternExact(s: string)
    ensures NumericScan(s) <==> MatchesNumericPattern(s)
  {
    if NumericScan(s) {
      if DigitRun(s) >= 1 {
        assert NumberShapeAt(s[..1], 0, 0);
      } else {
        assert NumberShapeAt(s[..2], 0, 1);
      }
    }
    if MatchesNumericPattern(s) {
      var n :| 0 <= n <= |s| && NumberShape(s[..n]);
      var u := s[..n];
      var p, q :| NumberShapeAt(u, p, q);
      if q == p || p >= 1 {
        assert IsDigit(u[0]) by {
          if p >= 1 { assert u[..p][0] == u[0]; } else { assert u[q..][0] == u[0]; }
        }
      } else {
        assert u[q..][0] == u[1];
      }
    }
  }

  // ---------------------------------------------------------------------
  // Consequences.

  /**
   * The patterns are not anchored at the end: whatever follows an accepted
   * string, the result is accepted too.
   */
  lemma TaxPatternUnanchored(s: string, rest: string)
    requires ValidateTaxPercentage(s)
    ensures ValidateTaxPercentage(s + rest)
  {
    var n :| 0 <= n <= |s| && PercentShape(s[..n]);
    assert (s + rest)[..n] == s[..n];
  }

  lemma DiscountPatternUnanchored(s: string, rest: string)
    requires ValidateDiscountPercentage(s)
    ensures ValidateDiscountPercentage(s + rest)
  {
    var n :| 1 <= n <= |s| && s[0] == '-' && PercentShape(s[1..n]);
    assert (s + rest)[1..n] == s[1..n];
  }

  lemma NumericPatternUnanchored(s: string, rest: string)
    requires ValidateNumericValue(s)
    ensures ValidateNumericValue(s + rest)
  {
    var n :| 0 <= n <= |s| && NumberShape(s[..n]);
    assert (s + rest)[..n] == s[..n];
  }

  /** What every accepted tax string starts with: a digit or a '.'. */
  lemma TaxPatternStart(s: string)
    requires ValidateTaxPercentage(s)
    ensures |s| >= 2 && (IsDigit(s[0]) || s[0] == '.')
    ensures exists i :: 0 < i < |s| && s[i] == '%' && IsDigit(s[i - 1])
  {
    var d := DigitRun(s);
    if 1 <= d < |s| && s[d] == '%' {
      assert s[d] == '%' && IsDigit(s[d - 1]);
    } else {
      var e := DigitRun(s[d + 1..]);
      assert s[d + 1..][e - 1] == s[d + e];
      assert s[d + 1 + e] == '%' && IsDigit(s[d + 1 + e - 1]);
    }
  }

  /** Concrete cases: the documented examples pass, malformed strings do not. */
  lemma PatternExamples()
    ensures ValidateTaxPercentage("5.27%") && ValidateTaxPercentage("0%")
    ensures ValidateDiscountPercentage("-15.50%")
    ensures !ValidateTaxPercentage("12.345%") && !ValidateTaxPercentage("5")
    ensures !ValidateDiscountPercentage("15%") && !ValidateDiscountPercentage("0%")
    ensures ValidateTaxPercentage("5%off")
    ensures ValidateNumericValue("15.00") && !ValidateNumericValue("abc")
  {
    TaxExamples();
    DiscountExamples();
    NumericExamples();
  }

  lemma TaxExamples()
    ensures ValidateTaxPercentage("5.27%") && ValidateTaxPercentage("0%")
    ensures !ValidateTaxPercentage("12.345%") && !ValidateTaxPercentage("5")
    ensures ValidateTaxPercentage("5%off")
  {
    assert DigitRun("5.27%") == 1 by { assert DigitRun(".27%") == 0; }
    assert DigitRun("27%") == 2 by { assert DigitRun("%") == 0; }
    assert DigitRun("0%") == 1;
    assert DigitRun("12.345%") == 2;
    assert DigitRun("345%") == 3;
    assert DigitRun("5") == 1;
    assert DigitRun("5%off") == 1;
  }

  lemma DiscountExamples()
    ensures ValidateDiscountPercentage("-15.50%")
    ensures !ValidateDiscountPercentage("15%") && !ValidateDiscountPercentage("0%")
  {
    assert "-15.50%"[1..] == "15.50%";
    assert DigitRun("15.50%") == 2;
    assert DigitRun("50%") == 2;
  }

  lemma NumericExamples()
    ensures ValidateNumericValue("15.00") && !ValidateNumericValue("abc")
  {
    assert DigitRun("15.00") == 2 && DigitRun("abc") == 0;
  }
}
