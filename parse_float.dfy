/** JavaScript's `parseFloat` on strings made only of decimal digits and
    dots, with the result as an exact decimal instead of a double.
    `parseFloat` reads the longest prefix of its argument that is a decimal
    literal (digits, optionally a dot, optionally more digits, at least one
    digit in all); on such strings exponents, signs, `Infinity` and leading
    whitespace never occur, so the grammar below is the whole story. */
module ParseFloat {
  import opened Wrappers
  import opened Text

  /** The exact number `mantissa / 10^scale`. */
  datatype Decimal = Decimal(mantissa: nat, scale: nat)

  function Pow10(k: nat): (p: nat)
    ensures p >= 1
  {
    if k == 0 then 1 else 10 * Pow10(k - 1)
  }

  function Value(d: Decimal): real
  {
    (d.mantissa as real) / (Pow10(d.scale) as real)
  }

  /** The strings this model of `parseFloat` covers. */
  predicate DigitsAndDots(s: string) {
    forall i :: 0 <= i < |s| ==> IsDigit(s[i]) || s[i] == '.'
  }

  /** `p` is a decimal literal without sign or exponent: `D`, `D.`, `D.D`
      or `.D`, where `D` is a non-empty run of digits. */
  predicate IsDecimalLiteral(p: string) {
    var a := LeadingDigits(p);
    || (0 < a && a == |p|)
    || (a < |p| && p[a] == '.' && AllDigits(p[a + 1..]) && |p| >= 2)
  }

  /** The value a decimal literal denotes. */
  function LiteralValue(p: string): Decimal
    requires IsDecimalLiteral(p)
  {
    var a := LeadingDigits(p);
    if a == |p| then Decimal(DigitsValue(p), 0)
    else Decimal(DigitsValue(p[..a] + p[a + 1..]), |p| - a - 1)
  }

  /** A prefix of `s` has as many leading digits as `s`, up to its length. */
  lemma {:induction false} LeadingDigitsOfPrefix(s: string, k: nat)
    requires k <= |s|
    ensures LeadingDigits(s[..k]) == if LeadingDigits(s) < k then LeadingDigits(s) else k
  {
    if s != [] && k > 0 && IsDigit(s[0]) {
      LeadingDigitsOfPrefix(s[1..], k - 1);
      assert s[..k][1..] == s[1..][..k - 1];
    }
  }

  /** `parseFloat(s)`: the value of the longest prefix of `s` that is a
      decimal literal, with the length of that prefix; `None` (NaN) when no
      non-empty prefix is one. */
  function Parse(s: string): (r: Option<(Decimal, nat)>)
    requires DigitsAndDots(s)
    ensures r.Some? ==>
      var (d, n) := r.value;
      && 0 < n <= |s| && IsDecimalLiteral(s[..n]) && LiteralValue(s[..n]) == d
      && forall k :: n < k <= |s| ==> !IsDecimalLiteral(s[..k])
    ensures r.None? ==> forall k :: 0 < k <= |s| ==> !IsDecimalLiteral(s[..k])
  {
    var a := LeadingDigits(s);
    if a < |s| && s[a] == '.' then
      var b := LeadingDigits(s[a + 1..]);
      if a == 0 && b == 0 then
        NoLiteralAfterLoneDot(s);
        None
      else
        var n := a + 1 + b;
        DotLiteral(s, a, b);
        Some((LiteralValue(s[..n]), n))
    else if a == 0 then
      NoLiteralWithoutDigitOrDot(s);
      None
    else
      IntegerLiteral(s, a);
      Some((LiteralValue(s[..a]), a))
  }

  lemma NoLiteralAfterLoneDot(s: string)
    requires 0 < |s| && s[0] == '.' && LeadingDigits(s[1..]) == 0
    ensures forall k :: 0 < k <= |s| ==> !IsDecimalLiteral(s[..k])
  {
    forall k | 0 < k <= |s| ensures !IsDecimalLiteral(s[..k]) {
      LeadingDigitsOfPrefix(s, k);
      if k >= 2 {
        assert s[..k][1..][0] == s[1];
      }
    }
  }

  lemma NoLiteralWithoutDigitOrDot(s: string)
    requires LeadingDigits(s) == 0 && (s == [] || s[0] != '.')
    ensures forall k :: 0 < k <= |s| ==> !IsDecimalLiteral(s[..k])
  {
    forall k | 0 < k <= |s| ensures !IsDecimalLiteral(s[..k]) {
      LeadingDigitsOfPrefix(s, k);
    }
  }

  lemma DotLiteral(s: string, a: nat, b: nat)
    requires a == LeadingDigits(s) && a < |s| && s[a] == '.'
    requires b == LeadingDigits(s[a + 1..]) && (a > 0 || b > 0)
    ensures IsDecimalLiteral(s[..a + 1 + b])
    ensures forall k :: a + 1 + b < k <= |s| ==> !IsDecimalLiteral(s[..k])
  {
    DotLiteralPrefix(s, a, b);
    forall k | a + 1 + b < k <= |s| ensures !IsDecimalLiteral(s[..k]) {
      NoLongerDotLiteral(s, a, b, k);
    }
  }

  lemma DotLiteralPrefix(s: string, a: nat, b: nat)
    requires a == LeadingDigits(s) && a < |s| && s[a] == '.'
    requires b == LeadingDigits(s[a + 1..]) && (a > 0 || b > 0)
    ensures IsDecimalLiteral(s[..a + 1 + b])
  {
    var n := a + 1 + b;
    var p := s[..n];
    LeadingDigitsOfPrefix(s, n);
    assert LeadingDigits(p) == a;
    assert p[a] == '.';
    assert p[a + 1..] == s[a + 1..][..b];
  }

  lemma NoLongerDotLiteral(s: string, a: nat, b: nat, k: nat)
    requires a == LeadingDigits(s) && a < |s| && s[a] == '.'
    requires b == LeadingDigits(s[a + 1..]) && a + 1 + b < k <= |s|
    ensures !IsDecimalLiteral(s[..k])
  {
    var p := s[..k];
    LeadingDigitsOfPrefix(s, k);
    assert LeadingDigits(p) == a;
    assert p[a + 1..][b] == s[a + 1..][b];
    assert !IsDigit(s[a + 1..][b]);
  }

  lemma IntegerLiteral(s: string, a: nat)
    requires a == LeadingDigits(s) && 0 < a && (a == |s| || s[a] != '.')
    ensures IsDecimalLiteral(s[..a])
    ensures forall k :: a < k <= |s| ==> !IsDecimalLiteral(s[..k])
  {
    LeadingDigitsOfPrefix(s, a);
    forall k | a < k <= |s| ensures !IsDecimalLiteral(s[..k]) {
      LeadingDigitsOfPrefix(s, k);
    }
  }

  /** `parseFloat(s) || 0`: the parsed number, or 0 when nothing parses
      (NaN is falsy, and so is 0). */
  function NumberOrZero(s: string): (v: real)
    requires DigitsAndDots(s)
    ensures v >= 0.0
    ensures v == 0.0 <==> Parse(s).None? || Parse(s).value.0.mantissa == 0
  {
    match Parse(s)
    case None => 0.0
    case Some((d, _)) =>
      ZeroIffMantissaZero(d);
      Value(d)
  }

  lemma ZeroIffMantissaZero(d: Decimal)
    ensures Value(d) >= 0.0
    ensures Value(d) == 0.0 <==> d.mantissa == 0
  {
    var p := Pow10(d.scale) as real;
    assert p > 0.0;
    if d.mantissa > 0 {
      assert (d.mantissa as real) / p > 0.0;
    }
  }
}
