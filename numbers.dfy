/**
 * Number parsing and rounding as Python does it, on the decimal subset:
 * `float(text)` and `int(text)` accept surrounding whitespace, one sign and
 * plain decimal digits (with one '.' for `float`). Exponents, `inf`, `nan`,
 * underscores and non-ASCII digits are outside the model and read as a
 * failed conversion.
 */
module Numbers {
  import opened Wrappers
  import opened Strings

  function Pow10(n: nat): (p: nat)
    ensures p >= 1
  {
    if n == 0 then 1 else 10 * Pow10(n - 1)
  }

  /** Digits, an optional '.', more digits, and at least one digit in all. */
  predicate IsDecimalBody(b: string)
  {
    var dot := Find(b, '.');
    if dot < 0 then IsDigits(b)
    else AllDigits(b[..dot]) && AllDigits(b[dot + 1..]) && |b| > 1
  }

  function DecimalBodyValue(b: string): (r: real)
    requires IsDecimalBody(b)
    ensures r >= 0.0
  {
    var dot := Find(b, '.');
    if dot < 0 then DigitsValue(b) as real
    else DigitsValue(b[..dot]) as real + Fraction(b[dot + 1..])
  }

  /** The value of the digits after a decimal point: `d` read as 0.d. */
  function Fraction(d: string): (r: real)
    requires AllDigits(d)
    ensures r >= 0.0
  {
    DigitsValue(d) as real / Pow10(|d|) as real
  }

  predicate HasSign(t: string) { |t| > 0 && (t[0] == '-' || t[0] == '+') }

  /** `t` without its leading sign, if it has one. */
  function Unsigned(t: string): string
  {
    if HasSign(t) then t[1..] else t
  }

  /** Python `float(text)`: `None` where Python raises `ValueError`. */
  function ParseDecimal(text: string): Option<real>
  {
    var t := Strip(text);
    var body := Unsigned(t);
    if IsDecimalBody(body) then
      Some(if HasSign(t) && t[0] == '-' then -DecimalBodyValue(body) else DecimalBodyValue(body))
    else None
  }

  /** Python `int(text)`: `None` where Python raises `ValueError`. */
  function ParseInt(text: string): Option<int>
  {
    var t := Strip(text);
    var body := Unsigned(t);
    if IsDigits(body) then
      Some(if HasSign(t) && t[0] == '-' then -(DigitsValue(body) as int) else DigitsValue(body) as int)
    else None
  }

  lemma StripDigits(s: string)
    requires IsDigits(s)
    ensures Strip(s) == s
  {
    StripTrimmed(s);
  }

  /** `int(str(n)) == n` and `float(str(n)) == n` for every natural number. */
  lemma {:induction false} ParseNatText(n: nat)
    ensures ParseInt(NatText(n)) == Some(n as int)
    ensures ParseDecimal(NatText(n)) == Some(n as real)
  {
    NatTextRoundTrip(n);
    ParseDigits(NatText(n));
  }

  /** A run of digits reads back, through `int()` and `float()`, as its digits' value. */
  lemma ParseDigits(t: string)
    requires IsDigits(t)
    ensures ParseInt(t) == Some(DigitsValue(t) as int)
    ensures ParseDecimal(t) == Some(DigitsValue(t) as real)
  {
    StripDigits(t);
    assert !HasSign(t);
    DigitsBody(t);
  }

  /** A plain run of digits is a decimal body worth its digits' value. */
  lemma DigitsBody(t: string)
    requires IsDigits(t)
    ensures IsDecimalBody(t) && DecimalBodyValue(t) == DigitsValue(t) as real
  {
    assert '.' !in t by {
      forall i | 0 <= i < |t| ensures t[i] != '.' { assert IsDigit(t[i]); }
    }
    assert Find(t, '.') == -1;
  }

  /** `int(str(i)) == i` for every integer. */
  lemma {:induction false} ParseIntText(i: int)
    ensures ParseInt(IntText(i)) == Some(i)
  {
    if i >= 0 {
      ParseNatText(i);
    } else {
      var d := NatText(-i);
      NatTextRoundTrip(-i);
      assert IntText(i) == "-" + d;
      ParseNegativeDigits(d);
    }
  }

  /** A minus sign followed by digits reads back through `int()` as the negated value. */
  lemma ParseNegativeDigits(d: string)
    requires IsDigits(d)
    ensures ParseInt("-" + d) == Some(-(DigitsValue(d) as int))
  {
    NegativeDigitsTrimmed(d);
    var t := "-" + d;
    assert Strip(t) == t && Unsigned(t) == d;
  }

  /** A minus sign followed by digits has nothing to strip, and a sign whose removal leaves the digits. */
  lemma NegativeDigitsTrimmed(d: string)
    requires IsDigits(d)
    ensures Strip("-" + d) == "-" + d && HasSign("-" + d) && ("-" + d)[0] == '-' && Unsigned("-" + d) == d
  {
    var t := "-" + d;
    assert t[0] == '-' && !IsSpace(t[0]);
    assert IsDigit(d[|d| - 1]);
    assert t[|t| - 1] == d[|d| - 1];
    StripTrimmed(t);
    assert t[1..] == d;
  }

  /**
   * `round(x, 1)` for the non-negative scores it is applied to: to the nearest
   * tenth, halves upward. (Python rounds the binary float half-to-even.)
   */
  function RoundTenth(x: real): (r: real)
    ensures x - 0.05 <= r <= x + 0.05
  {
    ((x * 10.0 + 0.5).Floor as real) / 10.0
  }

  /** `round(x)` of a float, kept as a float: to the nearest whole number, halves upward. */
  function RoundWhole(x: real): (r: real)
    ensures x - 0.5 < r <= x + 0.5
  {
    (x + 0.5).Floor as real
  }

  /** `round(x, 2)`: to the nearest hundredth, halves upward. */
  function RoundCents(x: real): (r: real)
    ensures x - 0.005 < r <= x + 0.005
  {
    ((x * 100.0 + 0.5).Floor as real) / 100.0
  }
}
