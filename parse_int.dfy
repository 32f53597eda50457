/**
 * `parseInt(s, 10)` as the payment webhook applies it to the
 * `printfulVariantId` metadata string, and the decimal rendering that
 * such a string is expected to hold.
 */
module NumberParsing {
  import opened Wrappers

  predicate IsDigit(c: char) { '0' <= c <= '9' }

  predicate IsDigits(s: string) { forall i :: 0 <= i < |s| ==> IsDigit(s[i]) }

  function DigitValue(c: char): nat
    requires IsDigit(c)
  {
    c as int - '0' as int
  }

  function DigitChar(d: nat): char
    requires d < 10
  {
    ('0' as int + d) as char
  }

  /** The number a string of decimal digits denotes, most significant first. */
  function DigitsValue(s: string): nat
    requires IsDigits(s)
  {
    if s == [] then 0 else 10 * DigitsValue(s[..|s| - 1]) + DigitValue(s[|s| - 1])
  }

  /** The length of the longest run of decimal digits at the start of `s`. */
  function DigitRun(s: string): (n: nat)
    ensures n <= |s|
    ensures IsDigits(s[..n])
    ensures n < |s| ==> !IsDigit(s[n])
  {
    if s == [] || !IsDigit(s[0]) then 0 else 1 + DigitRun(s[1..])
  }

  /** A JavaScript number as `parseInt` can produce it. */
  datatype Number = Int(value: int) | NaN

  /**
   * `parseInt(s, 10)`: an optional sign, then the longest run of decimal
   * digits; NaN when there is no digit. `undefined` (None) is first turned
   * into the string "undefined", which has no leading digit, so it is NaN.
   */
  function ParseInt(s: Option<string>): (r: Number)
    ensures s.None? ==> r == NaN
    ensures s.Some? && (s.value == [] || !(IsDigit(s.value[0]) || s.value[0] in "+-")) ==> r == NaN
  {
    match s
    case None => NaN
    case Some(t) =>
      var signed := |t| > 0 && (t[0] == '-' || t[0] == '+');
      var digits := if signed then t[1..] else t;
      var n := DigitRun(digits);
      if n == 0 then NaN
      else
        var magnitude: int := DigitsValue(digits[..n]);
        Int(if t[0] == '-' then -magnitude else magnitude)
  }

  /** The canonical decimal rendering of a natural number, with no leading zeros. */
  function Decimal(n: nat): (s: string)
    ensures |s| >= 1 && IsDigits(s)
    ensures |s| > 1 ==> s[0] != '0'
  {
    if n < 10 then [DigitChar(n)] else Decimal(n / 10) + [DigitChar(n % 10)]
  }

  lemma DigitRunOfDigits(s: string)
    requires IsDigits(s)
    ensures DigitRun(s) == |s|
  {
  }

  /** Reading back a rendered number gives the number. */
  lemma {:induction false} DecimalValue(n: nat)
    ensures DigitsValue(Decimal(n)) == n
  {
    if n >= 10 {
      DecimalValue(n / 10);
      var s := Decimal(n);
      assert s[..|s| - 1] == Decimal(n / 10);
    }
  }

  /** On a well-formed, non-empty string of decimal digits `parseInt` is the digits' value. */
  lemma ParseIntOfDigits(s: string)
    requires s != [] && IsDigits(s)
    ensures ParseInt(Some(s)) == Int(DigitsValue(s))
  {
    DigitRunOfDigits(s);
    assert s[..|s|] == s;
  }

  /** A variant id written out in decimal is recovered exactly by `parseInt`. */
  lemma ParseIntRoundTrip(n: nat)
    ensures ParseInt(Some(Decimal(n))) == Int(n)
  {
    ParseIntOfDigits(Decimal(n));
    DecimalValue(n);
  }
}
