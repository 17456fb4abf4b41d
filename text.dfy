/**
 * The two number-to-text conversions the log entries use: Java's decimal
 * rendering of an int (string concatenation) and the "%3.1f" format of a
 * positive value, in an English locale.
 */
module Text {

  predicate IsDigit(c: char) {
    '0' <= c <= '9'
  }

  predicate AllDigits(s: string) {
    forall i :: 0 <= i < |s| ==> IsDigit(s[i])
  }

  function Digit(d: nat): (c: char)
    requires d < 10
    ensures IsDigit(c) && c as int - '0' as int == d
  {
    ('0' as int + d) as char
  }

  /** The value a string of decimal digits denotes. */
  function DecimalValue(s: string): nat
    requires AllDigits(s)
  {
    if s == [] then 0
    else DecimalValue(s[..|s| - 1]) * 10 + (s[|s| - 1] as int - '0' as int)
  }

  /** Decimal digits of `n`, most significant first, without leading zeros. */
  function NatToDecimal(n: nat): (s: string)
    ensures 1 <= |s| && AllDigits(s)
    ensures |s| > 1 ==> s[0] != '0'
  {
    if n < 10 then [Digit(n)] else NatToDecimal(n / 10) + [Digit(n % 10)]
  }

  /** Reading the digits back gives the number that was written. */
  lemma {:induction false} DecimalRoundTrip(n: nat)
    ensures DecimalValue(NatToDecimal(n)) == n
  {
    if n >= 10 {
      DecimalRoundTrip(n / 10);
      var s := NatToDecimal(n);
      assert s[..|s| - 1] == NatToDecimal(n / 10);
    }
  }

  /** Java's rendering of an int in a string concatenation. */
  function IntToDecimal(i: int): (s: string)
    ensures 1 <= |s|
    ensures i >= 0 ==> AllDigits(s) && DecimalValue(s) == i
    ensures i >= 0 && |s| > 1 ==> s[0] != '0'
    ensures i < 0 ==> |s| >= 2 && s[0] == '-' && AllDigits(s[1..]) && DecimalValue(s[1..]) == -i
    ensures i < 0 && |s| > 2 ==> s[1] != '0'
  {
    DecimalRoundTrip(if i < 0 then -i else i);
    if i < 0 then "-" + NatToDecimal(-i) else NatToDecimal(i)
  }

  /** `x` rounded half-up to a whole number of tenths. */
  function Tenths(x: real): (n: nat)
    requires x > 0.0
    ensures n as real - 0.5 <= 10.0 * x < n as real + 0.5
  {
    (10.0 * x + 0.5).Floor
  }

  /** "%3.1f" of a positive value: the whole part, a point, one rounded
      decimal. The text is at least three characters wide, so the width
      never pads. */
  function FormatTenths(x: real): (s: string)
    requires x > 0.0
    ensures 3 <= |s| && s[|s| - 2] == '.'
    ensures AllDigits(s[..|s| - 2]) && IsDigit(s[|s| - 1])
    ensures DecimalValue(s[..|s| - 2]) * 10 + (s[|s| - 1] as int - '0' as int) == Tenths(x)
    ensures |s| > 3 ==> s[0] != '0'
  {
    var n := Tenths(x);
    var whole := NatToDecimal(n / 10);
    DecimalRoundTrip(n / 10);
    var s := whole + "." + [Digit(n % 10)];
    assert s[..|s| - 2] == whole;
    s
  }
}
