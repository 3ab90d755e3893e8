/**
 * The two number/text conversions the service relies on: reading a postal
 * code as a number (as `strconv.ParseFloat` does for a plain run of decimal
 * digits) and rendering a day count (as the `%d` verb of `fmt.Sprintf` does).
 */
module Numerals {
  import opened Outcomes

  predicate IsAsciiDigit(c: char) {
    '0' <= c <= '9'
  }

  /** A non-empty string made only of the digits 0-9. */
  predicate IsDigitRun(s: string) {
    |s| > 0 && forall i :: 0 <= i < |s| ==> IsAsciiDigit(s[i])
  }

  function Pow10(n: nat): (r: nat)
    ensures r >= 1
  {
    if n == 0 then 1 else 10 * Pow10(n - 1)
  }

  function DigitValue(c: char): (d: nat)
    requires IsAsciiDigit(c)
    ensures d < 10
  {
    c as int - '0' as int
  }

  function DigitChar(d: nat): (c: char)
    requires d < 10
    ensures IsAsciiDigit(c) && DigitValue(c) == d
  {
    ('0' as int + d) as char
  }

  /**
   * Reads `s` as a decimal number. Parsing succeeds exactly on a non-empty
   * run of digits (leading zeros allowed), and an n-digit run is below 10^n.
   */
  function ParseDecimal(s: string): (r: Option<nat>)
    ensures r.Some? <==> IsDigitRun(s)
    ensures r.Some? ==> r.value < Pow10(|s|)
  {
    if |s| == 0 || !IsAsciiDigit(s[|s| - 1]) then None
    else if |s| == 1 then Some(DigitValue(s[0]))
    else
      var init := s[..|s| - 1];
      assert forall i :: 0 <= i < |init| ==> init[i] == s[i];
      match ParseDecimal(init)
      case None => None
      case Some(v) => Some(10 * v + DigitValue(s[|s| - 1]))
  }

  /** Leading zeros do not change the value read. */
  lemma {:induction false} ParseDecimalLeadingZero(s: string)
    requires IsDigitRun(s)
    ensures ParseDecimal("0" + s) == ParseDecimal(s)
  {
    var t := "0" + s;
    if |s| == 1 {
      assert t[..|t| - 1] == "0";
    } else {
      ParseDecimalLeadingZero(s[..|s| - 1]);
      assert t[..|t| - 1] == "0" + s[..|s| - 1];
    }
  }

  /** The shortest decimal rendering of `n`: no leading zero unless `n` is 0. */
  function DecimalString(n: nat): (s: string)
    ensures IsDigitRun(s)
    ensures n >= 1 ==> s[0] != '0'
  {
    if n < 10 then [DigitChar(n)] else DecimalString(n / 10) + [DigitChar(n % 10)]
  }

  /** Reading back a rendered number gives the number. */
  lemma {:induction false} ParseDecimalOfDecimalString(n: nat)
    ensures ParseDecimal(DecimalString(n)) == Some(n)
  {
    if n >= 10 {
      var s := DecimalString(n);
      ParseDecimalOfDecimalString(n / 10);
      assert s[..|s| - 1] == DecimalString(n / 10);
    }
  }
}
