/**
 * Decimal numerals of non-negative integers: the plain one that string interpolation of an
 * `Int` prints, and the two-digit one that `String(format: "%02d")` prints,
 * with a reference parser that reads them back.
 */
module Decimal {

  predicate IsDigit(c: char) {
    '0' <= c <= '9'
  }

  predicate IsDigits(s: string) {
    forall i :: 0 <= i < |s| ==> IsDigit(s[i])
  }

  function DigitValue(c: char): (d: nat)
    requires IsDigit(c)
    ensures d < 10
  {
    c as int - '0' as int
  }

  function DigitChar(d: nat): (c: char)
    requires d < 10
    ensures IsDigit(c) && DigitValue(c) == d
  {
    ('0' as int + d) as char
  }

  /** The numeral of `n` without leading zeros, as interpolating an `Int` prints it. */
  function Digits(n: nat): (s: string)
    ensures IsDigits(s) && |s| >= 1
    ensures |s| > 1 ==> s[0] != '0'
    ensures |s| == 1 <==> n < 10
    ensures n < 100 ==> |s| <= 2
  {
    if n < 10 then [DigitChar(n)] else Digits(n / 10) + [DigitChar(n % 10)]
  }

  /** Reference reading of a numeral: most significant digit first. */
  function ParseDigits(s: string): (n: nat)
    requires IsDigits(s)
  {
    if s == [] then 0 else 10 * ParseDigits(s[..|s| - 1]) + DigitValue(s[|s| - 1])
  }

  lemma {:induction false} ParseDigitsOfDigits(n: nat)
    ensures ParseDigits(Digits(n)) == n
  {
    if n >= 10 {
      var s := Digits(n);
      assert s[..|s| - 1] == Digits(n / 10);
      ParseDigitsOfDigits(n / 10);
    }
  }

  /** A leading zero does not change the value of a numeral. */
  lemma {:induction false} ParseLeadingZero(s: string)
    requires IsDigits(s)
    ensures IsDigits("0" + s) && ParseDigits("0" + s) == ParseDigits(s)
  {
    var z := "0" + s;
    if s != [] {
      assert z[..|z| - 1] == "0" + s[..|s| - 1];
      ParseLeadingZero(s[..|s| - 1]);
    }
  }

  /** `%02d`: the numeral of `n`, zero-padded on the left to at least two digits. */
  function Pad2(n: nat): (s: string)
    ensures IsDigits(s) && |s| >= 2
    ensures n < 100 ==> |s| == 2
    ensures |s| > 2 ==> s[0] != '0'
    ensures ParseDigits(s) == n
  {
    ParseDigitsOfDigits(n);
    if n < 10 then
      ParseLeadingZero(Digits(n));
      "0" + Digits(n)
    else
      Digits(n)
  }
}
