/**
 * The two conversions of Go's strconv package that the middleware uses:
 * FormatBool and Itoa. Each is paired with a reading of its output back
 * into the value it renders.
 */
module Strconv {

  predicate IsDigit(c: char) {
    '0' <= c <= '9'
  }

  predicate AllDigits(s: string) {
    forall i :: 0 <= i < |s| ==> IsDigit(s[i])
  }

  /** The value of a decimal digit character. */
  function DigitValue(c: char): (d: nat)
    requires IsDigit(c)
    ensures d < 10
  {
    c as int - '0' as int
  }

  /** The character of a decimal digit. */
  function DigitChar(d: nat): (c: char)
    requires d < 10
    ensures IsDigit(c) && DigitValue(c) == d
  {
    ('0' as int + d) as char
  }

  /** The number a string of decimal digits denotes, most significant digit first. */
  function DecimalValue(s: string): nat
    requires AllDigits(s)
  {
    if s == [] then 0 else 10 * DecimalValue(s[..|s| - 1]) + DigitValue(s[|s| - 1])
  }

  /** Base-10 rendering of a natural number: at least one digit, no leading zero. */
  function FormatNat(n: nat): (s: string)
    ensures |s| >= 1 && AllDigits(s)
    ensures s[0] == '0' <==> n == 0
    ensures n == 0 ==> s == "0"
    decreases n
  {
    if n < 10 then [DigitChar(n)] else FormatNat(n / 10) + [DigitChar(n % 10)]
  }

  /** Reading the rendering of n back gives n. */
  lemma {:induction false} FormatNatRoundTrip(n: nat)
    ensures DecimalValue(FormatNat(n)) == n
  {
    if n >= 10 {
      var s := FormatNat(n);
      assert s[..|s| - 1] == FormatNat(n / 10);
      FormatNatRoundTrip(n / 10);
    }
  }

  /** strconv.Itoa: base-10 rendering of an integer, with a leading '-' when negative. */
  function Itoa(i: int): (s: string)
    ensures i >= 0 ==> |s| >= 1 && AllDigits(s) && DecimalValue(s) == i && (s[0] == '0' ==> s == "0")
    ensures i < 0 ==> |s| >= 2 && s[0] == '-' && AllDigits(s[1..]) && s[1] != '0'
                      && DecimalValue(s[1..]) == -i
  {
    if i < 0 then
      FormatNatRoundTrip(-i);
      var digits := FormatNat(-i);
      assert ("-" + digits)[1..] == digits;
      "-" + digits
    else
      FormatNatRoundTrip(i);
      FormatNat(i)
  }

  /** Distinct integers have distinct renderings. */
  lemma ItoaInjective(i: int, j: int)
    requires Itoa(i) == Itoa(j)
    ensures i == j
  {
  }

  /** strconv.FormatBool: "true" or "false". */
  function FormatBool(b: bool): (s: string)
    ensures s == "true" <==> b
    ensures s == "false" <==> !b
  {
    if b then "true" else "false"
  }
}
