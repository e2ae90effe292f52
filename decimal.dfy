/** Decimal rendering of integers, as std::to_string produces it. */
module Decimal {

  /** The character of one decimal digit. */
  function DigitChar(d: nat): (c: char)
    requires d < 10
    ensures '0' <= c <= '9'
  {
    (48 + d) as char
  }

  /** The value of a digit character (0 for any other character). */
  function DigitValue(c: char): nat
  {
    if '0' <= c <= '9' then c as int - 48 else 0
  }

  predicate IsDigits(s: string)
  {
    forall i :: 0 <= i < |s| ==> '0' <= s[i] <= '9'
  }

  /** Shortest decimal text of a natural number, most significant digit first. */
  function DecimalText(n: nat): (r: string)
    ensures |r| >= 1 && IsDigits(r)
    ensures |r| == 1 <==> n < 10
    ensures r[0] == '0' ==> n == 0
    decreases n
  {
    if n < 10 then [DigitChar(n)] else DecimalText(n / 10) + [DigitChar(n % 10)]
  }

  /** Decimal text of a signed integer: a minus sign before the digits of a negative value. */
  function IntText(n: int): (r: string)
    ensures |r| >= 1
    ensures r[0] == '-' <==> n < 0
    ensures var digits := if n < 0 then r[1..] else r;
      IsDigits(digits) && ParseDecimal(digits) == if n < 0 then -n else n
  {
    var magnitude := if n < 0 then -n else n;
    ParseDecimalText(magnitude);
    if n < 0 then
      var r := "-" + DecimalText(magnitude);
      assert r[1..] == DecimalText(magnitude);
      r
    else DecimalText(n)
  }

  /** Reads a string of digits back as a number; the inverse of DecimalText. */
  function ParseDecimal(s: string): nat
  {
    if s == [] then 0 else ParseDecimal(s[..|s| - 1]) * 10 + DigitValue(s[|s| - 1])
  }

  lemma {:induction false} ParseDecimalText(n: nat)
    ensures ParseDecimal(DecimalText(n)) == n
    decreases n
  {
    if n >= 10 {
      var prefix := DecimalText(n / 10);
      var s := prefix + [DigitChar(n % 10)];
      assert s[..|s| - 1] == prefix;
      ParseDecimalText(n / 10);
    }
  }

  /** Different numbers have different decimal texts. */
  lemma DecimalTextInjective(a: nat, b: nat)
    requires DecimalText(a) == DecimalText(b)
    ensures a == b
  {
    ParseDecimalText(a);
    ParseDecimalText(b);
  }
}
