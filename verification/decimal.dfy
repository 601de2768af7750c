/** Decimal rendering of natural numbers (`String(n)`), two-digit
    zero padding (`padStart(2, "0")`) and the matching parser. */
module Decimal {

  predicate IsDigit(c: char) {
    '0' <= c <= '9'
  }

  predicate AllDigits(s: string) {
    forall i :: 0 <= i < |s| ==> IsDigit(s[i])
  }

  function DigitChar(d: nat): (c: char)
    requires d < 10
    ensures IsDigit(c)
  {
    ('0' as int + d) as char
  }

  function DigitValue(c: char): (d: nat)
    requires IsDigit(c)
    ensures d < 10
  {
    c as int - '0' as int
  }

  /** `String(n)` for a natural number: its decimal digits with no
      leading zero. */
  function Show(n: nat): (s: string)
    ensures |s| >= 1 && AllDigits(s)
    ensures |s| == 1 <==> n < 10
    ensures n >= 10 ==> s[0] != '0'
  {
    if n < 10 then [DigitChar(n)] else Show(n / 10) + [DigitChar(n % 10)]
  }

  /** The value of a string of decimal digits. */
  function Parse(s: string): nat
    requires AllDigits(s)
  {
    if s == [] then 0 else Parse(s[..|s| - 1]) * 10 + DigitValue(s[|s| - 1])
  }

  /** Parsing undoes rendering. */
  lemma {:induction false} ParseShow(n: nat)
    ensures Parse(Show(n)) == n
  {
    var s := Show(n);
    if n >= 10 {
      assert s[..|s| - 1] == Show(n / 10);
      ParseShow(n / 10);
    }
  }

  /** `formatTwo`: the decimal rendering padded on the left with zeros to
      at least two characters. */
  function PadTwo(n: nat): (s: string)
    ensures AllDigits(s) && |s| >= 2
    ensures n < 100 ==> |s| == 2
    ensures Parse(s) == n
  {
    var d := Show(n);
    ParseShow(n);
    if |d| < 2 then
      var s := "0" + d;
      assert s[..1] == "0";
      s
    else d
  }
}
