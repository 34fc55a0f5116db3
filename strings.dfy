/** The pieces of Kotlin string templates the flows' messages use. */
module Strings {
  import opened Outcomes

  /** The character of a decimal digit. */
  function Digit(d: nat): (c: char)
    requires d < 10
    ensures '0' <= c <= '9'
    ensures c as int - '0' as int == d
  {
    ('0' as int + d) as char
  }

  predicate IsDigits(s: string) {
    forall i :: 0 <= i < |s| ==> '0' <= s[i] <= '9'
  }

  /** The number a string of decimal digits denotes, most significant digit
      first. */
  ghost function DigitsValue(s: string): int
    requires IsDigits(s)
  {
    if |s| == 0 then 0
    else DigitsValue(s[..|s| - 1]) * 10 + (s[|s| - 1] as int - '0' as int)
  }

  /** A natural number written in base ten, without leading zeros: digits
      that denote exactly `n`. */
  function NatText(n: nat): (s: string)
    ensures |s| > 0 && IsDigits(s)
    ensures (s[0] == '0') <==> n == 0
    ensures n == 0 ==> s == "0"
    ensures DigitsValue(s) == n
  {
    if n < 10 then [Digit(n)]
    else
      var init := NatText(n / 10);
      var s := init + [Digit(n % 10)];
      assert s[..|s| - 1] == init;
      s
  }

  /** An amount as a template renders it: the digits of its magnitude,
      without leading zeros, after a minus sign when it is negative. */
  function AmountText(n: int): (s: string)
    ensures |s| > 0
    ensures n < 0 <==> s[0] == '-'
    ensures n >= 0 ==> IsDigits(s) && DigitsValue(s) == n
    ensures n < 0 ==> |s| > 1 && IsDigits(s[1..]) && DigitsValue(s[1..]) == -n
    ensures (s[if n < 0 then 1 else 0] == '0') <==> n == 0
    ensures n == 0 ==> s == "0"
  {
    if n < 0 then
      var s := "-" + NatText(-n);
      assert s[1..] == NatText(-n);
      s
    else NatText(n)
  }

  /** A nullable string in a template: its text, or "null". */
  function NullableText(s: Option<string>): (t: string)
    ensures s.Some? ==> t == s.value
    ensures s.None? ==> t == "null"
  {
    match s
    case Some(v) => v
    case None => "null"
  }
}
