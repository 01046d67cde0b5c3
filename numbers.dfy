/**
 * JavaScript numbers as far as the search controller uses them: integer
 * values and NaN, the decimal text a template literal writes for an
 * integer, and `parseInt(s, 10)` on well-formed integer text.
 */
module Numbers {

  /** A JavaScript number restricted to what the controller can hold:
      an integer, or NaN (what `parseInt` yields for text with no digits). */
  datatype Num = Int(value: int) | NaN

  predicate IsDigit(c: char) {
    '0' <= c <= '9'
  }

  predicate AllDigits(s: string) {
    forall i :: 0 <= i < |s| ==> IsDigit(s[i])
  }

  function DigitValue(c: char): (d: nat)
    requires IsDigit(c)
    ensures d < 10
  {
    c as int - '0' as int
  }

  function DigitChar(d: nat): (c: char)
    requires d < 10
    ensures IsDigit(c) && DigitValue(c) == d
  {
    ('0' as int + d) as char
  }

  /** The value of a string of decimal digits, most significant digit first. */
  function DigitsValue(s: string): nat
    requires AllDigits(s)
  {
    if s == [] then 0 else DigitsValue(s[..|s| - 1]) * 10 + DigitValue(s[|s| - 1])
  }

  /** The decimal text of a natural number: digits only, no leading zero,
      and reading it back gives the number. */
  function NatToString(n: nat): (s: string)
    ensures |s| >= 1 && AllDigits(s)
    ensures DigitsValue(s) == n
    ensures s[0] != '0' || s == "0"
  {
    if n < 10 then [DigitChar(n)]
    else
      var prefix := NatToString(n / 10);
      var s := prefix + [DigitChar(n % 10)];
      assert s[..|s| - 1] == prefix;
      s
  }

  /** The text `${n}` produces for an integer `n`: a leading minus sign
      exactly when `n` is negative, then the digits with no leading zero
      (0 is "0"). `parseInt` reads it back to `n`, and it holds no character
      other than '-' and digits (so never a comma). */
  function IntToString(n: int): (s: string)
    ensures ParseInt(s) == Int(n)
    ensures |s| >= 1 && ((s[0] == '-') <==> n < 0)
    ensures var d := if n < 0 then s[1..] else s;
      |d| >= 1 && AllDigits(d) && (d[0] != '0' || d == "0")
    ensures forall i :: 0 <= i < |s| ==> s[i] == '-' || IsDigit(s[i])
    ensures ',' !in s
  {
    if n < 0 then
      var digits := NatToString(-n);
      assert ("-" + digits)[1..] == digits;
      "-" + digits
    else
      NatToString(n)
  }

  /** `parseInt(s, 10)` on text made of an optional minus sign and one or
      more digits; every other text reads as NaN here. Text without a digit
      is NaN, and only text with a leading minus sign reads as a negative. */
  function ParseInt(s: string): (r: Num)
    ensures (forall i :: 0 <= i < |s| ==> !IsDigit(s[i])) ==> r == NaN
    ensures r.Int? && r.value < 0 ==> s[0] == '-'
  {
    if |s| >= 2 && s[0] == '-' && AllDigits(s[1..]) then Int(-(DigitsValue(s[1..]) as int))
    else if |s| >= 1 && AllDigits(s) then Int(DigitsValue(s))
    else NaN
  }
}
