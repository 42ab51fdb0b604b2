/** std::to_string on integers, and reading such numbers back. */
module Decimal {
  import opened Bytes

  function Digit(d: nat): char
    requires d < 10
  {
    (('0' as int) + d) as char
  }

  predicate IsDigit(c: char) {
    '0' <= c <= '9'
  }

  function DigitValue(c: char): nat
    requires IsDigit(c)
  {
    (c as int) - ('0' as int)
  }

  function ToDecimal(n: nat): (r: string)
    ensures r != "" && AllDigits(r)
  {
    if n < 10 then [Digit(n)] else ToDecimal(n / 10) + [Digit(n % 10)]
  }

  function ToSigned(n: int): string {
    if n < 0 then "-" + ToDecimal(-n) else ToDecimal(n)
  }

  predicate AllDigits(s: string) {
    forall i :: 0 <= i < |s| ==> IsDigit(s[i])
  }

  function DecimalValue(s: string): nat
    requires AllDigits(s)
  {
    if s == "" then 0 else 10 * DecimalValue(s[..|s| - 1]) + DigitValue(s[|s| - 1])
  }

  lemma {:induction false} DecimalRoundTrip(n: nat)
    ensures DecimalValue(ToDecimal(n)) == n
  {
    if n < 10 {
      assert [Digit(n)][..0] == "";
    } else {
      DecimalRoundTrip(n / 10);
      assert ToDecimal(n)[..|ToDecimal(n)| - 1] == ToDecimal(n / 10);
    }
  }

  /** Different numbers have different texts. */
  lemma DecimalInjective(a: nat, b: nat)
    requires ToDecimal(a) == ToDecimal(b)
    ensures a == b
  {
    DecimalRoundTrip(a);
    DecimalRoundTrip(b);
  }

  function HexValue(c: char): Option<int> {
    if IsDigit(c) then Some(DigitValue(c))
    else if 'A' <= c <= 'F' then Some((c as int) - ('A' as int) + 10)
    else if 'a' <= c <= 'f' then Some((c as int) - ('a' as int) + 10)
    else None
  }

  function ParseHex(s: string): Option<int> {
    if s == "" then Some(0)
    else
      var high, low := ParseHex(s[..|s| - 1]), HexValue(s[|s| - 1]);
      if high.None? || low.None? then None else Some(16 * high.value + low.value)
  }

  /** A number written in decimal or, after 0x, in hexadecimal. */
  function ParseNumber(s: string): Option<int> {
    if "0x" <= s && |s| > 2 then
      var h := ParseHex(s[2..]);
      if h.Some? then Some(h.value) else None
    else if s != "" && AllDigits(s) then Some(DecimalValue(s))
    else if |s| > 1 && s[0] == '-' && AllDigits(s[1..]) then
      var n: int := DecimalValue(s[1..]);
      Some(-n)
    else None
  }

  lemma {:induction false} NumberRoundTrip(n: int)
    ensures ParseNumber(ToSigned(n)) == Some(n)
  {
    var s := ToSigned(n);
    if n < 0 {
      DecimalRoundTrip(-n);
      assert s[1..] == ToDecimal(-n);
      assert s[0] == '-' && !IsDigit('-');
      assert !("0x" <= s);
    } else {
      DecimalRoundTrip(n);
      assert |s| > 1 ==> IsDigit(s[1]);
      assert !IsDigit('x');
    }
  }
}
