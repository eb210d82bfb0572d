/**
 * Java's conversion of a `long` to its decimal text (`"" + n`), and an
 * independent reader that recovers the number from that text.
 */
module Decimal {
  import opened Wrappers

  predicate IsDigit(c: char) {
    '0' <= c <= '9'
  }

  predicate AllDigits(s: string) {
    forall i :: 0 <= i < |s| ==> IsDigit(s[i])
  }

  function DigitChar(d: nat): (c: char)
    requires d < 10
    ensures IsDigit(c) && c as int - '0' as int == d
  {
    ('0' as int + d) as char
  }

  /** The decimal digits of `n`, most significant first, with no leading zero. */
  function Digits(n: nat): (s: string)
    ensures 1 <= |s| && AllDigits(s)
    ensures s[0] == '0' ==> n == 0 && s == "0"
    decreases n
  {
    if n < 10 then [DigitChar(n)] else Digits(n / 10) + [DigitChar(n % 10)]
  }

  /** The number a string of digits denotes. */
  function DigitsValue(s: string): nat
    requires AllDigits(s)
  {
    if s == [] then 0 else 10 * DigitsValue(s[..|s| - 1]) + (s[|s| - 1] as int - '0' as int)
  }

  /** `"" + n` for a Java `long n`: a minus sign before the digits of a negative number. */
  function ToDecimalString(n: int): (s: string)
    ensures 1 <= |s|
    ensures n < 0 <==> s[0] == '-'
    ensures n < 0 ==> 2 <= |s| && AllDigits(s[1..])
    ensures n >= 0 ==> AllDigits(s)
    ensures n >= 0 && s[0] == '0' ==> s == "0"
    ensures n < 0 ==> s[1] != '0'
  {
    if n < 0 then "-" + Digits(-n) else Digits(n)
  }

  /** Reads an optional minus sign followed by one or more digits; anything else is rejected. */
  function ParseDecimal(s: string): (r: Option<int>)
    ensures r.Some? <==> 1 <= |s| && (if s[0] == '-' then 2 <= |s| && AllDigits(s[1..]) else AllDigits(s))
  {
    if s == [] then None
    else if s[0] == '-' then
      if 2 <= |s| && AllDigits(s[1..]) then Some(-(DigitsValue(s[1..]) as int)) else None
    else if AllDigits(s) then Some(DigitsValue(s))
    else None
  }

  lemma {:induction false} DigitsValueOfDigits(n: nat)
    ensures DigitsValue(Digits(n)) == n
    decreases n
  {
    if n >= 10 {
      DigitsValueOfDigits(n / 10);
      var s := Digits(n);
      assert s[..|s| - 1] == Digits(n / 10);
    }
  }

  /** Reading back the decimal text of any number gives that number. */
  lemma DecimalRoundTrip(n: int)
    ensures ParseDecimal(ToDecimalString(n)) == Some(n)
  {
    if n < 0 {
      DigitsValueOfDigits(-n);
      assert ToDecimalString(n)[1..] == Digits(-n);
    } else {
      DigitsValueOfDigits(n);
    }
  }

  /** Two numbers have the same decimal text exactly when they are equal. */
  lemma DecimalStringInjective(a: int, b: int)
    ensures ToDecimalString(a) == ToDecimalString(b) <==> a == b
  {
    DecimalRoundTrip(a);
    DecimalRoundTrip(b);
  }
}
