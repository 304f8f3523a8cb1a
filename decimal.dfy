/** Decimal text for integers: Python's `"{:02}".format(n)` for the track
    prefix and `int(value)` for `getint` on configuration values. */
module Decimal {
  import opened Wrappers

  predicate IsDigit(c: char) {
    '0' <= c <= '9'
  }

  predicate AllDigits(s: string) {
    forall i :: 0 <= i < |s| ==> IsDigit(s[i])
  }

  function DigitChar(d: nat): (c: char)
    requires d < 10
    ensures IsDigit(c) && c as int - '0' as int == d
  {
    ('0' as int + d) as char
  }

  function DigitValue(c: char): nat
    requires IsDigit(c)
  {
    c as int - '0' as int
  }

  /** The shortest decimal representation of `n` (`str(n)` for n >= 0). */
  function Digits(n: nat): (r: string)
    ensures |r| >= 1 && AllDigits(r)
    ensures r[0] == '0' ==> n == 0
    ensures n < 10 <==> |r| == 1
    decreases n
  {
    if n < 10 then [DigitChar(n)] else Digits(n / 10) + [DigitChar(n % 10)]
  }

  /** The value of a string of decimal digits, leading zeros allowed. */
  function NatValue(s: string): nat
    requires AllDigits(s)
  {
    if s == [] then 0 else NatValue(s[..|s| - 1]) * 10 + DigitValue(s[|s| - 1])
  }

  lemma {:induction false} NatValueOfDigits(n: nat)
    ensures NatValue(Digits(n)) == n
    decreases n
  {
    if n >= 10 {
      var d := Digits(n);
      assert d[..|d| - 1] == Digits(n / 10);
      NatValueOfDigits(n / 10);
    }
  }

  /** Leading zeros do not change the value. */
  lemma {:induction false} NatValueLeadingZero(s: string)
    requires AllDigits(s)
    ensures NatValue("0" + s) == NatValue(s)
  {
    if s != [] {
      assert ("0" + s)[..|"0" + s| - 1] == "0" + s[..|s| - 1];
      NatValueLeadingZero(s[..|s| - 1]);
    }
  }

  function Abs(n: int): nat {
    if n < 0 then -n else n
  }

  /** `"{:02}".format(n)`: the sign, then the digits zero-padded so that the
      whole is at least two characters wide. The digits are never cut. */
  function Format02(n: int): (r: string)
    ensures |r| == if 0 <= n < 10 then 2 else |Digits(Abs(n))| + (if n < 0 then 1 else 0)
    ensures |r| >= 2
    ensures r[|r| - |Digits(Abs(n))|..] == Digits(Abs(n))
    ensures r[0] == '-' <==> n < 0
    ensures n >= 0 ==> AllDigits(r)
  {
    if n < 0 then "-" + Digits(-n)
    else if n < 10 then "0" + Digits(n)
    else Digits(n)
  }

  /** `int(s)` on a string that configparser has already stripped:
      an optional sign, then at least one decimal digit. */
  function ParseInt(s: string): (r: Option<int>)
    ensures r.Some? <==> (|s| >= 1 && AllDigits(s)) || (|s| >= 2 && (s[0] == '-' || s[0] == '+') && AllDigits(s[1..]))
    ensures r.Some? && |s| >= 1 && s[0] == '-' ==> r.value <= 0
    ensures r.Some? && |s| >= 1 && s[0] != '-' ==> r.value >= 0
  {
    if |s| >= 2 && s[0] == '-' && AllDigits(s[1..]) then Some(0 - NatValue(s[1..]) as int)
    else if |s| >= 2 && s[0] == '+' && AllDigits(s[1..]) then Some(NatValue(s[1..]))
    else if |s| >= 1 && AllDigits(s) then Some(NatValue(s))
    else None
  }

  /** The padded track number reads back as the number itself. */
  lemma Format02RoundTrip(n: int)
    ensures ParseInt(Format02(n)) == Some(n)
  {
    var r := Format02(n);
    if n < 0 {
      assert r[1..] == Digits(-n);
      NatValueOfDigits(-n);
    } else if n < 10 {
      assert r == "0" + Digits(n);
      NatValueLeadingZero(Digits(n));
      NatValueOfDigits(n);
    } else {
      NatValueOfDigits(n);
    }
  }

  /** Two distinct numbers never share a padded form. */
  lemma Format02Injective(m: int, n: int)
    requires Format02(m) == Format02(n)
    ensures m == n
  {
    Format02RoundTrip(m);
    Format02RoundTrip(n);
  }
}
