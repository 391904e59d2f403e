// Decimal text for integers: the `{}` formatting of fmt and `operator<<` for
// integral values, and `std::from_chars` for `int` as the chat commands use it.

module Decimal {
  import opened Voxel

  const Int32Min: int := -0x8000_0000
  const Int32Max: int := 0x7FFF_FFFF

  predicate IsDigit(c: char) {
    '0' <= c <= '9'
  }

  predicate AllDigits(s: string) {
    forall i :: 0 <= i < |s| ==> IsDigit(s[i])
  }

  function DigitChar(d: nat): (c: char)
    requires d < 10
    ensures IsDigit(c)
  {
    ('0' as int + d) as char
  }

  function DigitValue(c: char): (d: nat)
    requires IsDigit(c)
    ensures d < 10 && DigitChar(d) == c
  {
    c as int - '0' as int
  }

  /** Shortest decimal rendering of `n`, without sign or leading zeros. */
  function NatToString(n: nat): (s: string)
    ensures |s| > 0 && AllDigits(s)
    ensures n < 10 <==> |s| == 1
    decreases n
  {
    if n < 10 then [DigitChar(n)] else NatToString(n / 10) + [DigitChar(n % 10)]
  }

  /** Signed decimal rendering: a `-` in front of negative values. */
  function IntToString(i: int): (s: string)
    ensures |s| > 0 && (i < 0 <==> s[0] == '-')
  {
    if i < 0 then "-" + NatToString(-i) else NatToString(i)
  }

  /** The value of a run of digits, most significant first. */
  function DigitsValue(s: string): nat
    requires AllDigits(s)
  {
    if s == [] then 0 else DigitsValue(s[..|s| - 1]) * 10 + DigitValue(s[|s| - 1])
  }

  lemma {:induction false} DigitsValueOfNatToString(n: nat)
    ensures DigitsValue(NatToString(n)) == n
    decreases n
  {
    if n >= 10 {
      var s := NatToString(n);
      assert s[..|s| - 1] == NatToString(n / 10);
      DigitsValueOfNatToString(n / 10);
    }
  }

  /** Distinct numbers render differently. */
  lemma NatToStringInjective(m: nat, n: nat)
    requires NatToString(m) == NatToString(n)
    ensures m == n
  {
    DigitsValueOfNatToString(m);
    DigitsValueOfNatToString(n);
  }

  /** `std::from_chars(first, last, value)` for an `int`, read together with the
      caller's test `res.ptr == last && res.ec == std::errc{}`: the whole text must be
      an optional `-` followed by at least one digit, and the value must fit in 32 bits.
      No `+`, no blanks. */
  function ParseWholeInt32(s: string): (r: Option<int>)
    ensures r.Some? ==> Int32Min <= r.value <= Int32Max
    ensures |s| > 0 && s[0] != '-' && !IsDigit(s[0]) ==> r.None?
  {
    if |s| > 0 && s[0] == '-' then
      if |s| > 1 && AllDigits(s[1..]) && DigitsValue(s[1..]) <= -Int32Min then Some(-(DigitsValue(s[1..]) as int)) else None
    else if |s| > 0 && AllDigits(s) && DigitsValue(s) <= Int32Max then Some(DigitsValue(s) as int)
    else None
  }

  /** Every 32-bit value survives rendering and parsing back. */
  lemma ParseIntToString(i: int)
    requires Int32Min <= i <= Int32Max
    ensures ParseWholeInt32(IntToString(i)) == Some(i)
  {
    if i < 0 {
      var t := NatToString(-i);
      var s := "-" + t;
      assert s[1..] == t;
      DigitsValueOfNatToString(-i);
      assert ParseWholeInt32(s) == Some(-(DigitsValue(t) as int));
    } else {
      var s := NatToString(i);
      DigitsValueOfNatToString(i);
      assert s[0] != '-' by { assert IsDigit(s[0]); }
    }
  }
}
