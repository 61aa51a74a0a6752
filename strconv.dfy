/**
 * Decimal integer parsing as Go's `strconv.Atoi` performs it on a 64-bit
 * platform (ovs/driver.go:332 reads the MTU option with it), together with
 * its inverse, `strconv.Itoa`, used to state the round trip.
 */
module Strconv {
  import opened Wrappers

  const MinInt64: int := -0x8000_0000_0000_0000
  const MaxInt64: int := 0x7fff_ffff_ffff_ffff

  predicate IsDigit(c: char) {
    '0' <= c <= '9'
  }

  predicate AllDigits(s: string) {
    forall i :: 0 <= i < |s| ==> IsDigit(s[i])
  }

  predicate IsSign(c: char) {
    c == '+' || c == '-'
  }

  function DigitValue(c: char): (d: nat)
    requires IsDigit(c)
    ensures d < 10
  {
    c as int - '0' as int
  }

  function DigitChar(d: nat): (c: char)
    requires d < 10
    ensures IsDigit(c) && DigitValue(c) == d
  {
    ('0' as int + d) as char
  }

  /** The value of a run of decimal digits, most significant first (0 for none). */
  function DigitsValue(s: string): nat
    requires AllDigits(s)
  {
    if s == [] then 0 else DigitsValue(s[..|s| - 1]) * 10 + DigitValue(s[|s| - 1])
  }

  /** The string with one leading sign character removed, if it has one. */
  function Unsigned(s: string): (u: string)
    ensures |s| > 0 && IsSign(s[0]) ==> u == s[1..]
    ensures !(|s| > 0 && IsSign(s[0])) ==> u == s
  {
    if |s| > 0 && IsSign(s[0]) then s[1..] else s
  }

  /** An optional sign followed by one or more digits. */
  predicate NumericSyntax(s: string) {
    Unsigned(s) != [] && AllDigits(Unsigned(s))
  }

  /** The value a string of numeric syntax denotes, before any range check. */
  function SignedValue(s: string): (v: int)
    requires NumericSyntax(s)
    ensures s[0] == '-' ==> v <= 0
    ensures s[0] != '-' ==> v >= 0
  {
    if s[0] == '-' then 0 - DigitsValue(Unsigned(s)) as int else DigitsValue(Unsigned(s))
  }

  /**
   * `strconv.Atoi`: an optional `+` or `-`, then one or more ASCII digits,
   * whose value must fit in a 64-bit signed integer; anything else is an
   * error, represented by `None`.
   */
  function Atoi(s: string): (r: Option<int>)
    ensures !NumericSyntax(s) ==> r.None?
    ensures NumericSyntax(s) ==>
              r == if MinInt64 <= SignedValue(s) <= MaxInt64 then Some(SignedValue(s)) else None
    ensures r.Some? ==> MinInt64 <= r.value <= MaxInt64
  {
    var digits := Unsigned(s);
    if digits == [] || !AllDigits(digits) then None
    else
      var v: int := if s[0] == '-' then 0 - DigitsValue(digits) as int else DigitsValue(digits);
      if MinInt64 <= v <= MaxInt64 then Some(v) else None
  }

  /** The decimal digits of a natural number, without leading zeros. */
  function NatDigits(n: nat): (s: string)
    ensures |s| > 0 && AllDigits(s)
  {
    if n < 10 then [DigitChar(n)] else NatDigits(n / 10) + [DigitChar(n % 10)]
  }

  /** `strconv.Itoa`: the canonical decimal form of an integer. */
  function Decimal(n: int): string {
    if n < 0 then "-" + NatDigits(-n) else NatDigits(n)
  }

  lemma {:induction false} NatDigitsValue(n: nat)
    ensures DigitsValue(NatDigits(n)) == n
  {
    if n >= 10 {
      NatDigitsValue(n / 10);
      var s := NatDigits(n);
      assert s[..|s| - 1] == NatDigits(n / 10);
    }
  }

  /** Every 64-bit integer survives printing and parsing back. */
  lemma AtoiDecimal(n: int)
    requires MinInt64 <= n <= MaxInt64
    ensures Atoi(Decimal(n)) == Some(n)
  {
    if n < 0 {
      NatDigitsValue(-n);
      assert Unsigned(Decimal(n)) == NatDigits(-n);
    } else {
      NatDigitsValue(n);
    }
  }
}
