/**
 * Decimal text of integers, as the cache writes and reads it back:
 * Python's str(int) (also what redis-py sends for an int and what Redis
 * writes for a counter), Python's int() on decimal text, and Redis's
 * strict conversion of a stored string to a 64-bit integer.
 */
module Decimal {
  import opened Wrappers

  const MIN_INT64: int := -0x8000_0000_0000_0000
  const MAX_INT64: int := 0x7fff_ffff_ffff_ffff

  predicate IsDigit(c: char) {
    '0' <= c <= '9'
  }

  predicate AllDigits(s: string) {
    forall i :: 0 <= i < |s| ==> IsDigit(s[i])
  }

  function DigitChar(d: nat): (c: char)
    requires d < 10
    ensures IsDigit(c) && c as int - '0' as int == d
  {
    (d + '0' as int) as char
  }

  /** The digits of n, most significant first, without leading zeros. */
  function Digits(n: nat): (s: string)
    ensures |s| > 0 && AllDigits(s)
    ensures s[0] == '0' ==> n == 0
    decreases n
  {
    if n < 10 then [DigitChar(n)] else Digits(n / 10) + [DigitChar(n % 10)]
  }

  /** The number a string of digits denotes. */
  function ValueOf(s: string): nat
    requires AllDigits(s)
    decreases |s|
  {
    if s == [] then 0 else ValueOf(s[..|s| - 1]) * 10 + (s[|s| - 1] as int - '0' as int)
  }

  /** str(n) for a Python int: a minus sign for negatives, then the digits. */
  function FromInt(n: int): string {
    if n < 0 then "-" + Digits(-n) else Digits(n)
  }

  /**
   * int(s) for a Python str or bytes holding a decimal literal: an optional
   * sign, then at least one digit (leading zeros allowed). None stands for
   * the ValueError that int() raises on anything else.
   */
  function ToInt(s: string): Option<int> {
    if |s| >= 2 && (s[0] == '-' || s[0] == '+') && AllDigits(s[1..]) then
      var magnitude: int := ValueOf(s[1..]);
      Some(if s[0] == '-' then -magnitude else magnitude)
    else if |s| >= 1 && AllDigits(s) then
      Some(ValueOf(s))
    else
      None
  }

  /**
   * Redis's conversion of a stored string to a 64-bit integer (used by
   * INCRBY): no '+', no leading zeros, no "-0", and the value must fit in
   * 64 bits; in other words only the canonical text of an int64.
   */
  function RedisToInt(s: string): Option<int> {
    match ToInt(s)
    case Some(v) => if MIN_INT64 <= v <= MAX_INT64 && FromInt(v) == s then Some(v) else None
    case None => None
  }

  lemma {:induction false} ValueOfDigits(n: nat)
    ensures ValueOf(Digits(n)) == n
    decreases n
  {
    if n >= 10 {
      var s := Digits(n);
      assert s[..|s| - 1] == Digits(n / 10);
      ValueOfDigits(n / 10);
    }
  }

  /** int(str(n)) == n: Python reads back exactly the text it wrote. */
  lemma ToIntFromInt(n: int)
    ensures ToInt(FromInt(n)) == Some(n)
  {
    var s := FromInt(n);
    if n < 0 {
      var digits := Digits(-n);
      assert s[1..] == digits;
      ValueOfDigits(-n);
      assert ToInt(s) == Some(n);
    } else {
      assert s == Digits(n);
      assert IsDigit(s[0]);
      ValueOfDigits(n);
      assert ToInt(s) == Some(ValueOf(s));
    }
  }

  /** Redis accepts a string as an integer exactly when it is the canonical text of an int64. */
  lemma RedisToIntCanonical(s: string, v: int)
    ensures RedisToInt(s) == Some(v) <==> MIN_INT64 <= v <= MAX_INT64 && s == FromInt(v)
  {
    if s == FromInt(v) {
      ToIntFromInt(v);
    }
  }
}
