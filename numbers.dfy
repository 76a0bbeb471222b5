/**
 * Fixed-width integer arithmetic and decimal rendering used by the query
 * and payload code: C++ `int32_t` values, two's-complement wrap-around of
 * `int32_t` arithmetic, and the decimal text that a stream writes for an
 * integer.
 */
module Numbers {

  const TWO_32: int := 0x1_0000_0000
  const INT32_MIN: int := -0x8000_0000
  const INT32_MAX: int := 0x7fff_ffff

  /** The values of a C++ `int32_t`. */
  type Int32 = x: int | INT32_MIN <= x <= INT32_MAX

  /**
   * Two's-complement wrap-around: the unique `int32_t` congruent to `x`
   * modulo 2^32.
   */
  function Wrap32(x: int): (r: Int32)
    ensures (x - r) % TWO_32 == 0
    ensures INT32_MIN <= x <= INT32_MAX ==> r == x
  {
    var m := x % TWO_32;
    if m <= INT32_MAX then m else m - TWO_32
  }

  /** Adding a multiple of 2^32 does not change the remainder modulo 2^32. */
  lemma ModShift(a: int, k: int)
    ensures (a + k * TWO_32) % TWO_32 == a % TWO_32
  {
    var q, r := a / TWO_32, a % TWO_32;
    assert a == q * TWO_32 + r;
    assert a + k * TWO_32 == (q + k) * TWO_32 + r;
  }

  /**
   * One step of a 31-based hash fold: wrapping the accumulator before the
   * step gives the same `int32_t` as wrapping only at the end.
   */
  lemma WrapMulAdd(x: int, y: int)
    ensures Wrap32(31 * Wrap32(x) + y) == Wrap32(31 * x + y)
  {
    var w := Wrap32(x);
    var k := (x - w) / TWO_32;
    assert x - w == k * TWO_32;
    assert 31 * w + y == (31 * x + y) + (-31 * k) * TWO_32;
    ModShift(31 * x + y, -31 * k);
  }

  /** The decimal digit character for `d`. */
  function DigitChar(d: int): (c: char)
    requires 0 <= d < 10
    ensures '0' <= c <= '9' && c as int - '0' as int == d
  {
    (d + '0' as int) as char
  }

  /** Decimal text of a natural number, most significant digit first, no leading zeros. */
  function NatString(n: nat): (s: string)
    ensures |s| >= 1
    ensures forall i :: 0 <= i < |s| ==> '0' <= s[i] <= '9'
    ensures s[0] == '0' ==> n == 0
  {
    if n < 10 then [DigitChar(n)] else NatString(n / 10) + [DigitChar(n % 10)]
  }

  /** Decimal text of an integer as an output stream writes it: a '-' before a negative value. */
  function DecimalString(n: int): (s: string)
    ensures |s| >= 1 && (n < 0 ==> |s| >= 2)
    ensures s[0] == '-' <==> n < 0
    ensures s[if n < 0 then 1 else 0] == '0' ==> n == 0
  {
    if n < 0 then "-" + NatString(-n) else NatString(n)
  }

  /** The value of a string of decimal digits. */
  function DigitsValue(s: string): int
    requires forall i :: 0 <= i < |s| ==> '0' <= s[i] <= '9'
  {
    if s == [] then 0 else 10 * DigitsValue(s[..|s| - 1]) + (s[|s| - 1] as int - '0' as int)
  }

  /** Reads back an optionally signed decimal integer. */
  function ParseDecimal(s: string): int
    requires |s| >= 1
    requires forall i :: (if s[0] == '-' then 1 else 0) <= i < |s| ==> '0' <= s[i] <= '9'
  {
    if s[0] == '-' then -DigitsValue(s[1..]) else DigitsValue(s)
  }

  lemma {:induction false} NatStringRoundTrip(n: nat)
    ensures DigitsValue(NatString(n)) == n
  {
    if n >= 10 {
      NatStringRoundTrip(n / 10);
      var s := NatString(n);
      assert s[..|s| - 1] == NatString(n / 10);
    }
  }

  /** The decimal text of any integer reads back as that integer. */
  lemma {:induction false} DecimalRoundTrip(n: int)
    ensures var s := DecimalString(n);
      (forall i :: (if s[0] == '-' then 1 else 0) <= i < |s| ==> '0' <= s[i] <= '9') &&
      ParseDecimal(s) == n
  {
    if n < 0 {
      var d := NatString(-n);
      NatStringRoundTrip(-n);
      assert DecimalString(n) == "-" + d;
      assert ("-" + d)[1..] == d;
    } else {
      NatStringRoundTrip(n);
    }
  }
}
