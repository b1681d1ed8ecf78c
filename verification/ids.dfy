/**
 * Record identifiers: every add operation uses `${Date.now()}`, the decimal
 * rendering of a millisecond clock reading.
 */
module Ids {

  predicate IsDigit(c: char) {
    '0' <= c <= '9'
  }

  function DigitChar(d: nat): char
    requires d < 10
  {
    ('0' as int + d) as char
  }

  function DigitValue(c: char): int {
    c as int - '0' as int
  }

  /** The id for a clock reading of `n` milliseconds: its decimal digits, without leading zeros. */
  function MillisId(n: nat): (r: string)
    ensures r != []
    ensures forall i :: 0 <= i < |r| ==> IsDigit(r[i])
    ensures r[0] == '0' ==> n == 0
    decreases n
  {
    if n < 10 then [DigitChar(n)] else MillisId(n / 10) + [DigitChar(n % 10)]
  }

  /** The number a string of decimal digits denotes. */
  function DigitsValue(s: string): int {
    if s == [] then 0 else DigitsValue(s[..|s| - 1]) * 10 + DigitValue(s[|s| - 1])
  }

  /** Reading the id back as a number gives the clock reading it was made from. */
  lemma {:induction false} MillisIdRoundTrip(n: nat)
    ensures DigitsValue(MillisId(n)) == n
    decreases n
  {
    if n >= 10 {
      MillisIdRoundTrip(n / 10);
      var r := MillisId(n);
      assert r[..|r| - 1] == MillisId(n / 10);
    }
  }

  /**
   * Two ids are equal exactly when the clock readings are: two records created
   * within the same millisecond get the same id, and only those.
   */
  lemma MillisIdCollidesIffSameTick(m: nat, n: nat)
    ensures MillisId(m) == MillisId(n) <==> m == n
  {
    MillisIdRoundTrip(m);
    MillisIdRoundTrip(n);
  }
}
