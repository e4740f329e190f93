/**
 * The integer phase of `_freq_to_float`: a frequency in Hz is written as
 * `mantissa / 10^divider` MHz by stripping up to six trailing decimal zeros,
 * so that the final division (a float one, not modelled) works on a small
 * number.
 */
module Frequency {

  function Pow10(k: nat): (p: nat)
    ensures p >= 1
  {
    if k == 0 then 1 else 10 * Pow10(k - 1)
  }

  /**
   * `frequency` Hz is `mantissa / 10^divider` MHz, and no trailing zero of
   * the mantissa is left while the divider is still positive.
   */
  ghost predicate IsMegahertz(frequency: int, mantissa: int, divider: int)
  {
    0 <= divider <= 6 &&
    mantissa * Pow10(6 - divider) == frequency &&
    (divider > 0 ==> mantissa % 10 != 0)
  }

  /**
   * The loop of `_freq_to_float`: divide by ten while a divider is left and
   * the last digit is zero. Python's `%` and `//` agree with Dafny's on the
   * multiples of ten the loop divides, negative ones included.
   */
  method FreqToFloat(frequency: int) returns (mantissa: int, divider: int)
    ensures IsMegahertz(frequency, mantissa, divider)
  {
    mantissa, divider := frequency, 6;
    while divider > 0 && mantissa % 10 == 0
      invariant 0 <= divider <= 6
      invariant mantissa * Pow10(6 - divider) == frequency
      decreases divider
    {
      ghost var before := mantissa;
      mantissa := mantissa / 10;
      divider := divider - 1;
      calc {
        mantissa * Pow10(6 - divider);
        mantissa * (10 * Pow10(6 - divider - 1));
        (mantissa * 10) * Pow10(6 - divider - 1);
        before * Pow10(6 - (divider + 1));
      }
    }
  }

  lemma {:induction false} Pow10Add(a: nat, b: nat)
    ensures Pow10(a + b) == Pow10(a) * Pow10(b)
  {
    if a > 0 {
      Pow10Add(a - 1, b);
      assert Pow10(a + b) == 10 * Pow10(a - 1 + b);
    }
  }

  /** The mantissa and divider are determined by the frequency: the loop's result is the only one. */
  lemma MegahertzUnique(frequency: int, m1: int, d1: int, m2: int, d2: int)
    requires IsMegahertz(frequency, m1, d1) && IsMegahertz(frequency, m2, d2)
    ensures m1 == m2 && d1 == d2
  {
    if d1 < d2 {
      TrailingZero(frequency, m1, d1, m2, d2);
    } else if d2 < d1 {
      TrailingZero(frequency, m2, d2, m1, d1);
    } else {
      var p := Pow10(6 - d1);
      assert m1 * p == m2 * p;
      assert (m1 - m2) * p == 0;
    }
  }

  /** Two ways of writing one frequency: the one with the larger divider has a mantissa ending in zero. */
  lemma TrailingZero(frequency: int, m1: int, d1: int, m2: int, d2: int)
    requires 0 <= d1 < d2 <= 6
    requires m1 * Pow10(6 - d1) == frequency && m2 * Pow10(6 - d2) == frequency
    ensures m2 % 10 == 0
  {
    var k: nat := d2 - d1;
    var p := Pow10(6 - d2);
    var r := Pow10(k - 1);
    Pow10Add(k, 6 - d2);
    assert Pow10(6 - d1) == Pow10(k) * p;
    assert Pow10(k) == 10 * r;
    Regroup(m1, 10 * r, p);
    CancelFactor(m1 * (10 * r), m2, p);
    Regroup(m1, 10, r);
    assert m2 == (m1 * r) * 10;
  }

  lemma Regroup(a: int, b: int, c: int)
    ensures a * (b * c) == (a * b) * c
    ensures a * (b * c) == (a * c) * b
  {
  }

  lemma CancelFactor(a: int, b: int, p: int)
    requires p >= 1 && a * p == b * p
    ensures a == b
  {
    assert (a - b) * p == 0;
  }

  /** The configured 903 900 000 Hz is 9039 tenths of a megahertz: mantissa 9039, divider 1. */
  lemma ConfiguredFrequency()
    ensures IsMegahertz(903900000, 9039, 1)
  {
  }
}
