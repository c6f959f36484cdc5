/**
 * Rounding of monetary amounts to two decimal places, as the cart code does it
 * with `parseFloat(x.toFixed(2))` (Number.prototype.toFixed, ECMA-262,
 * section 21.1.3.3), computed on exact rationals instead of binary doubles.
 */
module Money {

  /** From 10^21 upwards toFixed emits ToString(x) instead of fixed-point digits,
      so reading the string back gives x itself. */
  const ExponentThreshold: real := 1000000000000000000000.0

  /** x is a whole number of cents. */
  predicate IsCents(x: real) {
    (x * 100.0).Floor as real == x * 100.0
  }

  /** toFixed(2) on a non-negative magnitude: the n for which n / 100 - m is
      closest to zero, the larger n on a tie. */
  function RoundMagnitude(m: real): real
    requires m >= 0.0
  {
    if m >= ExponentThreshold then m else (m * 100.0 + 0.5).Floor as real / 100.0
  }

  /** `parseFloat(x.toFixed(2))`: a negative x is rounded on its magnitude and
      given its sign back, so halves go away from zero. */
  function Round2(x: real): (r: real)
    ensures x >= 0.0 ==> r >= 0.0
    ensures x <= 0.0 ==> r <= 0.0
  {
    if x < 0.0 then -RoundMagnitude(-x) else RoundMagnitude(x)
  }

  /** Below the threshold the rounded value is a whole number of cents within
      half a cent of x. */
  lemma Round2Close(x: real)
    requires -ExponentThreshold < x < ExponentThreshold
    ensures IsCents(Round2(x))
    ensures -0.005 <= Round2(x) - x <= 0.005
  {
    var m := if x < 0.0 then -x else x;
    var n := (m * 100.0 + 0.5).Floor;
    assert RoundMagnitude(m) == n as real / 100.0;
    assert n as real <= m * 100.0 + 0.5 < n as real + 1.0;
    assert (n as real / 100.0) * 100.0 == n as real;
    assert (-(n as real / 100.0)) * 100.0 == (-n) as real;
  }

  /** The defining property of toFixed: no number of cents k / 100 is closer
      to x than the result, and on a tie the result is the larger one. */
  lemma Round2Nearest(x: real, k: int)
    requires 0.0 <= x < ExponentThreshold
    ensures var d := Round2(x) - x;
            var e := k as real / 100.0 - x;
            (if d < 0.0 then -d else d) <= (if e < 0.0 then -e else e)
    ensures var d := Round2(x) - x;
            var e := k as real / 100.0 - x;
            (if d < 0.0 then -d else d) == (if e < 0.0 then -e else e) ==> k as real / 100.0 <= Round2(x)
  {
    var n := (x * 100.0 + 0.5).Floor;
    assert n as real <= x * 100.0 + 0.5 < n as real + 1.0;
    if k > n {
      assert k as real >= n as real + 1.0;
    } else if k < n {
      assert k as real <= n as real - 1.0;
    }
  }

  /** Rounding is symmetric about zero. */
  lemma Round2Odd(x: real)
    ensures Round2(-x) == -Round2(x)
  {
  }

  /** A whole number of cents is left unchanged. */
  lemma Round2OfCents(x: real)
    requires IsCents(x)
    ensures Round2(x) == x
  {
    var m := if x < 0.0 then -x else x;
    var c := (x * 100.0).Floor;
    assert x * 100.0 == c as real;
    if m < ExponentThreshold {
      var y := m * 100.0 + 0.5;
      if x < 0.0 {
        assert y == (-c) as real + 0.5;
        assert y.Floor == -c;
      } else {
        assert y == c as real + 0.5;
        assert y.Floor == c;
      }
    }
  }

  /** Rounding never reverses the order of two amounts. */
  lemma Round2Monotone(x: real, y: real)
    requires x <= y
    ensures Round2(x) <= Round2(y)
  {
    if 0.0 <= x {
      MagnitudeMonotone(x, y);
    } else if y < 0.0 {
      MagnitudeMonotone(-y, -x);
    }
  }

  lemma MagnitudeMonotone(x: real, y: real)
    requires 0.0 <= x <= y
    ensures RoundMagnitude(x) <= RoundMagnitude(y)
  {
    if y < ExponentThreshold {
      assert (x * 100.0 + 0.5).Floor <= (y * 100.0 + 0.5).Floor;
    } else if x < ExponentThreshold {
      var n := (x * 100.0 + 0.5).Floor;
      assert n as real <= x * 100.0 + 0.5 < ExponentThreshold * 100.0 + 0.5;
      assert n as real <= ExponentThreshold * 100.0;
    }
  }

  /** Sums and differences of cent amounts are cent amounts. */
  lemma CentsAdd(x: real, y: real)
    requires IsCents(x) && IsCents(y)
    ensures IsCents(x + y) && IsCents(x - y)
  {
    var a, b := (x * 100.0).Floor, (y * 100.0).Floor;
    assert x * 100.0 == a as real && y * 100.0 == b as real;
    assert (x + y) * 100.0 == (a + b) as real;
    assert (x - y) * 100.0 == (a - b) as real;
    assert ((a + b) as real).Floor == a + b;
    assert ((a - b) as real).Floor == a - b;
  }
}
