/** Currency rounding: money is an exact `real`, and rounding keeps two
    decimal places, a half cent rounding upward (toward positive infinity),
    which is what `Math.round(value * 100) / 100` does. */
module Currency {

  /** `x` is a whole number of cents. */
  predicate IsCents(x: real) {
    (x * 100.0).Floor as real == x * 100.0
  }

  /** Round to the nearest cent, halves upward. The result is the one
      whole-cent value in the half-open window [value - 0.005, value + 0.005). */
  function RoundCurrency(value: real): (r: real)
    ensures IsCents(r)
    ensures r - 0.005 <= value < r + 0.005
  {
    ((value * 100.0 + 0.5).Floor as real) / 100.0
  }

  /** The window property pins the rounded value down: no other whole-cent
      value is within half a cent (half-open) of `x`. */
  lemma RoundCurrencyUnique(x: real, c: real)
    requires IsCents(c)
    requires c - 0.005 <= x < c + 0.005
    ensures RoundCurrency(x) == c
  {
    var r := RoundCurrency(x);
    var k := (r * 100.0).Floor;
    var m := (c * 100.0).Floor;
    assert k as real - 0.5 <= x * 100.0 < k as real + 0.5;
    assert m as real - 0.5 <= x * 100.0 < m as real + 0.5;
    assert k == m;
  }

  /** Rounding a value that already has two decimals leaves it unchanged. */
  lemma RoundCurrencyIdempotent(x: real)
    requires IsCents(x)
    ensures RoundCurrency(x) == x
  {
    RoundCurrencyUnique(x, x);
  }

  /** Rounding never reverses the order of two amounts. */
  lemma RoundCurrencyMonotone(x: real, y: real)
    requires x <= y
    ensures RoundCurrency(x) <= RoundCurrency(y)
  {
    var a := (x * 100.0 + 0.5).Floor;
    var b := (y * 100.0 + 0.5).Floor;
    assert a as real <= x * 100.0 + 0.5 <= y * 100.0 + 0.5 < b as real + 1.0;
    assert a <= b;
  }

  /** An amount exactly half a cent above a whole-cent value rounds up to
      the next cent (so 1.005 becomes 1.01, not 1.00). */
  lemma RoundCurrencyHalfUp(c: real)
    requires IsCents(c)
    ensures RoundCurrency(c + 0.005) == c + 0.01
  {
    CentsClosed(c, 0.01);
    RoundCurrencyUnique(c + 0.005, c + 0.01);
  }

  /** Sums and differences of whole-cent values are whole-cent values. */
  lemma CentsClosed(a: real, b: real)
    requires IsCents(a) && IsCents(b)
    ensures IsCents(a + b) && IsCents(a - b)
  {
    var m := (a * 100.0).Floor;
    var n := (b * 100.0).Floor;
    assert a * 100.0 == m as real && b * 100.0 == n as real;
    WholeIsCents(a + b, m + n);
    WholeIsCents(a - b, m - n);
  }

  /** A whole-cent value less than half a cent below zero is not negative. */
  lemma CentsNearZeroNonNegative(c: real)
    requires IsCents(c) && -0.005 < c
    ensures 0.0 <= c
  {
    var k := (c * 100.0).Floor;
    assert k as real == c * 100.0 > -0.5;
  }

  /** A value whose hundredfold is an integer is a whole-cent value. */
  lemma WholeIsCents(x: real, k: int)
    requires x * 100.0 == k as real
    ensures IsCents(x)
  {
    assert (k as real).Floor == k;
  }

  /** A rate applied to an amount, rounded to the cent. A rate in [0, 1]
      applied to a non-negative whole-cent amount yields a share between
      zero and the amount itself. */
  function RoundedShare(amount: real, rate: real): (r: real)
    ensures IsCents(r)
    ensures r - 0.005 <= amount * rate < r + 0.005
    ensures IsCents(amount) && 0.0 <= amount && 0.0 <= rate <= 1.0 ==> 0.0 <= r <= amount
  {
    if IsCents(amount) && 0.0 <= amount && 0.0 <= rate <= 1.0 then
      RoundedShareBetween(amount, rate);
      RoundCurrency(amount * rate)
    else
      RoundCurrency(amount * rate)
  }

  /** A rounded share is the rounding of the exact product. */
  lemma RoundedShareRounds(amount: real, rate: real)
    ensures RoundedShare(amount, rate) == RoundCurrency(amount * rate)
  {
    RoundCurrencyUnique(amount * rate, RoundedShare(amount, rate));
  }

  lemma RoundedShareBetween(amount: real, rate: real)
    requires IsCents(amount) && 0.0 <= amount
    requires 0.0 <= rate <= 1.0
    ensures 0.0 <= RoundCurrency(amount * rate) <= amount
  {
    var share := amount * rate;
    ShareWithinWhole(amount, rate);
    RoundCurrencyIdempotent(0.0);
    RoundCurrencyMonotone(0.0, share);
    RoundCurrencyIdempotent(amount);
    RoundCurrencyMonotone(share, amount);
  }

  /** A fraction in [0, 1] of a non-negative amount lies between zero and
      the amount. */
  lemma ShareWithinWhole(amount: real, rate: real)
    requires 0.0 <= amount && 0.0 <= rate <= 1.0
    ensures 0.0 <= amount * rate <= amount
  {
    assert amount - amount * rate == amount * (1.0 - rate);
  }
}
