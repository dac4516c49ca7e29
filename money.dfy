/**
 * Money in the cart: every stored amount is a whole number of cents, and a
 * JavaScript number of dollars is modelled as an exact `real`.
 */
module Money {

  /** The dollar value of a number of cents. */
  function Dollars(cents: int): real {
    cents as real / 100.0
  }

  /** `addDecimals`: `Math.round(num * 100) / 100`, the amount in cents to
      the nearest cent, halves rounded up. */
  function AddDecimals(num: real): (cents: int)
    ensures (cents as real) - 0.5 <= num * 100.0 < (cents as real) + 0.5
  {
    (num * 100.0 + 0.5).Floor
  }

  /** The rounding bounds pin the result down. */
  lemma AddDecimalsUnique(num: real, cents: int)
    requires (cents as real) - 0.5 <= num * 100.0 < (cents as real) + 0.5
    ensures AddDecimals(num) == cents
  {
  }

  /** A whole number of cents is left as it is. */
  lemma AddDecimalsOfCents(cents: int)
    ensures AddDecimals(Dollars(cents)) == cents
  {
    AddDecimalsUnique(Dollars(cents), cents);
  }

  /** Rounding a whole number of cents plus a remainder rounds the remainder. */
  lemma AddDecimalsShift(cents: int, num: real)
    ensures AddDecimals(Dollars(cents) + num) == cents + AddDecimals(num)
  {
    var r := AddDecimals(num);
    assert (Dollars(cents) + num) * 100.0 == cents as real + num * 100.0;
    AddDecimalsUnique(Dollars(cents) + num, cents + r);
  }

  /** Fifteen percent of an amount, to the nearest cent, halves up, in
      integer arithmetic. */
  function Tax(cents: int): (tax: int)
    ensures 100 * tax - 50 <= 15 * cents < 100 * tax + 50
  {
    (15 * cents + 50) / 100
  }

  /** `Math.round(0.15 * dollars * 100) / 100` is `Tax`. */
  lemma AddDecimalsOfTax(cents: int)
    ensures AddDecimals(0.15 * Dollars(cents)) == Tax(cents)
  {
    var t := Tax(cents);
    assert 0.15 * Dollars(cents) * 100.0 == (15 * cents) as real / 100.0;
    AddDecimalsUnique(0.15 * Dollars(cents), t);
  }
}
