/** Python's `round` on exact reals.

    `round(x)` gives the nearest integer and `round(x, 1)` the nearest tenth;
    a value exactly halfway goes to the even neighbour. The engine applies
    them to binary floats, whose representation error is not modelled: here
    the argument is the exact real the float stands for. */
module Rounding {

  /** The integer nearest to `x`, ties to the even neighbour (see
      RoundHalfEvenNearest). The properties are a lemma rather than a
      postcondition, so that they enter a proof only when it asks for them. */
  function RoundHalfEven(x: real): int
  {
    var f := x.Floor;
    var d := x - f as real;
    if d < 0.5 then f
    else if d > 0.5 then f + 1
    else if f % 2 == 0 then f
    else f + 1
  }

  /** The result is within one half of `x`, and even when exactly halfway. */
  lemma RoundHalfEvenNearest(x: real)
    ensures x - 0.5 <= RoundHalfEven(x) as real <= x + 0.5
    ensures RoundHalfEven(x) as real == x + 0.5 || RoundHalfEven(x) as real == x - 0.5 ==> RoundHalfEven(x) % 2 == 0
  {
  }

  /** The halfway rule makes the nearest integer unique: any integer within
      one half of `x`, even when at distance exactly one half, is the result. */
  lemma RoundHalfEvenUnique(x: real, m: int)
    requires x - 0.5 <= m as real <= x + 0.5
    requires m as real == x + 0.5 || m as real == x - 0.5 ==> m % 2 == 0
    ensures RoundHalfEven(x) == m
  {
  }

  /** An integer rounds to itself. */
  lemma RoundHalfEvenOfInteger(k: int)
    ensures RoundHalfEven(k as real) == k
  {
    RoundHalfEvenUnique(k as real, k);
  }

  /** A larger argument never rounds lower. */
  lemma RoundHalfEvenMonotone(x: real, y: real)
    requires x <= y
    ensures RoundHalfEven(x) <= RoundHalfEven(y)
  {
  }

  /** A non-negative argument rounds to a non-negative integer. */
  lemma RoundHalfEvenNonNegative(x: real)
    requires x >= 0.0
    ensures RoundHalfEven(x) >= 0
  {
    RoundHalfEvenMonotone(0.0, x);
    RoundHalfEvenOfInteger(0);
  }

  /** `round(x, 1)`: `x` to the nearest tenth. */
  function Round1(x: real): (r: real)
    ensures x - 0.05 <= r <= x + 0.05
  {
    RoundHalfEven(x * 10.0) as real / 10.0
  }

  /** A larger argument never gives a smaller tenth. */
  lemma Round1Monotone(x: real, y: real)
    requires x <= y
    ensures Round1(x) <= Round1(y)
  {
    RoundHalfEvenMonotone(x * 10.0, y * 10.0);
  }

  lemma Round1NonNegative(x: real)
    requires x >= 0.0
    ensures Round1(x) >= 0.0
  {
    RoundHalfEvenNonNegative(x * 10.0);
  }

  /** A value already in tenths is unchanged. */
  lemma Round1OfTenths(k: int)
    ensures Round1(k as real / 10.0) == k as real / 10.0
  {
    assert k as real / 10.0 * 10.0 == k as real;
    RoundHalfEvenOfInteger(k);
  }

  /** Ties go to the even neighbour: 0.25 rounds to 0.2, 0.35 to 0.4 and
      2.5 to 2. */
  lemma HalfwayExamples()
    ensures Round1(0.25) == 0.2 && Round1(0.35) == 0.4
    ensures RoundHalfEven(2.5) == 2 && RoundHalfEven(3.5) == 4
  {
    RoundHalfEvenUnique(2.5, 2);
    RoundHalfEvenUnique(3.5, 4);
    RoundHalfEvenUnique(0.25 * 10.0, 2);
    RoundHalfEvenUnique(0.35 * 10.0, 4);
  }

  /** `k` times `x`. A named product, so that the solver matches equal
      amounts without unfolding the multiplication. */
  function Scale(k: real, x: real): real {
    k * x
  }

  /** Scaling a non-negative amount by a fraction in [0, 1] gives a
      non-negative amount no larger than the original. */
  lemma ScaleFraction(k: real, x: real)
    requires 0.0 <= k <= 1.0 && x >= 0.0
    ensures 0.0 <= Scale(k, x) <= x
  {
    assert k * x <= 1.0 * x;
  }

  /** A non-negative coefficient times a non-negative amount is non-negative,
      and a larger coefficient gives a larger result. */
  lemma ScaleMonotone(k: real, j: real, x: real)
    requires 0.0 <= k <= j && x >= 0.0
    ensures 0.0 <= Scale(k, x) <= Scale(j, x)
  {
    assert k * x <= j * x;
  }
}
