/** Decimal rounding as the services use it: `round(x, n)` is round-half-to-even
    (roundTiesToEven, section 4.3.1 of IEEE 754-2008) on exact decimals. */
module Decimals {

  /** The integer nearest to x, ties to the even one. */
  function RoundHalfEven(x: real): int
  {
    var f := x.Floor;
    var rest := x - f as real;
    if rest < 0.5 then f
    else if rest > 0.5 then f + 1
    else if f % 2 == 0 then f else f + 1
  }

  /** n is a correct half-even rounding of x. */
  predicate RoundsTo(x: real, n: int)
  {
    && -0.5 <= x - n as real <= 0.5
    && ((x - n as real == 0.5 || x - n as real == -0.5) ==> n % 2 == 0)
  }

  /** The rounding is the only integer that satisfies the standard's definition. */
  lemma RoundHalfEvenCorrect(x: real, n: int)
    ensures RoundsTo(x, n) <==> n == RoundHalfEven(x)
  {
  }

  lemma RoundHalfEvenMonotone(x: real, y: real)
    requires x <= y
    ensures RoundHalfEven(x) <= RoundHalfEven(y)
  {
  }

  /** `round(x, 4)`. */
  function Round4(x: real): real
  {
    RoundHalfEven(x * 10000.0) as real / 10000.0
  }

  /** `round(x, 2)`. */
  function Round2(x: real): real
  {
    RoundHalfEven(x * 100.0) as real / 100.0
  }

  /** `round(x, 6)`. */
  function Round6(x: real): real
  {
    RoundHalfEven(x * 1000000.0) as real / 1000000.0
  }

  /** x is a whole number of 1e-4 units. */
  predicate OnGrid(x: real)
  {
    (x * 10000.0).Floor as real == x * 10000.0
  }

  /** The number of 1e-4 units in a grid value. */
  function Units(x: real): int
    requires OnGrid(x)
  {
    (x * 10000.0).Floor
  }

  lemma Round4Grid(x: real)
    ensures OnGrid(Round4(x))
    ensures OnGrid(x) <==> Round4(x) == x
  {
  }

  lemma Round4Monotone(x: real, y: real)
    requires x <= y
    ensures Round4(x) <= Round4(y)
  {
    RoundHalfEvenMonotone(x * 10000.0, y * 10000.0);
  }

  lemma Round4Error(x: real)
    ensures -0.00005 <= Round4(x) - x <= 0.00005
  {
  }

  lemma Round4Zero()
    ensures Round4(0.0) == 0.0 && Round2(0.0) == 0.0
  {
  }

  lemma GridSum(x: real, y: real)
    requires OnGrid(x) && OnGrid(y)
    ensures OnGrid(x + y) && OnGrid(x - y)
  {
    var m, n := Units(x), Units(y);
    assert (x + y) * 10000.0 == (m + n) as real;
    assert ((m + n) as real).Floor == m + n;
    assert (x - y) * 10000.0 == (m - n) as real;
    assert ((m - n) as real).Floor == m - n;
  }

  lemma GridTimesInt(x: real, k: int)
    requires OnGrid(x)
    ensures OnGrid(x * k as real)
  {
    var m := Units(x);
    IntProduct(m, k);
    assert x == m as real / 10000.0;
    assert (x * k as real) * 10000.0 == (m * k) as real;
    assert ((m * k) as real).Floor == m * k;
  }

  lemma IntProduct(m: int, k: int)
    ensures (m * k) as real == m as real * k as real
  {
  }

  function Max(x: real, y: real): real { if x < y then y else x }

  function Min(x: real, y: real): real { if y < x then y else x }

  function Abs(x: real): real { if x < 0.0 then -x else x }
}
