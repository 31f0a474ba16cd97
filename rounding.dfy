/**
 * Rounding to two decimal places, as Python's `round(x, 2)` does for the
 * exact decimal value of x: to the nearest hundredth, ties to the even
 * neighbour. Binary floating point is not modelled; values are reals.
 */
module Rounding {

  /** x is a whole number of hundredths. */
  predicate OnCentGrid(x: real) {
    (x * 100.0).Floor as real == x * 100.0
  }

  /** The integer nearest to y; on a tie, the even one. */
  function RoundHalfEven(y: real): (k: int)
    ensures y - 0.5 <= k as real <= y + 0.5
    ensures (k as real - y == 0.5 || y - k as real == 0.5) ==> k % 2 == 0
  {
    var n := y.Floor;
    var frac := y - n as real;
    if frac < 0.5 then n
    else if frac > 0.5 then n + 1
    else if n % 2 == 0 then n
    else n + 1
  }

  /** The two properties above pin the result down: no other integer has both. */
  lemma RoundHalfEvenUnique(y: real, j: int)
    requires y - 0.5 <= j as real <= y + 0.5
    requires (j as real - y == 0.5 || y - j as real == 0.5) ==> j % 2 == 0
    ensures j == RoundHalfEven(y)
  {
  }

  lemma RoundHalfEvenMonotone(x: real, y: real)
    requires x <= y
    ensures RoundHalfEven(x) <= RoundHalfEven(y)
  {
    if x.Floor < y.Floor {
      assert RoundHalfEven(x) <= x.Floor + 1 <= y.Floor <= RoundHalfEven(y);
    }
  }

  /**
   * round(x, 2): a value on the cent grid within half a cent of x; when x
   * lies exactly halfway between two cents, the one with an even last digit.
   */
  function Round2(x: real): (r: real)
    ensures OnCentGrid(r)
    ensures x - 0.005 <= r <= x + 0.005
    ensures (r - x == 0.005 || x - r == 0.005) ==> (r * 100.0).Floor % 2 == 0
  {
    var k := RoundHalfEven(x * 100.0);
    var r := k as real / 100.0;
    assert r * 100.0 == k as real;
    assert (r * 100.0).Floor == k;
    assert x * 100.0 - 0.5 <= r * 100.0 <= x * 100.0 + 0.5;
    assert r - x == 0.005 ==> k as real - x * 100.0 == 0.5;
    assert x - r == 0.005 ==> x * 100.0 - k as real == 0.5;
    r
  }

  /** Values already on the cent grid are left alone. */
  lemma Round2OnGrid(x: real)
    requires OnCentGrid(x)
    ensures Round2(x) == x
  {
    var n := (x * 100.0).Floor;
    assert RoundHalfEven(x * 100.0) == n;
  }

  lemma Round2Monotone(x: real, y: real)
    requires x <= y
    ensures Round2(x) <= Round2(y)
  {
    RoundHalfEvenMonotone(x * 100.0, y * 100.0);
  }
}
