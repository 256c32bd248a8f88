/** The quarter-unit rounding step of `src/commands/roll.rs`,
    `x += 0.25 - x % 0.25`, over reals. Rust's `%` on floats keeps the sign of
    the dividend (the quotient is truncated toward zero), and so does this model. */
module QuarterRound {

  /** Truncation toward zero. */
  function Trunc(y: real): (k: int)
    ensures y >= 0.0 ==> k as real <= y < k as real + 1.0
    ensures y < 0.0 ==> k as real - 1.0 < y <= k as real
  {
    if y >= 0.0 then y.Floor else -((-y).Floor)
  }

  /** `x % 0.25` on floats. */
  function QuarterRem(x: real): (r: real)
    ensures x >= 0.0 ==> 0.0 <= r < 0.25
    ensures x < 0.0 ==> -0.25 < r <= 0.0
  {
    x - 0.25 * Trunc(x / 0.25) as real
  }

  /** `x` is a whole number of quarter units. */
  predicate OnGrid(x: real) {
    (4.0 * x).Floor as real == 4.0 * x
  }

  /** `x + (0.25 - x % 0.25)`: always strictly above `x` and on the grid, and
      for a non-negative `x` at most a quarter above it. */
  function RoundUp(x: real): (r: real)
    ensures r > x && OnGrid(r)
    ensures x >= 0.0 ==> r <= x + 0.25
  {
    var k := Trunc(x / 0.25);
    assert x + 0.25 - QuarterRem(x) == (k + 1) as real / 4.0;
    x + 0.25 - QuarterRem(x)
  }

  /** A value already on the grid is not left alone: it moves up a full quarter. */
  lemma RoundUpNoFixedPoint(x: real)
    requires OnGrid(x)
    ensures RoundUp(x) == x + 0.25
  {
    var k := (4.0 * x).Floor;
    assert x / 0.25 == k as real;
    assert Trunc(x / 0.25) == k;
  }

  /** For a non-negative `x` the result is the least grid point strictly above `x`. */
  lemma RoundUpLeast(x: real, y: real)
    requires x >= 0.0 && OnGrid(y) && y > x
    ensures RoundUp(x) <= y
  {
    var k := Trunc(x / 0.25);
    var m := (4.0 * y).Floor;
    assert RoundUp(x) == (k + 1) as real / 4.0;
    assert k as real <= 4.0 * x < 4.0 * y == m as real;
    assert k < m;
  }

  /** Rounding keeps the order of its inputs. */
  lemma RoundUpMonotone(x: real, y: real)
    requires x <= y
    ensures RoundUp(x) <= RoundUp(y)
  {
    var k, m := Trunc(x / 0.25), Trunc(y / 0.25);
    assert RoundUp(x) == (k + 1) as real / 4.0;
    assert RoundUp(y) == (m + 1) as real / 4.0;
    assert x / 0.25 <= y / 0.25;
    assert k <= m;
  }
}
