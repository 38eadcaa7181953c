/**
 * Real-number stand-ins for the Python float operations the race script uses:
 * the floor-based remainder `x % 360`, `int(x)` (truncation toward zero),
 * `abs`, `min` and `max`.
 */
module RealMath {

  function Abs(x: real): real
  {
    if x < 0.0 then -x else x
  }

  function Min(a: real, b: real): real
  {
    if a <= b then a else b
  }

  function Max(a: real, b: real): real
  {
    if a >= b then a else b
  }

  /** q is a whole number. */
  predicate IsWhole(q: real)
  {
    q == q.Floor as real
  }

  /** Python's `x % 360` on floats: the remainder takes the sign of the divisor. */
  function Mod360(x: real): real
  {
    x - 360.0 * (x / 360.0).Floor as real
  }

  /** The remainder lies in [0, 360) and differs from x by a whole number of turns. */
  lemma Mod360Range(x: real)
    ensures 0.0 <= Mod360(x) < 360.0
    ensures IsWhole((x - Mod360(x)) / 360.0)
  {
  }

  /** A value already in [0, 360) is its own remainder. */
  lemma Mod360OfNormalized(x: real)
    requires 0.0 <= x < 360.0
    ensures Mod360(x) == x
  {
    assert (x / 360.0).Floor == 0;
  }

  /** Adding whole turns does not change the remainder. */
  lemma Mod360Periodic(x: real, k: int)
    ensures Mod360(x + 360.0 * k as real) == Mod360(x)
  {
    var f := (x / 360.0).Floor;
    var y := x + 360.0 * k as real;
    assert y / 360.0 == x / 360.0 + k as real;
    FloorUnique(y / 360.0, f + k);
  }

  /** Two values a whole number of turns apart have the same remainder. */
  lemma Mod360Congruent(x: real, y: real)
    requires IsWhole((x - y) / 360.0)
    ensures Mod360(x) == Mod360(y)
  {
    var k := ((x - y) / 360.0).Floor;
    assert x == y + 360.0 * k as real;
    Mod360Periodic(y, k);
  }

  /** The floor of q is the integer n with n <= q < n + 1. */
  lemma FloorUnique(q: real, n: int)
    requires n as real <= q < n as real + 1.0
    ensures q.Floor == n
  {
  }

  /** Python's `int(x)` on a float. */
  function Trunc(x: real): int
  {
    if x >= 0.0 then x.Floor else -((-x).Floor)
  }

  /** `int(x)` rounds toward zero: the result has the sign of x (or is 0) and lies less than 1 away from it. */
  lemma TruncTowardZero(x: real)
    ensures x >= 0.0 ==> 0 <= Trunc(x) && Trunc(x) as real <= x < Trunc(x) as real + 1.0
    ensures x < 0.0 ==> Trunc(x) <= 0 && x <= Trunc(x) as real < x + 1.0
  {
  }
}
