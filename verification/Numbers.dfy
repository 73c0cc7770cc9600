/**
 * Arithmetic helpers shared by the valuation engine: integer powers
 * (the engine only ever raises to the whole exponents 0..5), absolute
 * values and sums of real sequences.
 */
module Numbers {

  /** `Math.pow(x, n)` for a whole exponent n. */
  function Pow(x: real, n: nat): real
  {
    if n == 0 then 1.0 else Pow(x, n - 1) * x
  }

  lemma {:induction false} PowPositive(x: real, n: nat)
    requires x > 0.0
    ensures Pow(x, n) > 0.0
  {
    if n > 0 {
      PowPositive(x, n - 1);
    }
  }

  lemma {:induction false} PowNonZero(x: real, n: nat)
    requires x != 0.0
    ensures Pow(x, n) != 0.0
  {
    if n > 0 {
      PowNonZero(x, n - 1);
    }
  }

  /** For a base above one, every further power is strictly larger. */
  lemma {:induction false} PowStrictlyIncreasing(x: real, n: nat)
    requires x > 1.0
    ensures Pow(x, n) < Pow(x, n + 1)
  {
    PowPositive(x, n);
    assert Pow(x, n + 1) == Pow(x, n) * x;
  }

  /** For a base above one, powers grow strictly with the exponent. */
  lemma {:induction false} PowMonotone(x: real, i: nat, j: nat)
    requires x > 1.0 && i < j
    ensures 0.0 < Pow(x, i) < Pow(x, j)
    decreases j - i
  {
    PowPositive(x, i);
    PowStrictlyIncreasing(x, i);
    if i + 1 < j {
      PowMonotone(x, i + 1, j);
    }
  }

  /** Dividing a positive amount by a larger positive divisor gives a smaller quotient. */
  lemma DivideByLarger(a: real, x: real, y: real)
    requires a > 0.0 && 0.0 < x < y
    ensures 0.0 < a / y < a / x
  {
    var qx := a / x;
    var qy := a / y;
    assert qx * x == a && qy * y == a;
    assert qy > 0.0;
    if qy >= qx {
      assert false;
    }
  }

  /** `Math.abs`. */
  function Abs(x: real): (r: real)
    ensures r >= 0.0
    ensures r == x || r == -x
  {
    if x < 0.0 then -x else x
  }

  /** The fold `reduce((sum, v) => sum + v, 0)`, taken from the left. */
  function Sum(s: seq<real>): real
  {
    if |s| == 0 then 0.0 else Sum(s[..|s| - 1]) + s[|s| - 1]
  }

  /** A sum of values that all lie in [lo, hi] lies in [n * lo, n * hi]. */
  lemma {:induction false} SumBounds(s: seq<real>, lo: real, hi: real)
    requires forall i :: 0 <= i < |s| ==> lo <= s[i] <= hi
    ensures (|s| as real) * lo <= Sum(s) <= (|s| as real) * hi
  {
    if |s| > 0 {
      SumBounds(s[..|s| - 1], lo, hi);
    }
  }
}
