/** Python's `int()` applied to a float: truncation toward zero. */
module PyInt {

  /** `int(x)` for a float `x`. */
  function Trunc(x: real): (n: int)
    ensures x >= 0.0 ==> n as real <= x < n as real + 1.0
    ensures x < 0.0 ==> n as real - 1.0 < x <= n as real
  {
    if x >= 0.0 then x.Floor else -((-x).Floor)
  }

  /** Truncation is odd: `int(-x) == -int(x)`, unlike floor. */
  lemma TruncOdd(x: real)
    ensures Trunc(-x) == -Trunc(x)
  {
    if x == 0.0 {
      assert -x == 0.0;
    }
  }

  /** Whole numbers are left alone. */
  lemma TruncWhole(n: int)
    ensures Trunc(n as real) == n
  {
  }
}
