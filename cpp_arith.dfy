/**
 * The two pieces of C++ arithmetic the viewer relies on, written out
 * because Dafny's own operators behave differently:
 *  - `int / 2` truncates toward zero, while Dafny's `/` is Euclidean;
 *  - converting a double to `int` truncates toward zero, while Dafny's
 *    `.Floor` rounds toward negative infinity.
 */
module CppArith {

  /** C++ `n / 2` on an int: the quotient is truncated toward zero, so the
      remainder `n - 2 * q` is 0 or carries the sign of `n`. */
  function TruncDiv2(n: int): (q: int)
    ensures n >= 0 ==> 0 <= n - 2 * q <= 1
    ensures n < 0 ==> -1 <= n - 2 * q <= 0
  {
    if n >= 0 then n / 2 else -((-n) / 2)
  }

  /** C++ `int(x)` for a double `x` whose value fits an int: truncation
      toward zero, so `|r| <= |x| < |r| + 1` and `r` has the sign of `x`. */
  function Truncate(x: real): (r: int)
    ensures x >= 0.0 ==> 0 <= r && r as real <= x < r as real + 1.0
    ensures x < 0.0 ==> r <= 0 && r as real - 1.0 < x <= r as real
  {
    if x >= 0.0 then x.Floor else -((-x).Floor)
  }

  /** Truncating division is symmetric around zero, which Euclidean
      division is not (in Dafny, `-3 / 2 == -2` but `TruncDiv2(-3) == -1`). */
  lemma TruncDiv2Odd(n: int)
    ensures TruncDiv2(-n) == -TruncDiv2(n)
    ensures TruncDiv2(-3) == -1 && -3 / 2 == -2
  {
  }
}
