/** The JavaScript arithmetic the core relies on, stated over Dafny's exact reals:
    Math.round, the clamp written as Math.min(hi, Math.max(lo, x)), and Math.sqrt,
    which the model takes as a parameter constrained only by what a square root is. */
module Numeric {

  /** Math.round: the nearest integer, halves rounded towards +infinity. */
  function Round(x: real): (r: int)
    ensures r as real - 0.5 <= x < r as real + 0.5
  {
    (x + 0.5).Floor
  }

  /** Math.min(hi, Math.max(lo, x)). */
  function Clamp(x: real, lo: real, hi: real): (r: real)
    requires lo <= hi
    ensures lo <= r <= hi
    ensures lo <= x <= hi ==> r == x
    ensures x < lo ==> r == lo
    ensures hi < x ==> r == hi
  {
    var atLeastLo := if lo > x then lo else x;
    if hi < atLeastLo then hi else atLeastLo
  }

  function Square(x: real): (r: real)
    ensures r >= 0.0
  {
    x * x
  }

  function Abs(x: real): (r: real)
    ensures r >= 0.0 && (r == x || r == -x)
  {
    if x < 0.0 then -x else x
  }

  function MinInt(a: int, b: int): int { if a < b then a else b }

  function MaxInt(a: int, b: int): int { if a < b then b else a }

  /** `m` is the (non-negative) square root of `s`. */
  ghost predicate IsRoot(m: real, s: real) {
    m >= 0.0 && m * m == s
  }

  /** `sqrt` behaves as Math.sqrt does on exact reals: the non-negative root of every
      non-negative argument. */
  ghost predicate IsSqrt(sqrt: real -> real) {
    forall s :: s >= 0.0 ==> IsRoot(sqrt(s), s)
  }

  /** Sum of a sequence of reals, folded from the left as Array.prototype.reduce does. */
  function Sum(s: seq<real>): real
  {
    if s == [] then 0.0 else Sum(s[..|s| - 1]) + s[|s| - 1]
  }

  /** A sum of positive terms is positive. */
  lemma {:induction false} SumOfPositives(s: seq<real>)
    requires |s| > 0
    requires forall i :: 0 <= i < |s| ==> s[i] > 0.0
    ensures Sum(s) > 0.0
  {
    if |s| > 1 {
      SumOfPositives(s[..|s| - 1]);
    }
  }

  /** One more copy of x, stated linearly. */
  lemma MultiplyOneMore(k: int, x: int)
    ensures (k + 1) * x == k * x + x
  {
  }

  /** For non-negative reals, comparing squares is comparing the values. */
  lemma SquareMonotone(a: real, b: real)
    requires a >= 0.0 && b >= 0.0
    ensures Square(a) <= Square(b) <==> a <= b
  {
    if a <= b {
      assert a * (b - a) >= 0.0 && b * (b - a) >= 0.0;
    } else {
      assert b * (a - b) >= 0.0 && a * (a - b) > 0.0;
    }
  }

  /** For non-negative reals, a strict comparison of squares is a strict comparison of
      the values. */
  lemma SquareStrictlyMonotone(a: real, b: real)
    requires a >= 0.0 && b >= 0.0
    ensures Square(a) < Square(b) <==> a < b
  {
    SquareMonotone(b, a);
  }
}
