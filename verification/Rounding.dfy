/**
 Half-away-from-zero rounding over exact reals, and the branch-free form the SIMD kernels use:
 truncate the magnitude, add one when the remainder reaches a half, put the sign back.
 */
module Rounding {
  function Abs(x: real): (r: real)
    ensures r >= 0.0
  {
    if x < 0.0 then -x else x
  }

  /** `round()`: the nearest integer, halves away from zero. */
  function Round(x: real): int {
    if x < 0.0 then -((0.5 - x).Floor) else (x + 0.5).Floor
  }

  /** What rounding half away from zero means. */
  ghost predicate Nearest(x: real, q: int) {
    && Abs(q as real - x) <= 0.5
    && (Abs(q as real - x) == 0.5 ==> Abs(q as real) > Abs(x))
  }

  lemma RoundIsNearest(x: real, q: int)
    ensures q == Round(x) <==> Nearest(x, q)
  {
  }

  /** The SIMD sequence on a magnitude: trunc, compare the remainder with one half, add one. */
  function TruncHalf(mag: real): int
    requires mag >= 0.0
  {
    var whole := mag.Floor;
    if mag - whole as real >= 0.5 then whole + 1 else whole
  }

  lemma TruncHalfRounds(x: real)
    ensures (if x < 0.0 then -TruncHalf(Abs(x)) else TruncHalf(Abs(x))) == Round(x)
  {
  }

  lemma RoundInteger(n: int)
    ensures Round(n as real) == n
  {
  }

  function Clamp(n: int, limit: int): int {
    if n < -limit then -limit else if n > limit then limit else n
  }
}
