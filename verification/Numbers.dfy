/** The arithmetic functions the source calls. */
module Numbers {
  function Max(a: real, b: real): real { if a < b then b else a }

  function Min(a: real, b: real): real { if a < b then a else b }

  function Abs(x: real): real { if x < 0.0 then -x else x }

  /** To the nearest integer, halves upward. */
  function Round(x: real): int { (x + 0.5).Floor }

  function Pow2(k: nat): (p: real)
    ensures p >= 1.0
  {
    if k == 0 then 1.0 else 2.0 * Pow2(k - 1)
  }
}
