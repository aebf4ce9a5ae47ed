/** Small shared vocabulary: optional values, instants and the rounding the sources use. */
module Common {

  datatype Option<+T> = None | Some(value: T)

  /** An instant or a duration in milliseconds, as JavaScript's Date stores it. */
  type Instant = int

  function Max(a: int, b: int): int {
    if a >= b then a else b
  }

  function Min(a: int, b: int): int {
    if a <= b then a else b
  }

  function MaxReal(a: real, b: real): real {
    if a >= b then a else b
  }

  /** JavaScript's Math.round: halves go up, also for negative numbers. */
  function Round(x: real): int {
    (x + 0.5).Floor
  }

  /** JavaScript's Math.ceil. */
  function Ceil(x: real): int {
    -(-x).Floor
  }

  /** The whole number nearest to x, halves up. */
  predicate IsRounded(n: int, x: real) {
    n as real - 0.5 <= x < n as real + 0.5
  }

  /** The least whole number that is not below x. */
  predicate IsRoundedUp(n: int, x: real) {
    n as real - 1.0 < x <= n as real
  }

  lemma RoundIsNearest(x: real)
    ensures IsRounded(Round(x), x) && IsRoundedUp(Ceil(x), x)
  {
  }

  lemma RoundMonotone(x: real, y: real)
    requires x <= y
    ensures Round(x) <= Round(y)
  {
  }

  /** Rounding a sum and summing the rounded parts differ by at most one. */
  lemma RoundOfSum(x: real, y: real)
    ensures Round(x + y) - 1 <= Round(x) + Round(y) <= Round(x + y) + 1
  {
  }
}
