/** Integer arithmetic as the pages' JavaScript performs it. */
module Numbers {

  /**
   * `Math.round(n / d)` for a positive divisor: the integer nearest to n/d,
   * a half rounded up (towards positive infinity, as `Math.round` does).
   */
  function RoundedQuotient(n: int, d: int): (q: int)
    requires d > 0
    ensures 2 * d * q - d <= 2 * n < 2 * d * q + d
  {
    (2 * n + d) / (2 * d)
  }
}
