/** Random draws of the component, taken as parameters.
    Each `r: real` stands for one value of `Math.random()`, which lies in [0, 1). */
module Draws {

  /** `Math.floor(Math.random() * n)`: an index below `n`. */
  function Pick(r: real, n: nat): (k: nat)
    requires 0.0 <= r < 1.0 && n > 0
    ensures k < n
  {
    PickBelow(r, n);
    (r * n as real).Floor
  }

  lemma PickBelow(r: real, n: nat)
    requires 0.0 <= r < 1.0 && n > 0
    ensures 0.0 <= r * n as real < n as real
  {
  }

  /** The amounts `randomAmount` can produce, in cents: 1.00 to 1000.00. */
  predicate IsDrawnAmount(cents: int) {
    100 <= cents <= 100000
  }

  /** `(Math.random() * 999 + 1).toFixed(2)` read back as cents: `toFixed(2)`
      rounds to the nearest hundredth, a tie going up. */
  function RandomAmount(r: real): (cents: int)
    requires 0.0 <= r < 1.0
    ensures IsDrawnAmount(cents)
    ensures (cents as real) - 0.5 <= (r * 999.0 + 1.0) * 100.0 < (cents as real) + 0.5
  {
    ((r * 999.0 + 1.0) * 100.0 + 0.5).Floor
  }
}
