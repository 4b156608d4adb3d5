/** How JavaScript rounds: shared by tile coordinates, inputs, prices and rank points. */
module Rounding {
  /** Math.round: the nearest whole number, halves upwards. */
  function RoundJs(x: real): (n: int)
    ensures n as real - 0.5 <= x < n as real + 0.5
  {
    (x + 0.5).Floor
  }
}
