/** Math.round of a percentage, exactly: round(x * p / 100) with halves going up. */
module Rounding {
  function RoundPercent(x: int, p: int): (r: int)
    ensures -100 < 200 * r - 2 * (x * p) <= 100
  {
    (2 * (x * p) + 100) / 200
  }

  function Max0(x: int): (r: int)
    ensures r >= 0 && (r == x || (x < 0 && r == 0))
  {
    if x < 0 then 0 else x
  }
}
