/** The two comparison helpers of the utility header.  They are templates over
    any ordered type; every caller in the firmware uses them on integers. */
module Maths {

  /** The smaller of `a` and `b`. */
  function Min(a: int, b: int): (r: int)
    ensures r <= a && r <= b
    ensures r == a || r == b
  {
    if a < b then a else b
  }

  /** The larger of `a` and `b`. */
  function Max(a: int, b: int): (r: int)
    ensures r >= a && r >= b
    ensures r == a || r == b
  {
    if a > b then a else b
  }
}
