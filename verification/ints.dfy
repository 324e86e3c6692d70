/** Integer helpers shared by the model. */
module Ints {

  /** The smaller of two integers, as Python's `min`. */
  function Min(a: int, b: int): (m: int)
    ensures m <= a && m <= b
    ensures m == a || m == b
  {
    if a < b then a else b
  }
}
