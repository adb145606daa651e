/** Real-arithmetic vocabulary shared by the signal utilities. */
module Arithmetic {

  /** Math.pow(x, 2). */
  function Square(x: real): real
  {
    x * x
  }
}
