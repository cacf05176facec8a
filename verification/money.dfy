/** `Math.min` and `Math.max` on exact amounts, shared by the tax, contribution and input rules. */
module Money {

  function Min(a: real, b: real): real {
    if a < b then a else b
  }

  function Max(a: real, b: real): real {
    if a < b then b else a
  }
}
