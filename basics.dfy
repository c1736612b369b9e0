/** The optional value used for a bracket's upper limit (`null` means unbounded). */
module Wrappers {

  datatype Option<+T> = None | Some(value: T)
}

/** The clamping helpers the engine applies to monetary amounts (`Math.min`, `Math.max`, `Math.abs`). */
module RealOps {

  function Min(a: real, b: real): (r: real)
    ensures r <= a && r <= b
    ensures r == a || r == b
  {
    if a <= b then a else b
  }

  function Max(a: real, b: real): (r: real)
    ensures r >= a && r >= b
    ensures r == a || r == b
  {
    if a >= b then a else b
  }

  function Abs(x: real): (r: real)
    ensures r >= 0.0
    ensures r == x || r == -x
  {
    if x >= 0.0 then x else -x
  }
}
