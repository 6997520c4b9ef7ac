/** The optional-value type used wherever JavaScript has `null`, `undefined`,
    `NaN` or a failed request. */
module Wrappers {

  datatype Option<+T> = None | Some(value: T)

  function Min(a: int, b: int): (m: int)
    ensures m <= a && m <= b && (m == a || m == b)
  {
    if a <= b then a else b
  }
}
