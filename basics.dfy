/** Option, Result and the Python exceptions the simulator can raise. */
module Basics {

  datatype Option<+T> = None | Some(value: T)

  /** The exceptions of the original program, plus `Exhausted`: the supplied
      prefix of a random stream ran out before the computation finished. */
  datatype Error =
    | KeyError           // missing dictionary / table key
    | IndexError         // array index out of range
    | ValueError         // int() of NaN, pandas column-count mismatch, empty choice
    | TypeError          // subscripting a bare State, arithmetic on None, log of a string
    | AttributeError     // `.str` accessor on a non-string column
    | ZeroDivisionError  // `1./steps` with steps == 0
    | Exhausted          // the supplied random draws ran out

  datatype Result<+T> = Ok(value: T) | Err(error: Error)

  /** Python's `int(x)` on a float: truncation toward zero. */
  function Trunc(x: real): (n: int)
    ensures x >= 0.0 ==> n as real <= x < n as real + 1.0
    ensures x < 0.0 ==> n as real - 1.0 < x <= n as real
  {
    if x >= 0.0 then x.Floor else -((-x).Floor)
  }

  /** `ceil` on a real, used for the length of `numpy.arange`. */
  function Ceil(x: real): (n: int)
    ensures x <= n as real < x + 1.0
  {
    -((-x).Floor)
  }
}
