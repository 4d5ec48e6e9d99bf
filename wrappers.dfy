/** Option and Result: every Python `None` and every raised exception of the model. */
module Wrappers {

  datatype Option<+T> = None | Some(value: T)

  /** The outcome of a computation that may raise: Ok carries the value, Err the reason. */
  datatype Result<+T> = Ok(value: T) | Err(msg: string) {
    predicate IsFailure() { Err? }

    function PropagateFailure<U>(): Result<U>
      requires Err?
    {
      Err(msg)
    }

    function Extract(): T
      requires Ok?
    {
      value
    }
  }

  function Max(a: real, b: real): real { if a >= b then a else b }

  function Min(a: real, b: real): real { if a <= b then a else b }

  function Abs(x: real): real { if x >= 0.0 then x else -x }
}
