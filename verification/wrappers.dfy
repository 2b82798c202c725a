/** Failure-carrying result types shared by every module of the model. */
module Wrappers {

  datatype Option<+T> = None | Some(value: T)

  /** The outcome of an operation that can raise: a value, or the error it raised. */
  datatype Result<+T, +E> = Ok(value: T) | Err(error: E) {
    predicate IsFailure() { Err? }

    function PropagateFailure<U>(): Result<U, E>
      requires Err?
    {
      Err(error)
    }

    function Extract(): T
      requires Ok?
    {
      value
    }
  }
}

/** The exceptions the modelled Python code can raise. */
module Exceptions {
  datatype Exc =
    | TypeError
    | IndexError
    | KeyError
    | ValueError
    | OverflowError
    | ZeroDivisionError
    | AttributeError
    | RecursionError
    | AssertionError
    | SyntaxError
      /** The source loops forever here; the model stops and says so. */
    | Diverges
      /** Python behaviour this model does not reproduce (see README, "Left out"). */
    | NotModelled
}
