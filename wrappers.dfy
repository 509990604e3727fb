/** Outcomes of operations that may raise.  A Python exception is modelled as
    an `Err` carrying the kind of exception the source raises. */
module Wrappers {

  datatype Option<+T> = None | Some(value: T)

  /** The exception kinds the modelled code can raise. */
  datatype Error =
    | ValueError
    | IndexError
    | KeyError
    | TypeError
    | AttributeError
    | NotImplementedError
    | UnboundLocalError
    | NameError        // a name the code uses is defined nowhere in the package
    | StructError      // struct.pack/unpack refused the value or ran out of data
    | OverflowError

  datatype Result<+T> = Ok(value: T) | Err(error: Error) {
    predicate IsFailure() { Err? }

    function PropagateFailure<U>(): Result<U>
      requires Err?
    {
      Err(error)
    }

    function Extract(): T
      requires Ok?
    {
      value
    }
  }
}
