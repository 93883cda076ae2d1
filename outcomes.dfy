/** Results of operations that can fail: a Java exception becomes an `Err`, a Java `null` result a `None`. */
module Outcomes {

  datatype Option<+T> = None | Some(value: T)

  /** The exception classes the modelled code throws. */
  datatype Fault =
    | IllegalArgument   // IllegalArgumentException
    | NumberFormat      // NumberFormatException (a subclass of IllegalArgumentException)
    | IndexOutOfBounds  // IndexOutOfBoundsException / ArrayIndexOutOfBoundsException
    | NoSuchElement     // NoSuchElementException

  datatype Result<+T> = Ok(value: T) | Err(fault: Fault)
  {
    predicate IsFailure() { Err? }

    function PropagateFailure<U>(): Result<U>
      requires Err?
    {
      Err(fault)
    }

    function Extract(): T
      requires Ok?
    {
      value
    }
  }

  /** Outcome of a `void` operation that may throw. */
  datatype Status = Done | Failed(fault: Fault)
}
