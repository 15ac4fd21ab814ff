/** Optional values and failure-carrying results. `Option` stands for a Python
    value that may be `None`; `Result` stands for a computation that may raise
    an exception nobody catches. Both support `:-`, so a raise propagates the
    way it does in the original control flow. */
module Options {

  datatype Option<+T> = None | Some(value: T) {

    predicate IsFailure() {
      None?
    }

    function PropagateFailure<U>(): Option<U>
      requires None?
    {
      None
    }

    function Extract(): T
      requires Some?
    {
      value
    }
  }

  datatype Result<+R, +E> = Ok(value: R) | Err(error: E) {

    predicate IsFailure() {
      Err?
    }

    function PropagateFailure<U>(): Result<U, E>
      requires Err?
    {
      Err(error)
    }

    function Extract(): R
      requires Ok?
    {
      value
    }
  }

  /** The list holding the value of `o`, if any: appending it is "append when present". */
  function ToSeq<T>(o: Option<T>): seq<T>
  {
    match o
    case Some(v) => [v]
    case None => []
  }
}
