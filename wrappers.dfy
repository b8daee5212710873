/** The optional value used for Go's nil maps and slices, and for the results of the decoders. */
module Wrappers {

  datatype Option<+T> = None | Some(value: T) {

    predicate IsFailure() {
      None?
    }

    function PropagateFailure<U>(): Option<U>
      requires None?
    {
      None
    }

    function Extract(): T
      requires Some?
    {
      value
    }

    function GetOr(default: T): T {
      match this
      case Some(v) => v
      case None => default
    }
  }

  /** The (result, error) pair a Go function returns, with exactly one side present. */
  datatype Result<+R, +E> = Ok(value: R) | Err(error: E)
}
