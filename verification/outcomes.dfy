/** Failure-carrying wrappers shared by the whole model.
    - Option<T>: Python's `Optional[T]` (a value or `None`).
    - Outcome<T>: how a Python call ends, either by returning a value or by raising. */
module Outcomes {

  /** A value or Python's `None`. */
  datatype Option<+T> = None | Some(value: T) {

    /** The wrapped value, or `default` when there is none. */
    function GetOr(default: T): T {
      match this
      case Some(v) => v
      case None => default
    }
  }

  /** The way a call settles: it returned `value`, or it raised an exception.
      The exception itself is never inspected by the analyzer, only logged,
      so it carries no payload here. */
  datatype Outcome<+T> = Returned(value: T) | Raised
}
