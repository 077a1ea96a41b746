/** Failure-carrying wrappers shared by every module. */
module Wrappers {

  /** Python's `Optional[T]`: a value or `None`. */
  datatype Option<+T> = None | Some(value: T)

  /** What a Python call does: it returns a value, or it raises an exception whose `str()` is `error`. */
  datatype Outcome<+T> = Returned(value: T) | Raised(error: string)
}
