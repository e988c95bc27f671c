/** Option and Result, the two failure-carrying datatypes the model uses for
    Go's `(value, error)` returns. */
module Wrappers {

  datatype Option<+T> = None | Some(value: T) {

    /** The value, if any, as a sequence of at most one element. */
    function ToSeq(): (s: seq<T>)
      ensures None? ==> s == []
      ensures Some? ==> s == [value]
    {
      match this
      case None => []
      case Some(v) => [v]
    }
  }

  datatype Result<+R, +E> = Success(value: R) | Failure(error: E)
}
