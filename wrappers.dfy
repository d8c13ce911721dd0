/** Optional values, standing in for Swift's `T?`. */
module Wrappers {
  datatype Option<+T> = None | Some(value: T)
  {
    predicate IsSome() { Some? }

    /** Swift's `x ?? d`. */
    function GetOr(default: T): (r: T)
      ensures Some? ==> r == value
      ensures None? ==> r == default
    {
      match this
      case Some(v) => v
      case None => default
    }
  }

  /** Outcome of one request plus decoding: failure, or the decoded response. */
  datatype Fetch<T> = Failed | Decoded(response: T)
}
