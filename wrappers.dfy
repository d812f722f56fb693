/** Optional values and error results shared by the model. */
module Wrappers {

  /** A value that may be absent: the model of a nullable Java reference. */
  datatype Option<+T> = None | Some(value: T)

  /** Either a value or an error. */
  datatype Result<+T, +E> = Ok(value: T) | Err(error: E)

  /** Success or an error, for operations that produce no value. */
  datatype Outcome<+E> = Pass | Fail(error: E)

  /** The present value as a one-element sequence, or the empty sequence. */
  function ToSeq<T>(o: Option<T>): (s: seq<T>)
    ensures |s| <= 1
    ensures o.Some? <==> |s| == 1
    ensures o.Some? ==> s[0] == o.value
  {
    match o
    case None => []
    case Some(v) => [v]
  }
}
