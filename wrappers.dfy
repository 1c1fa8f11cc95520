/** The optional-value type used throughout the model, standing in for Swift's `T?`. */
module Wrappers {

  datatype Option<+T> = None | Some(value: T) {

    /** The wrapped value, or `default` when there is none (Swift's `??`). */
    function GetOr(default: T): T {
      match this
      case Some(v) => v
      case None => default
    }

    /** The wrapped value as a one-element sequence, or the empty sequence. */
    function ToSeq(): (r: seq<T>)
      ensures |r| <= 1
      ensures Some? <==> |r| == 1
      ensures Some? ==> r[0] == value
    {
      match this
      case Some(v) => [v]
      case None => []
    }
  }
}
