/** Failure-carrying datatypes and the small value types shared by every component. */
module Base {

  /** A value that may be absent: JavaScript's `null`/`undefined` become `None`. */
  datatype Option<+T> = None | Some(value: T) {

    /** The value, or `default` when absent (JavaScript's `x ?? default`). */
    function GetOr(default: T): T {
      match this
      case Some(v) => v
      case None => default
    }
  }

  /** The outcome of a call that may fail with an error of type `E`. */
  datatype Result<+T, +E> = Ok(value: T) | Err(error: E)

  /** An octet of a binary payload (a `Blob` or a `File`). */
  newtype byte = x: int | 0 <= x < 256

  /**
   * An opaque browser resource: a media stream, a `MediaRecorder`, an interval
   * timer or an object URL.  Only identity matters to the model.
   */
  type Handle = nat

  /**
   * `xs.findIndex(p)` as an `Option`: the position of the first element that
   * satisfies `p`, or `None` when no element does.  `Array.prototype.find`
   * returns the element at that position.
   */
  function FindFirst<T>(xs: seq<T>, p: T -> bool): (r: Option<nat>)
    ensures r.Some? ==> r.value < |xs| && p(xs[r.value])
    ensures r.Some? ==> forall k :: 0 <= k < r.value ==> !p(xs[k])
    ensures r.None? <==> forall k :: 0 <= k < |xs| ==> !p(xs[k])
    decreases |xs|
  {
    if |xs| == 0 then None
    else if p(xs[0]) then Some(0)
    else match FindFirst(xs[1..], p)
      case None => None
      case Some(i) => Some(i + 1)
  }
}
