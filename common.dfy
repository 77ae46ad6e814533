/** Small value types shared by the dashboard model. */
module Common {

  /** A value that may be absent: a provider table that came back as `None`. */
  datatype Option<+T> = None | Some(value: T)

  /** The outcome of a step that can fail with a reported error instead of a value. */
  datatype Result<+T, +E> = Ok(value: T) | Err(error: E)

  /** The sequence read back to front (numpy's `[::-1]`). */
  function Reverse<T>(s: seq<T>): (r: seq<T>)
    ensures |r| == |s|
    ensures forall i :: 0 <= i < |s| ==> r[i] == s[|s| - 1 - i]
  {
    seq(|s|, i requires 0 <= i < |s| => s[|s| - 1 - i])
  }
}
