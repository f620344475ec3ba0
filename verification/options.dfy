/** Optional values and results shared by the other modules. */
module Options {
  datatype Option<+T> = None | Some(value: T)

  /** A SHA-256 digest as a big-endian number: comparing bytes compares numbers. */
  type Digest = nat

  /** A Go `(value, error)` pair: exactly one of the two is meaningful. */
  datatype Result<+T> = Ok(value: T) | Err(error: string)

  predicate AllPresent<T>(items: seq<Option<T>>) {
    forall i :: 0 <= i < |items| ==> items[i].Some?
  }

  /** The values of a sequence without missing ones. */
  function Values<T>(items: seq<Option<T>>): (values: seq<T>)
    requires AllPresent(items)
    ensures |values| == |items| && forall i :: 0 <= i < |items| ==> values[i] == items[i].value
  {
    seq(|items|, i requires 0 <= i < |items| => items[i].value)
  }
}
