/** A value that may be missing. A record field the analyzer reads as
    Python's `None` is `None` here. */
module Optional {
  datatype Option<T> = None | Some(value: T)

  /** `x if x is not None else fallback`. */
  function ValueOr<T>(x: Option<T>, fallback: T): (v: T)
    ensures x.Some? ==> v == x.value
    ensures x.None? ==> v == fallback
  {
    if x.Some? then x.value else fallback
  }
}
