/** Small shared vocabulary: an optional value, abstract timestamps and `min` on reals. */
module Common {

  /** A value that may be absent, as Python's `None` or a `dict.get` miss. */
  datatype Option<+T> = None | Some(value: T)

  /** A wall-clock reading (`datetime.now().isoformat()`); the clock itself is a parameter. */
  type Timestamp = string

  /** Python's `min(a, b)` on floats, modelled on reals. */
  function Min(a: real, b: real): (m: real)
    ensures m <= a && m <= b
    ensures m == a || m == b
  {
    if b < a then b else a
  }
}
