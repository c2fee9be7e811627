/** A value that may be absent: a nil pointer, a missing field, or a refused result. */
module Options {
  datatype Option<+T> = None | Some(value: T)
}
