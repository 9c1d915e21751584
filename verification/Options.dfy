/** A value that may be absent: a null pointer, a failed lookup. */
module Options {
  datatype Option<+T> = None | Some(value: T)
}
