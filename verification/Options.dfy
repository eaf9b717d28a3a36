/** A value that may be absent: a nullable column, a missing row, a refused message. */
module Options {
  datatype Option<+T> = None | Some(value: T)
}
