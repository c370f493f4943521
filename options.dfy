/** A value that the billing API may leave out (Python's None). */
module Options {
  datatype Option<T> = None | Some(value: T)
}
