/** What may be there or not. */
module Options {
  datatype Option<T> = None | Some(value: T)
}
