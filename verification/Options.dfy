/** A value that may be absent: an unset array element, the empty recording slot of a command pool. */
module Options {
  datatype Option<T> = None | Some(value: T)
}
