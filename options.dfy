/** The optional value used wherever the source has a field or parameter that may be `undefined`. */
module Options {
  datatype Option<+T> = None | Some(value: T)
}
