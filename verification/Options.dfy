/**
 A value or none: what the source says with a null pointer or a -1.
 */
module Options {
  datatype Option<T> = None | Some(value: T)
}
