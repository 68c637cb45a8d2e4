/** A value that may be missing: a null pointer or an absent JSON member. */
module Options {
  datatype Option<+T> = None | Some(value: T)
}
