/** A value that may be missing: a nil result, an absent field, a failed call. */
module Options {
  datatype Option<+T> = None | Some(value: T)
}
