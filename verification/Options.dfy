/** The optional value used throughout the models (a null pointer, an absent hit, a missing result). */
module Options {
  datatype Option<+T> = None | Some(value: T)
}
