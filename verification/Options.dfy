/** The optional value used for absent slots, lanes and results throughout the project. */
module Options {
  datatype Option<+T> = None | Some(value: T)
}
