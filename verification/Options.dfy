/** The optional value used for nullable columns and absent rows. */
module Options {
  datatype Option<+T> = None | Some(value: T)
}
