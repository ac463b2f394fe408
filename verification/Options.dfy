/** The optional value used for nullable columns and absent results. */
module Options {
  datatype Option<+T> = None | Some(value: T)
}
