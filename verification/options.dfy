/** The optional value used for absent request fields, lookups and the session slot. */
module Options {
  datatype Option<+T> = None | Some(value: T)
}
