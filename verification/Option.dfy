/** An optional value: a nil error, a missing map entry, an absent selection. */
module Options {
  datatype Option<+T> = None | Some(value: T)
}
