/** Python's `None`-or-value, as used for object ids and snap types. */
module Options {
  datatype Option<+T> = None | Some(value: T)
}
