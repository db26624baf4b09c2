/** Presence of a JSON key: `None` is a key absent from the object. */
module Options {
  datatype Option<+T> = None | Some(value: T)
}
