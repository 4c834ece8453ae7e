/** An optional value: a slot index that may be missing, a selection that may be empty. */
module Optional {
  datatype Option<T> = None | Some(value: T)
}
