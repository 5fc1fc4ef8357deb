/** The Some/None datatype used where the source uses a value or `None`. */
module Optional {
  datatype Option<+T> = None | Some(value: T)
}
