/** An optional value: the outcome of a search that may find nothing. */
module Options {

  /** Either no value, or exactly one value. */
  datatype Option<+T> = None | Some(value: T)
}
