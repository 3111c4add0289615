/** A value that may be absent: a nullable column, an omitted filter, a lookup without a hit. */
module Options {
  datatype Option<+T> = None | Some(value: T)
}
