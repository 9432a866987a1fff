/** A value that may be absent: a query that found no row, a request that failed. */
module Options {
  datatype Option<+T> = None | Some(value: T)
}
