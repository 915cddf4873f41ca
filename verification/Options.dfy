/** An optional value: a nullable column, an argument left out, a search that may find nothing. */
module Options {

  datatype Option<T> = None | Some(value: T)
}
