/** JavaScript's null/undefined alternatives, as an option type. */
module Options {

  datatype Option<T> = None | Some(value: T)
}
