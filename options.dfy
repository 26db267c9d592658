/** The optional value used for the brain's pending binary operation. */
module Options {

  datatype Option<T> = None | Some(value: T)
}
