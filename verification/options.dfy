/** The optional values of every module here. */
module Options {

  datatype Option<+T> = None | Some(value: T)
}
