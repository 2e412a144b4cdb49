/** The optional value shared by the modules: Go's nil pointers, nil channels and absent results. */
module Options {
  datatype Option<+T> = None | Some(value: T)
}
