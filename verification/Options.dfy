/** An optional value, for the source's nil pointers, missing map entries and error returns. */
module Options {

  datatype Option<+T> = None | Some(value: T)
}
