/** A JavaScript value that may be missing (`undefined`, `null`) from a request body or a payload. */
module Optional {

  datatype Option<T> = None | Some(value: T)

}
