/** A minimal optional-value type used for partial decoding. */
module Options {

  datatype Option<+T> = None | Some(value: T)
}
