/** A JavaScript value that may be `undefined`: `None`, or `Some` of a present value. */
module Optional {

  datatype Option<+T> = None | Some(value: T)
}
