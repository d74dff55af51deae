/** A value that may be missing: PHP's `null` next to a present value. */
module Optional {

  datatype Option<+T> = None | Some(value: T)

}
