/** A value that may be absent: JavaScript's `undefined`/`null` versus a present value. */
module Optional {

  datatype Option<+T> = None | Some(value: T)
}
