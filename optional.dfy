/** A value that may be absent: `undefined` in the page scripts. */
module Optional {

  datatype Option<+T> = None | Some(value: T)
}
