/** A value that may be missing: Go's nil result of `exprType` and nil field lists. */
module Optional {

  datatype Option<+T> = None | Some(value: T)

}
