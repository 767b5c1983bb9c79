/** The absent-or-present value used for the parser's partial scans. */
module Optional {

  datatype Option<+T> = None | Some(value: T)
}
