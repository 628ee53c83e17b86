/** A value that may be missing: Python's `None`, or an error where the source raises one. */
module Options {

  datatype Option<+T> = None | Some(value: T)
}
