/** The optional-value datatype used across the model (a Python value that may be None). */
module Optional {

  datatype Option<+T> = None | Some(value: T)
}
