/** Small result types shared by the server and client models. */
module Base {

  /** A value that may be absent: JavaScript's null/undefined, Python's missing key. */
  datatype Option<+T> = None | Some(value: T)

  /** The outcome of a Python computation: a value, or an exception carrying its `str(e)`. */
  datatype PyResult<+T> = Value(value: T) | Raised(message: string)
}
