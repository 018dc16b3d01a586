/** Failure-carrying values shared by the modules: Python's `None` and the
    exceptions the modelled code raises. */
module Common {

  datatype Option<+T> = None | Some(value: T)

  /** The Python exceptions the modelled functions can raise. */
  datatype PyError =
    | IndexError        // indexing an empty sequence, `np.take` out of range
    | ValueError        // a slice assignment whose shapes cannot be broadcast
    | ZeroDivisionError // a division by an integer zero

  datatype Result<+T> = Ok(value: T) | Err(error: PyError)
}
