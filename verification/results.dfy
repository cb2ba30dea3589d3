/** The Option and Result types shared by the other modules. */
module Results {

  /** An optional value, used where the Python code holds `None` or a value. */
  datatype Option<+T> = None | Some(value: T)

  /** Either a value or the error the Python code would raise instead. */
  datatype Result<+T, +E> = Success(value: T) | Failure(error: E)
}
