/** Option and Result types shared by every module of the model. */
module Results {

  /** An optional value: a missing JSON field, an absent style, a production-only path. */
  datatype Option<+T> = None | Some(value: T)

  /** Either a value or the exception the Python client would raise instead. */
  datatype Result<+T, +E> = Ok(value: T) | Err(error: E)
}
