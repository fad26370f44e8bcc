// Option and Result: the stock wrappers the rest of the model uses for
// Go's nil values, `(value, error)` pairs and panics.
module Wrappers {
  datatype Option<T> = None | Some(value: T)

  datatype Result<T, E> = Ok(value: T) | Err(error: E)
}
