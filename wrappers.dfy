/** Option and Result values shared by the whole model: `None` stands for a Go
    nil `*T` or nil error, `Result` for a (value, error) pair. */
module Wrappers {

  datatype Option<+T> = None | Some(value: T)

  datatype Result<+T, +E> = Ok(value: T) | Err(error: E)
}
