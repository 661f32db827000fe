/** The two result shapes every other module uses for Go's (value, error) pairs and nil pointers. */
module Results {
  datatype Option<+T> = None | Some(value: T)

  datatype Result<+T, +E> = Ok(value: T) | Err(error: E)
}
