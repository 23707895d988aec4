/**
 * The outcome of a fallible operation: either a value or an error, in the
 * shape of Rust's `Result<T, E>`.
 */
module Results {

  datatype Result<+T, +E> = Ok(value: T) | Err(error: E)

}
