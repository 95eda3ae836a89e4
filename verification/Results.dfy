/** A value, or the reason why there is none. */
module Results {
  datatype Result<T> = Ok(value: T) | Err(message: string)
}
