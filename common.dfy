/** Optional values and the tagged outcome of a call that may raise. */
module Common {
  datatype Option<T> = None | Some(value: T)

  /** The result of a remote or secret-service call: `Err` stands for any exception it raises. */
  datatype Outcome<T> = Ok(value: T) | Err
}
