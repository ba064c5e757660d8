/** Absent values and raised errors. */
module Results {
  datatype Option<+T> = None | Some(value: T)

  /** `Err` stands for an exception leaving the modelled operation. */
  datatype Result<+T, +E> = Ok(value: T) | Err(error: E)
}
