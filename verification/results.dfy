/** Values that stand for "a value or nothing" and "a value or the exception
    the Python code would raise". */
module Results {

  datatype Option<T> = None | Some(value: T)

  /** `Err` carries the name of the Python exception the operation raises. */
  datatype Result<T> = Ok(value: T) | Err(error: string)
}
