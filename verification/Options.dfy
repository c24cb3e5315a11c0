/** Result types shared by every model: a nullable column or argument, and a
    call that either commits a value or raises an error. */
module Options {

  datatype Option<+T> = None | Some(value: T)

  datatype Result<+T, +E> = Ok(value: T) | Err(error: E)
}
