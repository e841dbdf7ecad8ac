/** Wrappers shared by both execution-context models.
    A C++ `throw` of one of the source's exception classes becomes an `Err`,
    and a member that may or may not produce a value returns an `Option`. */
module Results {

  datatype Option<+T> = None | Some(value: T)

  datatype Result<+T, +E> = Ok(value: T) | Err(error: E)
}
