/** How the source ends a call: with a value, or with a thrown Error of this message. */
module Results {
  datatype Result<+T> = Ok(value: T) | Err(error: string)

  datatype Option<+T> = None | Some(value: T)
}
