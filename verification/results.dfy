/** Optional values and fallible results, as the session code uses `Option` and `anyhow::Result`. */
module Results {

  datatype Option<T> = None | Some(value: T)

  /** A fallible outcome; an error is its human-readable message. */
  datatype Result<T> = Ok(value: T) | Err(error: string)
}
