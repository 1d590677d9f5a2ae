/**
 The two failure-carrying datatypes the decoder uses: `Option` for the
 table lookups that may find nothing, and `Result` for the decoding steps
 whose failure the original program reports by aborting.
 */
module Results {

  /** A value that may be absent, as the lookup tables return it. */
  datatype Option<+T> = None | Some(value: T)

  /** Either a computed value or the reason the computation stopped. */
  datatype Result<+T, +E> = Ok(value: T) | Err(error: E)
}
