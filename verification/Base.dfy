/** Shared vocabulary: optional values, outcomes, identifiers. */
module Base {

  datatype Option<+T> = None | Some(value: T)

  /** A transaction either commits with a value or throws with an error and leaves no trace. */
  datatype Result<+T, +E> = Ok(value: T) | Err(error: E)

  /** A document identifier. Fresh ones come from a counter that only grows. */
  type Id = nat

  /** Milliseconds on the one clock every component reads. */
  type Time = int

  datatype Environment = Sandbox | Production
}
