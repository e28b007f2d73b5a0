/** Results and error kinds shared by the whole model. */
module Base {

  datatype Option<+T> = None | Some(value: T)

  /** The error kinds a caller can tell apart; message texts are not modelled.
      Timeout is the backoff or poll giving up, Panic a Go run-time panic. */
  datatype Kind = InvalidArgument | NotFound | AlreadyExists | FailedPrecondition | Timeout | Panic | Other

  datatype Result<+T> = Ok(value: T) | Err(kind: Kind)
}
