/** Values shared by every component of the relay model. */
module Basics {
  datatype Option<+T> = None | Some(value: T)

  /** The reasons the API reports. */
  datatype Reason =
    | BadOperationId
    | BasicHpkeEnvelopeRequired
    | CursorAhead
    | CursorExpired
    | DeviceNotInRoster
    | EpochChanged
    | EventLimit
    | FeatureAbsent
    | InvalidBatchSize
    | InvalidEnvelope
    | InvalidMlsMessage
    | InvalidMlsWire
    | InvalidPayloadSize
    | MembershipRequired
    | MessageNotAccessible
    | MlsBindingMismatch
    | MlsMismatch
    | OperationConflict
    | OperationReused
    | SendDenied
    | SendRevoked
    | StorageUnavailable
    | TransitionPending
    | WriterGroupTooLarge

  /** An API status with its reason; storage failures carry 503. */
  datatype Err = Err(status: int, reason: Reason)

  datatype Result<+T> = Ok(value: T) | Fail(error: Err)

  /** Identifiers are opaque: the model only compares them. */
  type Id = int

  function Max(a: int, b: int): int {
    if a < b then b else a
  }

  function Min(a: int, b: int): int {
    if a < b then a else b
  }
}
