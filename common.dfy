/** Values shared by every part of the notification service model. */
module Common {

  /** A byte of a serialised payload. */
  newtype byte = x: int | 0 <= x < 256

  type Bytes = seq<byte>

  /** An opaque timestamp (a reading of the wall clock). */
  type Time = int

  datatype Option<+T> = None | Some(value: T)

  /** The errors the service itself raises, plus the opaque errors of its collaborators. */
  datatype Error =
    | InvalidPhoneNumber               // router: metaData["phoneNumber"] missing, not a string or empty
    | InvalidEmail                     // router: metaData["email"] missing, not a string or empty
    | UnsupportedChannel(channel: string)
    | NoSSEConnection(userId: string)  // SSE push to a user with no live stream
    | External(code: nat)              // an error returned by a driver, SDK or encoder

  /** A value or the error that prevented it (Go's `(T, error)` pair). */
  datatype Result<+T> = Ok(value: T) | Err(error: Error)

  /** Go's `error` return: `Pass` is nil. */
  datatype Outcome = Pass | Fail(error: Error)

  /** HTTP status codes the handlers use. */
  const StatusBadRequest: int := 400
  const StatusInternalServerError: int := 500
}
