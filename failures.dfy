/** Python exceptions of the client, as values.

    Every step of the DNS-01 flow either returns normally or raises; a raised
    exception propagates to the caller unchanged. Here a step that returns a
    value yields a `Result`, a step that returns nothing yields an `Outcome`,
    and the `Error` they carry says which exception was raised.
 */
module Failures {

  datatype Option<T> = None | Some(value: T)

  /** An exception raised either by this client or by a collaborator it calls. */
  datatype Error =
    /** core.py: no authorization of the order offers a DNS-01 challenge */
    | Dns01NotOffered
    /** route53.py: no status check reported INSYNC; carries the last status seen */
    | PropagationTimeout(status: string)
    /** an exception raised inside a collaborator (ACME server, Route53 SDK, a DNS hook) */
    | ServiceError(operation: string)

  const NOT_OFFERED_MESSAGE: string := "DNS-01 challenge was not offered by the CA server."
  const TIMEOUT_MESSAGE_PREFIX: string := "Timed out waiting for Route53 change. Current status: "

  /** The text of the exception, for the two exceptions the client raises itself.
      A collaborator's exception text is not modelled: for `ServiceError` this
      is only the name of the failing call. */
  function Message(e: Error): (m: string)
    ensures e.PropagationTimeout? ==> |e.status| <= |m| && m[|m| - |e.status|..] == e.status
  {
    match e
    case Dns01NotOffered => NOT_OFFERED_MESSAGE
    case PropagationTimeout(status) => TIMEOUT_MESSAGE_PREFIX + status
    case ServiceError(operation) => operation
  }

  /** The outcome of a step that returns a value. */
  datatype Result<T> = Ok(value: T) | Err(error: Error)

  /** The outcome of a step that returns nothing. */
  datatype Outcome = Pass | Fail(error: Error)
}
