/** Failure-carrying values shared by the model of the fund service.

    Every external collaborator (the fund contract, the transaction
    repository, the Redis client) either answers or throws.  The service
    never inspects what it catches: it logs it and rethrows it, so an error
    is an opaque value that travels unchanged from the collaborator to the
    caller.
 */
module Wrappers {

  /** Whatever a collaborator threw; only ever passed along. */
  datatype Error = Error(message: string)

  datatype Option<+T> = None | Some(value: T)

  /** The answer of an awaited call: a value, or the error it threw.
      `Result<()>` is a call that only succeeds or fails. */
  datatype Result<+T> = Ok(value: T) | Err(error: Error)
}
