/** Failure-compatible wrappers shared by the whole model. */
module Wrappers {

  /** A value that may be absent: `null`/`undefined` on the TypeScript side. */
  datatype Option<+T> = None | Some(value: T)

  /** The outcome of an operation that may throw. */
  datatype Result<+T, +E> = Success(value: T) | Failure(error: E)
}

/** The exceptions the user module throws or catches. */
module Exceptions {

  /**
   * `BadRequestException` and `NotFoundException` of @nestjs/common, and a plain
   * `Error` thrown by a collaborator (the token signer).
   */
  datatype Exception =
    | BadRequest(message: string)
    | NotFound(message: string)
    | Error(message: string)
}
