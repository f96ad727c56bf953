/** Values shared by every service: optional values, results carrying the
    HTTP exception a NestJS service throws, and JavaScript truthiness of an
    optional string. */
module Common {

  datatype Option<+T> = None | Some(value: T)

  /** The exceptions the services throw, each with its message. */
  datatype HttpError =
    | BadRequest(message: string)     // BadRequestException
    | Unauthorized(message: string)   // UnauthorizedException
    | NotFound(message: string)       // NotFoundException
    | Conflict(message: string)       // ConflictException
    | QueryFailed(message: string)    // the database rejected a save (unique column)
    | TypeError(message: string)      // a JavaScript runtime error

  datatype Result<+T> = Ok(value: T) | Err(error: HttpError) {
    predicate IsFailure() { Err? }
    function PropagateFailure<U>(): Result<U>
      requires Err?
    {
      Err(error)
    }
    function Extract(): T
      requires Ok?
    {
      value
    }
  }

  /** JavaScript truthiness of a value typed `string | undefined`:
      `undefined` and the empty string are falsy. */
  predicate Truthy(s: Option<string>) {
    s.Some? && s.value != ""
  }
}
