/** Values shared by every part of the users service: optional values, results
    carrying a NestJS HTTP exception, the principal attached to a request, and
    the four personnel tables of the database. */
module Common {

  datatype Option<T> = None | Some(value: T)

  /** An HTTP exception as NestJS throws it: its class name, status code and message. */
  datatype HttpError = HttpError(className: string, status: int, message: string)

  /** The success value of an operation, or the HTTP exception it throws. */
  datatype Result<T> = Ok(value: T) | Err(error: HttpError)

  function Unauthorized(message: string): HttpError { HttpError("UnauthorizedException", 401, message) }
  function Forbidden(message: string): HttpError { HttpError("ForbiddenException", 403, message) }
  function NotFound(message: string): HttpError { HttpError("NotFoundException", 404, message) }
  function BadRequest(message: string): HttpError { HttpError("BadRequestException", 400, message) }

  /** The user object `JwtStrategy.validate` returns and passport attaches as `request.user`. */
  datatype Principal = Principal(userId: int, login: string, role: string)

  /** The database tables holding the four personnel categories. */
  datatype Table = MasterTable | DirectorTable | CallcentreAdminTable | CallcentreOperatorTable
}
