/** Types shared by the services: the role enum of the user table and the
    exceptions that cross service boundaries. */
module Domain {
  /** The role column of the user table. */
  datatype Role = CUSTOMER | ADMIN

  /** The exceptions the services throw, by class. The model returns them in
      a `Result` instead of throwing them. */
  datatype Exception =
    | KnownRequestError(code: string)        // Prisma.PrismaClientKnownRequestError
    | SigningError(message: string)          // thrown by the JWT signer
    | Conflict(message: string)              // ConflictException, HTTP 409
    | Unauthorized(message: string)          // UnauthorizedException, HTTP 401
    | NotFound(message: string)              // NotFoundException, HTTP 404
    | InternalServerError(message: string)   // InternalServerErrorException, HTTP 500
    | GenericError(message: string)          // a plain `new Error(...)`

  /** Prisma's code for a unique-constraint violation. */
  const UniqueConstraintFailed := "P2002"
  /** Prisma's code for an update whose `where` matches no row. */
  const RecordNotFound := "P2025"
  /** What the JWT signer throws when no (or an empty) secret is configured. */
  const MissingSecret := "secretOrPrivateKey must have a value"
}
