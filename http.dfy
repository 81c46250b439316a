/** The route handlers' responses: a JSON body with the default status 200,
    or an `{ error }` body with an error status. */
module Http {

  datatype Response<T> = Ok(body: T) | Fail(status: int, error: string)

  const BadRequest := 400
  const Unauthorized := 401
  const ServerError := 500

  const UnauthorizedMessage := "Unauthorized"
  const ServerErrorMessage := "Internal server error"
}
