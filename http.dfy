/**
 * What an endpoint hands back to FastAPI: a value, or an `HTTPException`
 * with its status code and detail text.
 */
module Http {

  datatype HttpError = HttpError(status: int, detail: string)

  datatype Response<+T> = Ok(value: T) | Fail(error: HttpError) {
    predicate IsFailure() { Fail? }

    function PropagateFailure<U>(): Response<U>
      requires Fail?
    {
      Fail(error)
    }

    function Extract(): T
      requires Ok?
    {
      value
    }
  }

  const BadRequest := 400
  const Unauthorized := 401
  const NotFound := 404
  const UnprocessableEntity := 422
  const InternalServerError := 500
}
