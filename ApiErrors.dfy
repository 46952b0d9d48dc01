/**
 * The errors the handlers branch on: the store's sentinel errors of the data
 * package, and the error responses of the api package (its responder helpers
 * are not part of this model, so each response is named, not spelled out).
 */
module ApiErrors {

  /** data.ErrRecordNotFound, data.ErrEditConflict, or any other store failure. */
  datatype StoreError = RecordNotFound | EditConflict | OtherStoreError(message: string)

  datatype ErrorResponse =
    | NotFound
    | MethodNotAllowed
    | ServerError
    | BadRequest(message: string)
    | FailedValidation(errors: map<string, string>)
    | EditConflictResponse
    | RateLimitExceeded
    | InvalidCredentials
    | InvalidAuthenticationToken
    | AuthenticationRequired
    | InactiveAccount
    | NotPermitted

  /** What a handler sends: an error response, or a JSON envelope with a status. */
  datatype Response<+B> = Error(error: ErrorResponse) | Json(status: int, body: B)
}
