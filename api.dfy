/** The frontend's view of failed API calls (frontend/lib/api.ts). */
module Api {
  import opened Wrappers
  import Json

  /** An error body as the client parses it; `errors` is passed along uninterpreted. */
  datatype ErrorResponse = ErrorResponse(code: string, message: string, errors: Option<Json.Value>)

  /** The `Error` the API client throws for a response that is not ok. */
  datatype ApiError = ApiError(message: string, code: string, status: int, errors: Option<Json.Value>)

  const UNEXPECTED_MESSAGE := "An unexpected error occurred"

  /**
   * `handleError`: builds the thrown error from the response status and its
   * parsed body; `None` stands for a body that could not be parsed as JSON.
   */
  function HandleError(status: int, body: Option<ErrorResponse>): (e: ApiError)
    ensures e.status == status
    ensures body.None? ==> e.code == "UNKNOWN_ERROR" && e.message == UNEXPECTED_MESSAGE && e.errors.None?
    ensures body.Some? ==>
      e.code == body.value.code && e.message == body.value.message && e.errors == body.value.errors
  {
    var b := body.GetOr(ErrorResponse("UNKNOWN_ERROR", UNEXPECTED_MESSAGE, None));
    ApiError(b.message, b.code, status, b.errors)
  }

  /** `getErrorMessage`: the user-facing text for an error, chosen by its code. */
  function GetErrorMessage(e: ApiError): (m: string)
    ensures e.code == "UNAUTHORIZED" ==> m == "Please sign in to continue"
    ensures e.code == "NOT_FOUND" ==> m == "Task not found. It may have been deleted."
    ensures e.code == "VALIDATION_ERROR" ==> m == e.message
    ensures e.code == "CONFLICT" ==> m == "An account with this email already exists"
    ensures e.code == "SERVER_ERROR" ==> m == "Something went wrong. Please try again."
    ensures e.code !in {"UNAUTHORIZED", "NOT_FOUND", "VALIDATION_ERROR", "CONFLICT", "SERVER_ERROR"} ==>
      m == UNEXPECTED_MESSAGE
  {
    match e.code
    case "UNAUTHORIZED" => "Please sign in to continue"
    case "NOT_FOUND" => "Task not found. It may have been deleted."
    case "VALIDATION_ERROR" => e.message
    case "CONFLICT" => "An account with this email already exists"
    case "SERVER_ERROR" => "Something went wrong. Please try again."
    case _ => UNEXPECTED_MESSAGE
  }

  /** Only a validation error lets the server's own wording reach the user; every other code shows a fixed text. */
  lemma MessageDependsOnlyOnCode(e1: ApiError, e2: ApiError)
    requires e1.code == e2.code && e1.code != "VALIDATION_ERROR"
    ensures GetErrorMessage(e1) == GetErrorMessage(e2)
  {
  }

  /** A body that could not be parsed is shown as the generic message, whatever the status. */
  lemma UnparseableBodyMessage(status: int)
    ensures GetErrorMessage(HandleError(status, None)) == UNEXPECTED_MESSAGE
  {
  }
}
