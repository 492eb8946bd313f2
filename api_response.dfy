/**
 * The response envelope every endpoint answers with: a success flag and
 * either the payload or an error body.
 */
module ApiResponses {
  import opened Common

  /** The error body: a code, a message and optional per-field details. */
  datatype ErrorResponse = ErrorResponse(code: string, message: string, details: Option<map<string, string>>)

  datatype ApiResponse<T> = ApiResponse(success: bool, data: Option<T>, error: Option<ErrorResponse>)

  /**
   * What every factory guarantees: a successful envelope carries no error,
   * and a failed one carries no payload.
   */
  predicate WellFormed<T>(r: ApiResponse<T>)
  {
    (r.success ==> r.error.None?) && (!r.success ==> r.data.None?)
  }

  /** `success(data)`: the payload as given (possibly null), no error. */
  function SuccessWith<T>(data: Option<T>): (r: ApiResponse<T>)
    ensures r.success && r.data == data && r.error == None
    ensures WellFormed(r)
  {
    ApiResponse(true, data, None)
  }

  /** `success()`: neither payload nor error. */
  function SuccessEmpty<T>(): (r: ApiResponse<T>)
    ensures r.success && r.data == None && r.error == None
    ensures WellFormed(r)
  {
    ApiResponse(true, None, None)
  }

  /** `error(e)`: the error body as given (possibly null), no payload. */
  function ErrorWith<T>(e: Option<ErrorResponse>): (r: ApiResponse<T>)
    ensures !r.success && r.data == None && r.error == e
    ensures WellFormed(r)
  {
    ApiResponse(false, None, e)
  }

  /** `error(code, message)`: an error body with those fields and no details. */
  function ErrorOf<T>(code: string, message: string): (r: ApiResponse<T>)
    ensures !r.success && r.data == None
    ensures r.error == Some(ErrorResponse(code, message, None))
    ensures WellFormed(r)
  {
    ErrorWith(Some(ErrorResponse(code, message, None)))
  }

  /** Success and failure envelopes never coincide, whatever their contents. */
  lemma SuccessAndErrorDiffer<T>(data: Option<T>, e: Option<ErrorResponse>, code: string, message: string)
    ensures SuccessWith(data) != ErrorWith<T>(e)
    ensures SuccessEmpty<T>() != ErrorOf<T>(code, message)
  {
  }
}
