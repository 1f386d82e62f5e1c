/**
 * The global error handler: the status code and message answered for an
 * exception no handler caught.
 */
module ErrorHandler {
  import opened Values
  import opened Http

  predicate IsValidStatusCode(status: int) {
    100 <= status < 600
  }

  /**
   * `getStatusCode`: the error's own status when it has a valid one, 500
   * otherwise.
   */
  function GetStatusCode(err: Thrown): (code: int)
    ensures IsValidStatusCode(code)
    ensures err.HttpError? && IsValidStatusCode(err.code) ==> code == err.code
    ensures err.PlainError? && err.statusField.Some? && IsValidStatusCode(err.statusField.value) ==>
              code == err.statusField.value
    ensures code != 500 ==>
              (err.HttpError? && code == err.code) || (err.PlainError? && err.statusField == Some(code))
  {
    match err
    case HttpError(_, _, _, status) =>
      if IsValidStatusCode(status) then status else 500
    case PlainError(_, _, _, statusField) =>
      if statusField.Some? then
        if IsValidStatusCode(statusField.value) then statusField.value else 500
      else 500
    case NonError(_) => 500
  }

  /** The message `globalErrorHandler` answers with. */
  function HandlerMessage(err: Thrown): (m: string)
    ensures err.IsError() ==> m == err.message
    ensures !err.IsError() ==> m == "Internal server error"
  {
    if err.IsError() then err.message else "Internal server error"
  }

  /** `globalErrorHandler`: a `{message}` payload under the chosen status. */
  function GlobalErrorHandler(err: Thrown): (r: Response)
    ensures IsValidStatusCode(r.status) && r.status == GetStatusCode(err)
    ensures r.body.JObj? && r.body.fields.Keys == {"message"}
    ensures r.body.fields["message"] == JStr(HandlerMessage(err))
  {
    JsonError(GetStatusCode(err), HandlerMessage(err), None)
  }

  /** The handler's message differs from `getErrorMessage` only for non-`Error` values. */
  lemma HandlerMessageAgreesForErrors(err: Thrown)
    ensures HandlerMessage(err) == GetErrorMessage(err) <==> err.IsError()
  {
  }
}
