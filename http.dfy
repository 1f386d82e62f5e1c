/**
 * HTTP helpers: the message of a caught value, the JSON error payload, and
 * the tagged result of reading a JSON request body.
 */
module Http {
  import opened Values

  /** A JSON response: its status code and its body. */
  datatype Response = Response(status: int, body: Json)

  /** `c.json(body)`, which answers 200. */
  function JsonBody(body: Json): Response {
    Response(200, body)
  }

  /** `getErrorMessage` */
  function GetErrorMessage(error: Thrown): (m: string)
    ensures error.IsError() ==> m == error.message
    ensures !error.IsError() ==> m == "Unknown error"
  {
    match error
    case NonError(_) => "Unknown error"
    case _ => error.message
  }

  /** `jsonError(c, status, message, details)`; `details` None is `undefined`. */
  function JsonError(status: int, message: string, details: Option<Json>): (r: Response)
    ensures r.status == status
    ensures r.body.JObj?
    ensures r.body.fields.Keys <= {"message", "details"}
    ensures "message" in r.body.fields && r.body.fields["message"] == JStr(message)
    ensures "details" in r.body.fields <==> details.Some?
    ensures details.Some? ==> r.body.fields["details"] == details.value
  {
    var payload := map["message" := JStr(message)];
    Response(status, JObj(if details.Some? then payload["details" := details.value] else payload))
  }

  /** The result of `parseJsonBody`: `{ok: true, data}` or `{ok: false, response}`. */
  datatype ParsedBody = Parsed(data: Json) | Unparsable(response: Response)

  /**
   * `parseJsonBody`; `parse` plays `JSON.parse` and answers None where it
   * would throw.
   */
  function ParseJsonBody(body: string, parse: string -> Option<Json>): (r: ParsedBody)
    ensures r.Parsed? <==> parse(body).Some?
    ensures r.Parsed? ==> r.data == parse(body).value
    ensures r.Unparsable? ==> r.response.status == 400 && r.response == JsonError(400, "Invalid JSON body", None)
  {
    match parse(body)
    case Some(data) => Parsed(data)
    case None => Unparsable(JsonError(400, "Invalid JSON body", None))
  }
}
