/** The shape of a serverless function's reply. */
module Http {
  import opened JsValues

  /** A JSON body the function stringifies, or a string it returns as is. */
  datatype Body = JsonBody(json: Record) | RawBody(text: string)

  /** `{ statusCode, headers, body }`; a missing `headers` is the empty map. */
  datatype Response = Response(statusCode: nat, headers: map<string, string>, body: Option<Body>)

  function ErrorBody(message: string): Body {
    JsonBody(map["error" := Str(message)])
  }
}
