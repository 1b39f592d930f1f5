/**
 * netlify/functions/data.js: a second endpoint that serves the value of
 * the STORED_DATA environment variable and acknowledges POSTs without
 * storing them.
 */
module DataFunction {
  import opened JsValues
  import opened Http

  const Headers: map<string, string> := map[
    "Access-Control-Allow-Origin" := "*",
    "Access-Control-Allow-Headers" := "Content-Type",
    "Access-Control-Allow-Methods" := "GET, POST, OPTIONS"]

  const DefaultStoredData := "{\"students\":[],\"classes\":[]}"

  /** `process.env.STORED_DATA || default`: None when the variable is unset. */
  function StoredData(env: Option<string>): (s: string)
    ensures s != ""
    ensures env.Some? && env.value != "" ==> s == env.value
  {
    if env.Some? && env.value != "" then env.value else DefaultStoredData
  }

  /**
   * The handler. `env` is STORED_DATA; `context` is the invocation's
   * second argument, whose `clientContext` the POST branch reads, so a
   * null or undefined context makes that branch throw.
   */
  function Handle(httpMethod: string, env: Option<string>, context: Value): (r: Response)
    ensures r.statusCode == 500 <==> httpMethod == "POST" && Nullish(context)
    ensures r.statusCode == 500 ==> r.headers == map[] && r.body.Some? && r.body.value.JsonBody?
    ensures r.statusCode != 500 ==> r.headers == Headers
    ensures r.body.None? <==> httpMethod == "OPTIONS"
    ensures httpMethod == "OPTIONS" || httpMethod == "GET" ==> r.statusCode == 200
    ensures httpMethod == "GET" ==> r.body == Some(RawBody(StoredData(env)))
    ensures httpMethod == "POST" && !Nullish(context) ==>
      r == Response(200, Headers, Some(JsonBody(map["success" := Bool(true), "message" := Str("Data received")])))
    ensures httpMethod !in {"OPTIONS", "GET", "POST"} ==>
      r == Response(405, Headers, Some(ErrorBody("Method not allowed")))
  {
    if httpMethod == "OPTIONS" then Response(200, Headers, None)
    else
      var storedData := StoredData(env);
      if httpMethod == "GET" then Response(200, Headers, Some(RawBody(storedData)))
      else if httpMethod == "POST" then
        if Nullish(context) then
          Response(500, map[], Some(ErrorBody(ClientContextError(context))))
        else
          Response(200, Headers, Some(JsonBody(map["success" := Bool(true), "message" := Str("Data received")])))
      else Response(405, Headers, Some(ErrorBody("Method not allowed")))
  }

  /** The `error.message` of reading `clientContext` off a nullish context. */
  function ClientContextError(context: Value): string
    requires Nullish(context)
  {
    "Cannot read properties of " + (if context == Null then "null" else "undefined")
    + " (reading 'clientContext')"
  }

  /** A POST is acknowledged without a timestamp and without changing what GET serves. */
  lemma PostStoresNothing(env: Option<string>, context: Value)
    requires !Nullish(context)
    ensures var r := Handle("POST", env, context);
      r.statusCode == 200 && "timestamp" !in r.body.value.json
    ensures Handle("GET", env, context) == Handle("GET", env, Null)
  {
  }
}
