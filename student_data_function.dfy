/**
 * netlify/functions/studentData.js: the endpoint the sync store talks to.
 * It keeps nothing between invocations: GET answers an empty state stamped
 * with the current time, POST stamps the payload and acknowledges that
 * stamp, and the acknowledgement is what the client adopts as its
 * timestamp.
 */
module StudentDataFunction {
  import opened JsValues
  import opened Http

  const Headers: map<string, string> := map[
    "Access-Control-Allow-Origin" := "*",
    "Access-Control-Allow-Headers" := "Content-Type",
    "Content-Type" := "application/json"]

  /** The `data` object each invocation starts from. */
  function FreshData(now: nat): Record {
    map["students" := List([]), "classes" := List([]), "timestamp" := Num(now)]
  }

  /** `{...payload, timestamp: Date.now()}` */
  function Stamped(payload: Record, now: nat): (r: Record)
    ensures Get(r, "timestamp") == Num(now)
    ensures forall k :: k != "timestamp" ==> Get(r, k) == Get(payload, k)
  {
    Spread(payload, map["timestamp" := Num(now)])
  }

  /**
   * The handler. `body` is the parsed request body, None when `JSON.parse`
   * throws on it (a null body parses to null, which spreads as an empty
   * object); `now` is `Date.now()`.
   */
  function Handle(httpMethod: string, body: Option<Record>, now: nat): (r: Response)
    ensures r.headers == Headers
    ensures r.body.None? <==> httpMethod == "OPTIONS"
    ensures httpMethod == "OPTIONS" ==> r.statusCode == 200
    ensures httpMethod == "GET" ==> r == Response(200, Headers, Some(JsonBody(FreshData(now))))
    ensures httpMethod == "POST" && body.Some? ==>
      r == Response(200, Headers, Some(JsonBody(map["success" := Bool(true),
                                                     "timestamp" := Get(Stamped(body.value, now), "timestamp")])))
    ensures httpMethod == "POST" && body.None? ==>
      r == Response(500, Headers, Some(ErrorBody("Internal server error")))
    ensures httpMethod !in {"OPTIONS", "GET", "POST"} ==>
      r == Response(405, Headers, Some(ErrorBody("Method not allowed")))
  {
    if httpMethod == "OPTIONS" then Response(200, Headers, None)
    else
      var data := FreshData(now);
      if httpMethod == "GET" then Response(200, Headers, Some(JsonBody(data)))
      else if httpMethod == "POST" then
        match body
        case None => Response(500, Headers, Some(ErrorBody("Internal server error")))
        case Some(payload) =>
          var stored := Stamped(payload, now);
          Response(200, Headers, Some(JsonBody(map["success" := Bool(true),
                                                   "timestamp" := Get(stored, "timestamp")])))
      else Response(405, Headers, Some(ErrorBody("Method not allowed")))
  }

  /** The acknowledgement carries the invocation's clock reading. */
  lemma PostAcknowledgesNow(payload: Record, now: nat)
    ensures var r := Handle("POST", Some(payload), now);
      r.statusCode == 200 && r.body.Some? && r.body.value.JsonBody?
      && Get(r.body.value.json, "timestamp") == Num(now)
      && Get(r.body.value.json, "success") == Bool(true)
  {
  }

  /** Nothing a POST sends is visible to a later GET: both lists stay empty. */
  lemma NothingPersists(payload: Record, t1: nat, t2: nat)
    ensures Handle("POST", Some(payload), t1).statusCode == 200
    ensures var g := Handle("GET", None, t2);
      g.body == Some(JsonBody(FreshData(t2)))
      && Get(FreshData(t2), "students") == List([])
      && Get(FreshData(t2), "classes") == List([])
  {
  }
}
