/**
 * The sync store talking to the studentData function: what the client
 * reads out of the function's replies, and what that makes reconciliation
 * do against a function that keeps nothing between invocations.
 */
module Protocol {
  import opened JsValues
  import opened SyncModel
  import opened Http
  import opened StudentDataFunction
  import opened DataSync

  /** `result.timestamp` of a POST reply, when it is a number. */
  function ReadAck(json: Record): (r: Option<Ack>)
    ensures r.Some? <==> Get(json, "timestamp").Num?
    ensures r.Some? ==> Get(json, "timestamp") == Num(r.value.timestamp)
  {
    match Get(json, "timestamp")
    case Num(n) => Some(Ack(n))
    case _ => None
  }

  /**
   * The state the model reads out of a GET reply: nothing unless the
   * status is OK (2xx) and the body is a JSON object of the state's shape.
   * The client itself uses any OK body as it is; bodies of another shape
   * are outside the model.
   */
  function ReadState(resp: Response): (r: Option<SyncState>)
    ensures r.Some? <==>
      && 200 <= resp.statusCode < 300 && resp.body.Some? && resp.body.value.JsonBody?
      && FromObject(resp.body.value.json).Some?
    ensures r.Some? ==> Get(resp.body.value.json, "timestamp") == Num(r.value.timestamp)
  {
    if 200 <= resp.statusCode < 300 && resp.body.Some? && resp.body.value.JsonBody? then
      FromObject(resp.body.value.json)
    else None
  }

  /** A GET always reads as the empty state stamped with the function's clock. */
  lemma GetReadsEmpty(now: nat)
    ensures ReadState(StudentDataFunction.Handle("GET", None, now)) == Some(SyncState([], [], now, None))
  {
    var o := FreshData(now);
    assert Get(o, "students") == List([]);
    assert Get(o, "classes") == List([]);
    assert Get(o, "systemMode") == Undefined;
    assert ValueRecords(List([])) == Some([]);
  }

  /**
   * Fetching from the function replaces local data by empty lists whenever
   * the local timestamp is falsy or older than the function's clock.
   */
  lemma FetchFromStubWipes(d: SyncState, now: nat)
    requires d.timestamp == 0 || d.timestamp < now
    ensures var server := ReadState(StudentDataFunction.Handle("GET", None, now)).value;
      && Fetched(d, server).students == []
      && Fetched(d, server).classes == []
      && Fetched(d, server).timestamp == now
  {
    GetReadsEmpty(now);
  }

  /**
   * A push of state `d` is acknowledged with the function's clock, and the
   * client's state after adopting it is the object the function stamped.
   */
  lemma PushAdoptsStamp(d: SyncState, now: nat)
    ensures var resp := StudentDataFunction.Handle("POST", Some(ToObject(d)), now);
      && resp.statusCode == 200
      && ReadAck(resp.body.value.json) == Some(Ack(now))
      && ToObject(Pushed(d, Ack(now))) == Stamped(ToObject(d), now)
  {
    var lhs := ToObject(Pushed(d, Ack(now)));
    var rhs := Stamped(ToObject(d), now);
    ToObjectAt(d);
    ToObjectAt(Pushed(d, Ack(now)));
    SameByGet(lhs, rhs);
  }
}
