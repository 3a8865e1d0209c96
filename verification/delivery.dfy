/** The outcome of one outbound POST and the record built from it. */
module Delivery {
  import opened Wrappers
  import opened Slices
  import opened Json

  const ResponseLimit: nat := 1000

  /** What the HTTP client reports: a completed exchange with any status code and its
      body, or an error thrown by the request or while reading the body. */
  datatype FetchOutcome =
    | Answered(status: int, statusText: string, body: string)
    | TransportError(message: string)

  /** One history record. `Delivered` has no `error`; `Undelivered` has no
      `status`, `statusText` or `response`. */
  datatype DeliveryResult =
    | Delivered(status: int, statusText: string, responseTime: int, timestamp: string,
                url: Json, payload: Json, response: string)
    | Undelivered(error: string, responseTime: int, timestamp: string, url: Json, payload: Json)
  {
    predicate Success() { Delivered? }
  }

  /** `responseText.slice(0, 1000)`. */
  function TruncateResponse(body: string): (r: string)
    ensures |r| == Min(|body|, ResponseLimit)
    ensures r == body[..|r|]
    ensures |body| <= ResponseLimit ==> r == body
  {
    TakeFirst(body, ResponseLimit)
  }

  /** The record for one attempt; `start` and `finish` are the two `Date.now()`
      readings and `timestamp` the ISO time taken after the exchange. */
  function BuildResult(outcome: FetchOutcome, url: Json, payload: Json,
                       start: int, finish: int, timestamp: string): (r: DeliveryResult)
    ensures r.Success() <==> outcome.Answered?
    ensures r.url == url && r.payload == payload
    ensures r.responseTime == finish - start && r.timestamp == timestamp
    ensures outcome.Answered? ==>
      r.status == outcome.status && r.statusText == outcome.statusText &&
      |r.response| == Min(|outcome.body|, ResponseLimit) && r.response == outcome.body[..|r.response|]
    ensures outcome.TransportError? ==> r.error == outcome.message
  {
    match outcome
    case Answered(status, statusText, body) =>
      Delivered(status, statusText, finish - start, timestamp, url, payload, TruncateResponse(body))
    case TransportError(message) =>
      Undelivered(message, finish - start, timestamp, url, payload)
  }

  const DeliveredKeys: set<string> :=
    {"success", "status", "statusText", "responseTime", "timestamp", "url", "payload", "response"}
  const UndeliveredKeys: set<string> :=
    {"success", "error", "responseTime", "timestamp", "url", "payload"}

  function Num(i: int): Json { JNum(i as real) }

  /** The JSON object the record is sent and stored as. */
  function ToJson(r: DeliveryResult): (j: Json)
    ensures j.JObj?
    ensures j.fields.Keys == if r.Success() then DeliveredKeys else UndeliveredKeys
    ensures j.fields["success"] == JBool(r.Success())
  {
    match r
    case Delivered(status, statusText, responseTime, timestamp, url, payload, response) =>
      JObj(map[
        "success" := JBool(true),
        "status" := Num(status),
        "statusText" := JStr(statusText),
        "responseTime" := Num(responseTime),
        "timestamp" := JStr(timestamp),
        "url" := url,
        "payload" := payload,
        "response" := JStr(response)])
    case Undelivered(error, responseTime, timestamp, url, payload) =>
      JObj(map[
        "success" := JBool(false),
        "error" := JStr(error),
        "responseTime" := Num(responseTime),
        "timestamp" := JStr(timestamp),
        "url" := url,
        "payload" := payload])
  }

  function AsInt(j: Json): Option<int> {
    if j.JNum? && j.n == j.n.Floor as real then Some(j.n.Floor) else None
  }

  function AsString(j: Json): Option<string> {
    if j.JStr? then Some(j.s) else None
  }

  /** Reads a stored history entry back as a record, when it has one of the two shapes. */
  function FromJson(j: Json): Option<DeliveryResult> {
    if !j.JObj? then None
    else
      var m := j.fields;
      if m.Keys == DeliveredKeys && m["success"] == JBool(true)
         && AsInt(m["status"]).Some? && AsString(m["statusText"]).Some?
         && AsInt(m["responseTime"]).Some? && AsString(m["timestamp"]).Some?
         && AsString(m["response"]).Some?
      then
        Some(Delivered(AsInt(m["status"]).value, AsString(m["statusText"]).value,
                       AsInt(m["responseTime"]).value, AsString(m["timestamp"]).value,
                       m["url"], m["payload"], AsString(m["response"]).value))
      else if m.Keys == UndeliveredKeys && m["success"] == JBool(false)
         && AsString(m["error"]).Some? && AsInt(m["responseTime"]).Some?
         && AsString(m["timestamp"]).Some?
      then
        Some(Undelivered(AsString(m["error"]).value, AsInt(m["responseTime"]).value,
                         AsString(m["timestamp"]).value, m["url"], m["payload"]))
      else None
  }

  /** A stored record reads back as itself. */
  lemma FromJsonToJson(r: DeliveryResult)
    ensures FromJson(ToJson(r)) == Some(r)
  {
  }
}
