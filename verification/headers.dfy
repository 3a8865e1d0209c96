/** The header object handed to the outbound POST. */
module Headers {
  import opened Wrappers
  import opened Json

  const ContentType: string := "Content-Type"
  const UserAgent: string := "User-Agent"

  const DefaultHeaders: map<string, Json> :=
    map[ContentType := JStr("application/json"), UserAgent := JStr("Webhook-Playground/1.0")]

  /** `customHeaders && typeof customHeaders === 'object' ? customHeaders : {}`, as
      object spread copies it: an object's own keys, an array's index keys, and
      nothing for `null`, `undefined` or any primitive. */
  function CallerHeaders(custom: Option<Json>): (r: map<string, Json>)
    ensures !(Truthy(custom) && IsObjectType(custom)) ==> r == map[]
    ensures custom.Some? && custom.value.JObj? ==> r == custom.value.fields
    ensures custom.Some? && custom.value.JArr? ==>
      forall i :: 0 <= i < |custom.value.items| ==> IndexKey(i) in r && r[IndexKey(i)] == custom.value.items[i]
    ensures custom.Some? && custom.value.JArr? ==> r.Keys == set i | 0 <= i < |custom.value.items| :: IndexKey(i)
  {
    if Truthy(custom) && IsObjectType(custom) then
      match custom.value
      case JObj(fields) => fields
      case JArr(items) => SpreadArray(items)
      case _ => map[]
    else
      map[]
  }

  /** The two defaults with the caller's headers spread over them. Keys are compared
      exactly: `content-type` does not replace `Content-Type`. */
  function MergeHeaders(custom: Option<Json>): (r: map<string, Json>)
    ensures r.Keys == DefaultHeaders.Keys + CallerHeaders(custom).Keys
    ensures forall k :: k in CallerHeaders(custom) ==> r[k] == CallerHeaders(custom)[k]
    ensures forall k :: k in DefaultHeaders && k !in CallerHeaders(custom) ==> r[k] == DefaultHeaders[k]
  {
    DefaultHeaders + CallerHeaders(custom)
  }

  /** Each default survives exactly when the caller supplies no key of that exact name,
      and a caller-supplied key always carries the caller's value. */
  lemma DefaultsSurvive(custom: Option<Json>)
    ensures ContentType !in CallerHeaders(custom) ==> MergeHeaders(custom)[ContentType] == JStr("application/json")
    ensures UserAgent !in CallerHeaders(custom) ==> MergeHeaders(custom)[UserAgent] == JStr("Webhook-Playground/1.0")
    ensures forall k :: k in CallerHeaders(custom) ==> k in MergeHeaders(custom) && MergeHeaders(custom)[k] == CallerHeaders(custom)[k]
  {
  }

  /** A `customHeaders` value that is not a truthy object changes nothing. */
  lemma NonObjectHeadersIgnored(custom: Option<Json>)
    requires !(custom.Some? && (custom.value.JObj? || custom.value.JArr?))
    ensures MergeHeaders(custom) == DefaultHeaders
  {
  }
}
