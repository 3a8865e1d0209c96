/** The fixed table of canned event payloads, keyed by event type. */
module Templates {
  import opened Wrappers
  import opened Json

  datatype Template = Template(name: string, payload: Json)

  /** The three `new Date().toISOString()` values taken when the table is built
      at load time; they are inputs to the model, not computed by it. */
  datatype LoadStamps = LoadStamps(userLogin: string, userLoginFailure: string, accountCreated: string)

  const TemplateKeys: set<string> := {"userLogin", "userLoginFailure", "accountCreated"}

  /** The template table the `/templates` endpoint returns in full. */
  function EventTemplates(stamps: LoadStamps): (r: map<string, Template>)
    ensures r.Keys == TemplateKeys
    ensures forall k :: k in r ==> r[k].payload.JObj? && "eventType" in r[k].payload.fields && "timestamp" in r[k].payload.fields
    ensures r["userLogin"].payload.fields["timestamp"] == JStr(stamps.userLogin)
    ensures r["userLoginFailure"].payload.fields["timestamp"] == JStr(stamps.userLoginFailure)
    ensures r["accountCreated"].payload.fields["timestamp"] == JStr(stamps.accountCreated)
  {
    map[
      "userLogin" := Template("User Login Success", JObj(map[
        "eventType" := JStr("user.login"),
        "userId" := JStr("user_123"),
        "email" := JStr("user@example.com"),
        "timestamp" := JStr(stamps.userLogin),
        "success" := JBool(true),
        "ipAddress" := JStr("192.168.1.1"),
        "userAgent" := JStr("Mozilla/5.0...")])),
      "userLoginFailure" := Template("User Login Failure", JObj(map[
        "eventType" := JStr("user.login.failed"),
        "email" := JStr("user@example.com"),
        "reason" := JStr("invalid_password"),
        "timestamp" := JStr(stamps.userLoginFailure),
        "attemptCount" := JNum(3.0),
        "ipAddress" := JStr("192.168.1.1")])),
      "accountCreated" := Template("Account Created", JObj(map[
        "eventType" := JStr("account.created"),
        "userId" := JStr("user_456"),
        "email" := JStr("newuser@example.com"),
        "plan" := JStr("free"),
        "timestamp" := JStr(stamps.accountCreated),
        "source" := JStr("signup")]))
    ]
  }

  /** `eventType && eventTemplates[eventType] ? eventTemplates[eventType].payload : none`.
      Only string event types are looked up; a key outside the table (including an
      inherited property such as `toString`, whose `.payload` is `undefined`) finds nothing. */
  function LookupPayload(stamps: LoadStamps, eventType: Option<Json>): (r: Option<Json>)
    ensures r.Some? <==> eventType.Some? && eventType.value.JStr? && eventType.value.s in TemplateKeys
    ensures r.Some? ==> r.value == EventTemplates(stamps)[eventType.value.s].payload
    ensures r.Some? ==> Truthy(r)
  {
    if Truthy(eventType) && eventType.value.JStr? && eventType.value.s in EventTemplates(stamps) then
      Some(EventTemplates(stamps)[eventType.value.s].payload)
    else
      None
  }

  /** The event type a template announces in its payload, for each key. */
  lemma TemplateEventTypes(stamps: LoadStamps)
    ensures EventTemplates(stamps)["userLogin"].payload.fields["eventType"] == JStr("user.login")
    ensures EventTemplates(stamps)["userLoginFailure"].payload.fields["eventType"] == JStr("user.login.failed")
    ensures EventTemplates(stamps)["accountCreated"].payload.fields["eventType"] == JStr("account.created")
  {
  }
}
