# Webhook Playground delivery handler, modelled in Dafny

This project models the request-handling core of the webhook playground backend
(`backend/routes/webhooks.js`). The playground lets a developer POST a canned or
custom JSON payload to a URL and keeps a log of the outcomes. The model covers:

- the fixed table of event templates;
- the `POST /send` handler: URL checks, payload choice, header merge, result construction, and recording the result;
- the bounded history file, with its append path (keep the newest 50) and its `GET /history` read path (the newest 10, newest first).

Everything is a pure function over immutable values. The outside world is an
input: the URL parser's verdict, the HTTP client's outcome, the clocks, the
timestamps and whether a file write succeeds.

Modules, one per file:

- `Wrappers`: `Option` (also JavaScript's `undefined`) and `Result`.
- `Slices`: `slice(-n)`, `slice(0, n)` and `reverse()` on sequences.
- `Json`: JSON values, JavaScript truthiness, `typeof … === 'object'`, and the index keys an array spreads into.
- `Templates`: the `eventTemplates` table and its lookup.
- `History`: the file state (`Absent | Corrupt | Stored(json)`), `Append`, `View`, `Load`, `Save`, `Recent`.
- `Headers`: the default headers and the caller's headers spread over them.
- `Delivery`: the HTTP client's outcome, the `DeliveryResult` record, the 1000-character cut, and the record's JSON shape.
- `Webhooks`: the request, the four rejections, `Respond`, `Send`, and runs of many sends.

How the code's behaviour appears in the model:

- A `Reply` of `Rejected(msg)` is the 400 reply `{error: msg}`. `Accepted(result)` is the 200 reply.
- `GET /templates` returns `Templates.EventTemplates`.
- `GET /history` returns `History.Recent`.
- A history file that holds valid JSON that is not an array behaves as the code does: `history.push` throws, the outer `catch` swallows the error, and the file is left as it was. The read path returns `[]` for such a file.
- An array given as `customHeaders` passes the `typeof === 'object'` test. Spreading it contributes the keys `"0"`, `"1"`, … . `null` is an object by `typeof` but is falsy, so it is ignored.
- A string `eventType` naming an inherited property (`toString`, `__proto__`) finds an object without a `payload`. It therefore ends as "No payload provided", the same as an unknown key. The model treats such a key as not in the table.

- A parsed URL whose protocol is neither `http:` nor `https:` is rejected with the message `URL must use HTTP or HTTPS` (webhooks.js:83).

## Model

| member | source | states |
|---|---|---|
| Slices.TakeLast | backend/routes/webhooks.js:61 | `slice(-n)`, for the positive `n` the handlers pass, gives a suffix of length `min(|s|, n)` |
| Slices.TakeFirst | backend/routes/webhooks.js:127 | `slice(0, n)` gives a prefix of length `min(|s|, n)`, and the whole sequence when it is no longer than `n` |
| Slices.Reverse | backend/routes/webhooks.js:163 | element `i` of the reversal is element `|s|-1-i` of the input, and the length is kept |
| Slices.TakeLastAbsorbs | backend/routes/webhooks.js:57-62 | trimming to the newest `n` before appending and again after gives the same window as trimming once at the end |
| Json.Truthy | backend/routes/webhooks.js:75-108 | `null`, `false`, `0`, `""` and `undefined` are falsy, every other JSON value is truthy; this decides the url check, the payload fallback and the header spread |
| Json.IsObjectType | backend/routes/webhooks.js:108 | `typeof` is `'object'` for `null`, arrays and objects, and for nothing else |
| Json.IndexKey | backend/routes/webhooks.js:108 | an array index's property key is a non-empty digit string with no leading zero, one digit exactly for indices below 10 |
| Json.IndexKeyRoundTrip | backend/routes/webhooks.js:108 | reading an index key as a decimal number gives back the index |
| Json.IndexKeyInjective | backend/routes/webhooks.js:108 | distinct array indices spread to distinct header keys |
| Json.SpreadArray | backend/routes/webhooks.js:108 | spreading an array gives exactly its index keys, each carrying that element |
| Templates.EventTemplates | backend/routes/webhooks.js:7-42 | the table has exactly the keys `userLogin`, `userLoginFailure` and `accountCreated`; each payload is an object with an `eventType` and its own load-time `timestamp` |
| Templates.LookupPayload | backend/routes/webhooks.js:91-93 | a payload is found exactly when `eventType` is a string among the three keys; it is that template's payload, and it is truthy |
| Templates.TemplateEventTypes | backend/routes/webhooks.js:7-42 | the three templates announce `user.login`, `user.login.failed` and `account.created` |
| History.Append | backend/routes/webhooks.js:57-62 | after an append the log has `min(|old|+1, 50)` entries, is a suffix of `old + [entry]`, and ends with the new entry |
| History.View | backend/routes/webhooks.js:163 | the view has `min(|h|, 10)` entries and entry `i` is `h[|h|-1-i]`, newest first |
| History.Load | backend/routes/webhooks.js:48-57 | the append path starts from an empty log when the file is missing or unreadable, from the stored array when there is one, and fails when the file holds a non-array |
| History.Save | backend/routes/webhooks.js:45-68 | a successful write of a loadable file reads back as the appended log; a failed write or a non-array file leaves the file unchanged |
| History.Recent | backend/routes/webhooks.js:156-168 | `/history` returns `min(|h|, 10)` entries, newest first, for a stored array, and `[]` for a missing, unreadable or non-array file |
| History.RecentSeesLoad | backend/routes/webhooks.js:158-166 | the read path sees the same array the append path starts from |
| History.AppendIsTakeLast | backend/routes/webhooks.js:57-62 | one append leaves the newest 50 of the old log followed by the new entry |
| History.AppendEachKeepsNewest | backend/routes/webhooks.js:57-62 | after one or more appends the log is the newest 50 of everything appended, in order |
| History.AppendEachBounds | backend/routes/webhooks.js:57-62 | from an empty log, `n` appends leave `min(n, 50)` entries, and the view lists `min(n, 10)` of them, newest first |
| Headers.CallerHeaders | backend/routes/webhooks.js:108 | an object contributes its own keys, an array its index keys, and `null`, `undefined` or any primitive contributes nothing |
| Headers.MergeHeaders | backend/routes/webhooks.js:105-109 | the header keys are the two defaults plus the caller's; a caller key carries the caller's value; a default not named by the caller keeps its value |
| Headers.DefaultsSurvive | backend/routes/webhooks.js:105-109 | `Content-Type: application/json` and `User-Agent: Webhook-Playground/1.0` survive unless the caller supplies that exact key, and every caller header is present with the caller's value |
| Headers.NonObjectHeadersIgnored | backend/routes/webhooks.js:108 | a `customHeaders` that is neither an object nor an array leaves exactly the defaults |
| Delivery.TruncateResponse | backend/routes/webhooks.js:127 | the stored response is the first `min(|body|, 1000)` characters of the body |
| Delivery.BuildResult | backend/routes/webhooks.js:119-139 | success holds exactly for a completed exchange, for any status code; a completed exchange carries status, status text and the cut body; a transport failure carries the error message; both carry url, payload, elapsed time and timestamp |
| Delivery.ToJson | backend/routes/webhooks.js:119-138 | a completed record has the fields `success, status, statusText, responseTime, timestamp, url, payload, response`; a failed one has `success, error, responseTime, timestamp, url, payload`, with no status or response |
| Delivery.FromJsonToJson | backend/routes/webhooks.js:119-138 | every record reads back from its JSON form as itself |
| Webhooks.CheckUrl | backend/routes/webhooks.js:75-87 | a falsy url gives `URL is required`; an unparsable url gives `Invalid URL format`; a protocol other than `http:`/`https:` gives `URL must use HTTP or HTTPS`; anything else passes. Each holds in both directions |
| Webhooks.ResolvePayload | backend/routes/webhooks.js:90-97 | a truthy custom payload is used as it is; otherwise a known template's payload is used; otherwise `No payload provided`, exactly when neither exists; the chosen payload is truthy |
| Webhooks.Respond | backend/routes/webhooks.js:75-139 | a request is rejected exactly when the url or payload checks fail, and url errors come first; nothing is sent exactly when it is rejected; an accepted request sends the resolved payload with the merged headers, and its record is the one built from the fetch outcome, that url and payload, the two clock readings and the timestamp, so it succeeds exactly when the exchange completed |
| Webhooks.Send | backend/routes/webhooks.js:71-148 | the reply and the POST are those of `Respond`, whatever the file holds and whether the write succeeds; a rejected request leaves the history file unchanged; an accepted one saves its record's JSON form |
| Webhooks.ValidationOrder | backend/routes/webhooks.js:75-97 | each of the four rejections, in order, returns its message with no POST and no history write |
| Webhooks.CustomPayloadWins | backend/routes/webhooks.js:90-93 | a truthy custom payload is the body sent and the payload recorded, whatever `eventType` is |
| Webhooks.TemplatePayloadUsed | backend/routes/webhooks.js:90-93 | with no truthy custom payload, a known event type sends that template's payload |
| Webhooks.AcceptedIsNewest | backend/routes/webhooks.js:141-142 | after an accepted request whose write succeeds, `/history` starts with that request's record, read back exactly |
| Webhooks.RunSendsAppends | backend/routes/webhooks.js:141-142 | when every write succeeds, a run of requests appends exactly the accepted records in request order, and rejected requests leave no trace |
| Webhooks.HistoryAfterSends | backend/routes/webhooks.js:45-68 | from no file, after `n` accepted requests with successful writes, the file holds `min(n, 50)` entries and `/history` returns the newest `min(n, 10)`, newest first |

## Left out

- `backend/server.js`: Express wiring, CORS, the JSON body middleware, the port from the environment and the startup log. It holds no logic.
- Express routing and HTTP status plumbing. The reply is the `Reply` datatype; an accepted reply's body is `Delivery.ToJson` of its record.
- The HTTP client itself. `World.fetch` is its outcome, taken as an input and not derived from the outbound request. The `timeout: 10000` option is ignored by the native client, so no timeout is claimed.
- The WHATWG URL parser. `World.parse` is its verdict on the `url` value, including the coercion of non-string values to strings.
- File I/O and the `JSON.stringify`/`JSON.parse` round trip of the history file. The file state holds the parsed JSON value directly.
- History.Save: a failed write is taken to leave the file as it was. A write that fails part-way is not modelled.
- `Date.now()` and `new Date().toISOString()`, both per request and at load time. They are inputs (`World.start`, `World.finish`, `World.timestamp`, `LoadStamps`).
- Templates.LookupPayload: only string `eventType` values are looked up. JavaScript would coerce a non-string such as `["userLogin"]` to a property key and find the template; the model treats every non-string as naming no template.
- Delivery.TruncateResponse: the limit counts Dafny characters (Unicode scalar values). JavaScript counts UTF-16 code units, so a body with astral characters may be cut at a different place.
- JSON numbers are finite reals. Values that overflow to `Infinity` are not represented; `-0` is modelled as `0`, which is falsy, as in JavaScript.
- Header names differing only in case (`content-type` beside `Content-Type`) are distinct keys in the merged object. How the HTTP client then combines them is not modelled.
- The unprotected read-modify-write race on the history file between concurrent requests, because the model is sequential.
- `console.log` and `console.error` output.
