/** The `POST /send` handler as a pure function of the request body, the load-time
    template stamps, the outside world's answers and the history file. */
module Webhooks {
  import opened Wrappers
  import opened Slices
  import opened Json
  import opened Templates
  import opened History
  import opened Headers
  import opened Delivery

  const UrlRequired: string := "URL is required"
  const InvalidUrl: string := "Invalid URL format"
  const SchemeNotAllowed: string := "URL must use HTTP or HTTPS"
  const NoPayload: string := "No payload provided"

  const AllowedProtocols: set<string> := {"http:", "https:"}

  /** What `new URL(url)` does with the request's `url`: throw, or yield a URL
      whose `protocol` is the scheme followed by a colon. */
  datatype UrlParse = Unparsable | Parsed(protocol: string)

  /** The fields the handler destructures from the JSON body; `None` is a missing field. */
  datatype Request = Request(url: Option<Json>, eventType: Option<Json>,
                             customPayload: Option<Json>, customHeaders: Option<Json>)

  /** Everything the handler learns from outside: the URL parser's verdict, the HTTP
      client's outcome, the two clock readings, the ISO timestamp, and whether the
      history write succeeds. */
  datatype World = World(parse: UrlParse, fetch: FetchOutcome, start: int, finish: int,
                         timestamp: string, writeOk: bool)

  /** The POST handed to the HTTP client: target, headers, and the payload it serialises. */
  datatype Outbound = Outbound(url: Json, headers: map<string, Json>, body: Json)

  /** A 400 reply `{error}`, or a 200 reply carrying the record. */
  datatype Reply = Rejected(error: string) | Accepted(result: DeliveryResult)

  datatype Attempt = Attempt(reply: Reply, sent: Option<Outbound>)

  datatype Exchange = Exchange(attempt: Attempt, file: HistoryFile)

  /** The URL checks, in the order the handler makes them; `None` means the URL passes. */
  function CheckUrl(url: Option<Json>, parse: UrlParse): (r: Option<string>)
    ensures r == Some(UrlRequired) <==> !Truthy(url)
    ensures r == Some(InvalidUrl) <==> Truthy(url) && parse.Unparsable?
    ensures r == Some(SchemeNotAllowed) <==> Truthy(url) && parse.Parsed? && parse.protocol !in AllowedProtocols
    ensures r.None? <==> Truthy(url) && parse.Parsed? && parse.protocol in AllowedProtocols
  {
    if !Truthy(url) then Some(UrlRequired)
    else match parse
      case Unparsable => Some(InvalidUrl)
      case Parsed(protocol) => if protocol in AllowedProtocols then None else Some(SchemeNotAllowed)
  }

  /** The payload to send: a truthy custom payload as it is, else the template named
      by `eventType`, else the `No payload provided` error. */
  function ResolvePayload(stamps: LoadStamps, req: Request): (r: Result<Json, string>)
    ensures Truthy(req.customPayload) ==> r == Success(req.customPayload.value)
    ensures !Truthy(req.customPayload) && LookupPayload(stamps, req.eventType).Some? ==>
      r == Success(LookupPayload(stamps, req.eventType).value)
    ensures r.Failure? <==> !Truthy(req.customPayload) && LookupPayload(stamps, req.eventType).None?
    ensures r.Failure? ==> r.error == NoPayload
    ensures r.Success? ==> Truthy(Some(r.value))
  {
    var payload := if !Truthy(req.customPayload) && LookupPayload(stamps, req.eventType).Some?
                   then LookupPayload(stamps, req.eventType) else req.customPayload;
    if !Truthy(payload) then Failure(NoPayload) else Success(payload.value)
  }

  /** The reply and the outbound POST, if any, for one request. */
  function Respond(stamps: LoadStamps, req: Request, world: World): (a: Attempt)
    ensures a.reply.Rejected? <==> a.sent.None?
    ensures a.reply.Rejected? <==> CheckUrl(req.url, world.parse).Some? || ResolvePayload(stamps, req).Failure?
    ensures CheckUrl(req.url, world.parse).Some? ==> a.reply == Rejected(CheckUrl(req.url, world.parse).value)
    ensures CheckUrl(req.url, world.parse).None? && ResolvePayload(stamps, req).Failure? ==> a.reply == Rejected(NoPayload)
    ensures a.sent.Some? ==>
      req.url.Some? && a.sent.value.url == req.url.value &&
      a.sent.value.headers == MergeHeaders(req.customHeaders) &&
      ResolvePayload(stamps, req) == Success(a.sent.value.body)
    ensures a.reply.Accepted? ==>
      a.reply.result.url == a.sent.value.url && a.reply.result.payload == a.sent.value.body &&
      (a.reply.result.Success() <==> world.fetch.Answered?) &&
      a.reply.result.responseTime == world.finish - world.start
    ensures a.reply.Accepted? ==>
      a.reply.result == BuildResult(world.fetch, a.sent.value.url, a.sent.value.body,
                                    world.start, world.finish, world.timestamp)
  {
    match CheckUrl(req.url, world.parse)
    case Some(error) => Attempt(Rejected(error), None)
    case None =>
      match ResolvePayload(stamps, req)
      case Failure(error) => Attempt(Rejected(error), None)
      case Success(payload) =>
        var out := Outbound(req.url.value, MergeHeaders(req.customHeaders), payload);
        var result := BuildResult(world.fetch, req.url.value, payload, world.start, world.finish, world.timestamp);
        Attempt(Accepted(result), Some(out))
  }

  /** The whole `POST /send` step: a rejected request leaves the history file
      alone, an accepted one records its result before replying. The reply does
      not depend on the file or on whether the write succeeds. */
  function Send(stamps: LoadStamps, req: Request, world: World, file: HistoryFile): (e: Exchange)
    ensures e.attempt == Respond(stamps, req, world)
    ensures e.attempt.reply.Rejected? ==> e.file == file
    ensures e.attempt.reply.Accepted? ==> e.file == Save(file, ToJson(e.attempt.reply.result), world.writeOk)
    ensures e.attempt.reply.Accepted? <==> e.attempt.sent.Some?
  {
    var a := Respond(stamps, req, world);
    match a.reply
    case Rejected(_) => Exchange(a, file)
    case Accepted(result) => Exchange(a, Save(file, ToJson(result), world.writeOk))
  }

  /** The four rejections, first failure wins, each before any POST and any history write. */
  lemma ValidationOrder(stamps: LoadStamps, req: Request, world: World, file: HistoryFile)
    ensures !Truthy(req.url) ==>
      Send(stamps, req, world, file) == Exchange(Attempt(Rejected(UrlRequired), None), file)
    ensures Truthy(req.url) && world.parse.Unparsable? ==>
      Send(stamps, req, world, file) == Exchange(Attempt(Rejected(InvalidUrl), None), file)
    ensures Truthy(req.url) && world.parse.Parsed? && world.parse.protocol !in AllowedProtocols ==>
      Send(stamps, req, world, file) == Exchange(Attempt(Rejected(SchemeNotAllowed), None), file)
    ensures CheckUrl(req.url, world.parse).None? && !Truthy(req.customPayload)
            && LookupPayload(stamps, req.eventType).None? ==>
      Send(stamps, req, world, file) == Exchange(Attempt(Rejected(NoPayload), None), file)
  {
  }

  /** A truthy custom payload is what gets sent and recorded, whatever `eventType` says. */
  lemma CustomPayloadWins(stamps: LoadStamps, req: Request, world: World)
    requires CheckUrl(req.url, world.parse).None? && Truthy(req.customPayload)
    ensures Respond(stamps, req, world).sent.Some?
    ensures Respond(stamps, req, world).sent.value.body == req.customPayload.value
    ensures Respond(stamps, req, world).reply.result.payload == req.customPayload.value
  {
  }

  /** With no truthy custom payload, a known event type sends that template's payload. */
  lemma TemplatePayloadUsed(stamps: LoadStamps, req: Request, world: World, key: string)
    requires CheckUrl(req.url, world.parse).None? && !Truthy(req.customPayload)
    requires req.eventType == Some(JStr(key)) && key in TemplateKeys
    ensures Respond(stamps, req, world).sent.Some?
    ensures Respond(stamps, req, world).sent.value.body == EventTemplates(stamps)[key].payload
  {
  }

  /** An accepted request whose history write succeeds is the newest entry the
      `/history` read returns, and reads back as the record that was replied. */
  lemma AcceptedIsNewest(stamps: LoadStamps, req: Request, world: World, file: HistoryFile)
    requires Respond(stamps, req, world).reply.Accepted?
    requires world.writeOk && Load(file).Some?
    ensures var e := Send(stamps, req, world, file);
      |Recent(e.file)| >= 1 &&
      FromJson(Recent(e.file)[0]) == Some(e.attempt.reply.result)
  {
    var e := Send(stamps, req, world, file);
    var h := Load(file).value;
    var entry := ToJson(e.attempt.reply.result);
    RecentSeesLoad(e.file, Append(h, entry));
    FromJsonToJson(e.attempt.reply.result);
  }

  /** The history file after a run of requests, in order, against one file. */
  function RunSends(stamps: LoadStamps, file: HistoryFile, calls: seq<(Request, World)>): HistoryFile
    decreases |calls|
  {
    if calls == [] then file
    else
      var last := calls[|calls| - 1];
      Send(stamps, last.0, last.1, RunSends(stamps, file, calls[..|calls| - 1])).file
  }

  /** The stored form of every accepted request's record, in request order. */
  function Recorded(stamps: LoadStamps, calls: seq<(Request, World)>): seq<Json>
    decreases |calls|
  {
    if calls == [] then []
    else
      var last := calls[|calls| - 1];
      var a := Respond(stamps, last.0, last.1);
      Recorded(stamps, calls[..|calls| - 1]) + (if a.reply.Accepted? then [ToJson(a.reply.result)] else [])
  }

  /** With every write succeeding, a run of requests appends exactly the accepted
      records, in order; rejected requests leave no trace. */
  lemma {:induction false} RunSendsAppends(stamps: LoadStamps, file: HistoryFile, calls: seq<(Request, World)>)
    requires forall i :: 0 <= i < |calls| ==> calls[i].1.writeOk
    requires Load(file).Some?
    ensures Load(RunSends(stamps, file, calls)).Some?
    ensures Load(RunSends(stamps, file, calls)) == Some(AppendEach(Load(file).value, Recorded(stamps, calls)))
    decreases |calls|
  {
    if calls != [] {
      var init := calls[..|calls| - 1];
      var last := calls[|calls| - 1];
      RunSendsAppends(stamps, file, init);
      var prev := RunSends(stamps, file, init);
      var rec := Recorded(stamps, init);
      var a := Respond(stamps, last.0, last.1);
      if a.reply.Accepted? {
        var es := rec + [ToJson(a.reply.result)];
        assert Recorded(stamps, calls) == es;
        assert es[..|es| - 1] == rec;
      } else {
        assert Recorded(stamps, calls) == rec;
      }
    }
  }

  /** From no history file, after any run of requests whose writes succeed, the
      stored log holds the newest `min(n, 50)` of the `n` accepted records and
      `/history` returns the newest `min(n, 10)`, newest first. */
  lemma HistoryAfterSends(stamps: LoadStamps, calls: seq<(Request, World)>)
    requires forall i :: 0 <= i < |calls| ==> calls[i].1.writeOk
    ensures var f := RunSends(stamps, Absent, calls);
      var n := |Recorded(stamps, calls)|;
      Load(f).Some? && |Load(f).value| == Min(n, Capacity) &&
      |Recent(f)| == Min(n, ViewSize) &&
      forall i :: 0 <= i < |Recent(f)| ==> Recent(f)[i] == Recorded(stamps, calls)[n - 1 - i]
  {
    var f := RunSends(stamps, Absent, calls);
    var es := Recorded(stamps, calls);
    RunSendsAppends(stamps, Absent, calls);
    AppendEachBounds(es);
    RecentSeesLoad(f, AppendEach([], es));
  }
}
