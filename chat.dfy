/** The request side of a chat exchange: `BaseClient` configuration, the
    checks and the header/body rules of `ChatApi.chat`, the error text of a
    failed response, and the shared `BaseClient.request`. The transport is a
    parameter: each function receives the reply the server gives. */
module ChatRequest {
  import opened Wrappers
  import opened Json
  import opened Text

  /** A thrown JavaScript `Error`, by its message. */
  datatype Error = Error(message: string)

  datatype Config = Config(baseUrl: Option<string>, databaseIdHash: string, apiKey: string)

  datatype Client = Client(baseUrl: string, databaseIdHash: string, apiKey: string)

  const DefaultBaseUrl := "https://app.openagentsbuilder.com"

  /** JavaScript truthiness of an optional string. */
  predicate Present(s: Option<string>) {
    s.Some? && s.value != ""
  }

  /** `new BaseClient(config)`: `config.baseUrl || DefaultBaseUrl`. */
  function NewClient(config: Config): (c: Client)
    ensures c.databaseIdHash == config.databaseIdHash && c.apiKey == config.apiKey
    ensures c.baseUrl != "" && (Present(config.baseUrl) ==> c.baseUrl == config.baseUrl.value)
    ensures !Present(config.baseUrl) ==> c.baseUrl == DefaultBaseUrl
  {
    Client(if Present(config.baseUrl) then config.baseUrl.value else DefaultBaseUrl,
           config.databaseIdHash, config.apiKey)
  }

  datatype Attachment = Attachment(name: Option<string>, contentType: Option<string>, url: string)

  datatype Message = Message(role: string, content: string, name: Option<string>, functionCall: Option<Json>)

  datatype ChatOptions = ChatOptions(
    agentId: Option<string>,
    sessionId: Option<string>,
    headers: Option<map<string, string>>,
    attachments: Option<seq<Attachment>>)

  /** The values of the three informational date/time headers. */
  datatype Clock = Clock(iso: string, local: string, timeZone: string)

  const SessionHeader := "Agent-Session-Id"
  const AgentIdRequired := "agentId is required in ChatRequestOptions"

  /** The headers `chat` sets before the consumer's own are merged in. */
  function DefaultHeaders(client: Client, agentId: string, sessionId: Option<string>, clock: Clock): map<string, string> {
    map[
      "Authorization" := "Bearer " + client.apiKey,
      "Content-Type" := "application/json",
      "Database-Id-Hash" := client.databaseIdHash,
      "Agent-Id" := agentId,
      "Current-Datetime-Iso" := clock.iso,
      "Current-Datetime" := clock.local,
      "Current-Timezone" := clock.timeZone
    ] + (if Present(sessionId) then map[SessionHeader := sessionId.value] else map[])
  }

  /** The header object of `chat`: the defaults, overridden key by key by the
      consumer's headers; the session header only for a non-empty session id. */
  function ChatHeaders(client: Client, agentId: string, options: ChatOptions, clock: Clock): (h: map<string, string>)
    ensures var d := DefaultHeaders(client, agentId, options.sessionId, clock);
            var u := options.headers.GetOr(map[]);
            && h.Keys == d.Keys + u.Keys
            && (forall k :: k in u ==> h[k] == u[k])
            && (forall k :: k in d && k !in u ==> h[k] == d[k])
    ensures SessionHeader !in options.headers.GetOr(map[]) ==>
              (SessionHeader in h <==> Present(options.sessionId))
              && (Present(options.sessionId) ==> h[SessionHeader] == options.sessionId.value)
    ensures "Agent-Id" !in options.headers.GetOr(map[]) ==> h["Agent-Id"] == agentId
  {
    DefaultHeaders(client, agentId, options.sessionId, clock) + options.headers.GetOr(map[])
  }

  /** The JSON body of `chat`. */
  datatype ChatBody = ChatBody(messages: seq<Message>, experimentalAttachments: Option<seq<Attachment>>)

  /** `experimental_attachments` is sent only for a non-empty attachment list. */
  function BuildBody(messages: seq<Message>, attachments: Option<seq<Attachment>>): (b: ChatBody)
    ensures b.messages == messages
    ensures b.experimentalAttachments.Some? <==> attachments.Some? && |attachments.value| > 0
    ensures b.experimentalAttachments.Some? ==> b.experimentalAttachments == attachments
  {
    if attachments.Some? && |attachments.value| > 0
    then ChatBody(messages, attachments)
    else ChatBody(messages, None)
  }

  /** The request `chat` sends: always a POST to `<baseUrl>/api/chat/`. */
  datatype ChatRequest = ChatRequest(url: string, headers: map<string, string>, body: ChatBody)

  /** A response body: the decoded chunks successive reads deliver, then
      either its end or a read that fails. */
  datatype Body = Body(chunks: seq<string>, failure: Option<Error>)

  /** What the server answers: `json` is what `resp.json()` gives (None when
      the body is not JSON); `body` is None when the response has no body. */
  datatype HttpResponse = HttpResponse(
    status: nat,
    statusText: string,
    headers: map<string, string>,
    json: Option<Json>,
    body: Option<Body>)

  /** `resp.ok`. */
  predicate IsOk(reply: HttpResponse) {
    200 <= reply.status <= 299
  }

  /** The text of the error thrown for a failed response. */
  function ErrorText(status: nat, message: string): string {
    "Error (" + Decimal(status) + "): " + message
  }

  /** Reads a status and a message back out of an error text. */
  function ParseErrorText(t: string): Option<(nat, string)> {
    if !StartsWith(t, "Error (") then None
    else
      var rest := t[7..];
      var close := IndexOf(rest, ')');
      if close <= 0 then None
      else
        var digits := rest[..close];
        if !(forall i :: 0 <= i < |digits| ==> '0' <= digits[i] <= '9') then None
        else if !StartsWith(rest[close..], "): ") then None
        else Some((DecimalValue(digits), rest[close + 3..]))
  }

  /** The error text keeps both the status and the message recoverable. */
  lemma ErrorTextRoundTrip(status: nat, message: string)
    ensures ParseErrorText(ErrorText(status, message)) == Some((status, message))
  {
    var d := Decimal(status);
    var rest := d + ("): " + message);
    assert ErrorText(status, message) == "Error (" + rest;
    PrefixedRest(rest);
    DigitsThenMessage(d, message);
    DecimalRoundTrip(status);
  }

  /** The text after the `Error (` prefix. */
  lemma PrefixedRest(rest: string)
    ensures StartsWith("Error (" + rest, "Error (") && ("Error (" + rest)[7..] == rest
  {
    assert ("Error (" + rest)[..7] == "Error (";
  }

  /** A run of digits, then `): ` and the message: the first `)` closes the
      digits. */
  lemma DigitsThenMessage(d: string, message: string)
    requires forall i :: 0 <= i < |d| ==> '0' <= d[i] <= '9'
    ensures var rest := d + ("): " + message);
            && IndexOf(rest, ')') == |d| && rest[..|d|] == d
            && StartsWith(rest[|d|..], "): ") && rest[|d| + 3..] == message
  {
    var rest := d + ("): " + message);
    assert rest[..|d|] == d;
    assert rest[|d|] == ')';
    IndexOfAt(rest, ')', |d|);
    assert rest[|d|..] == "): " + message;
    assert rest[|d|..][..3] == "): ";
  }

  /** The message `chat` reports: the JSON body's `message`, else the status text. */
  function ChatErrorMessage(reply: HttpResponse): (m: string)
    ensures MessageField(reply.json).Some? ==> m == MessageField(reply.json).value
    ensures MessageField(reply.json).None? ==> m == reply.statusText
  {
    MessageField(reply.json).GetOr(reply.statusText)
  }

  /** One call of `chat`: the request it sent, if any, and what it returns or throws. */
  datatype ChatCall = ChatCall(sent: Option<ChatRequest>, outcome: Result<HttpResponse, Error>)

  /** `ChatApi.chat`: a missing agent id is rejected before anything is sent;
      otherwise the request is sent and a non-OK reply becomes an error. */
  function Chat(client: Client, messages: seq<Message>, options: ChatOptions, clock: Clock,
                reply: HttpResponse): (c: ChatCall)
    ensures !Present(options.agentId) ==> c == ChatCall(None, Failure(Error(AgentIdRequired)))
    ensures Present(options.agentId) ==>
              c.sent == Some(ChatRequest(client.baseUrl + "/api/chat/",
                                         ChatHeaders(client, options.agentId.value, options, clock),
                                         BuildBody(messages, options.attachments)))
    ensures c.outcome.Success? <==> Present(options.agentId) && IsOk(reply)
    ensures c.outcome.Success? ==> c.outcome.value == reply
    ensures Present(options.agentId) && !IsOk(reply) ==>
              c.outcome == Failure(Error(ErrorText(reply.status, ChatErrorMessage(reply))))
  {
    if !Present(options.agentId) then ChatCall(None, Failure(Error(AgentIdRequired)))
    else
      var agentId := options.agentId.value;
      var request := ChatRequest(client.baseUrl + "/api/chat/",
                                 ChatHeaders(client, agentId, options, clock),
                                 BuildBody(messages, options.attachments));
      if IsOk(reply) then ChatCall(Some(request), Success(reply))
      else ChatCall(Some(request), Failure(Error(ErrorText(reply.status, ChatErrorMessage(reply)))))
  }

  /** A failed `chat` always reports its status in the documented shape. */
  lemma ChatFailureShape(client: Client, messages: seq<Message>, options: ChatOptions, clock: Clock,
                         reply: HttpResponse)
    requires Present(options.agentId) && !IsOk(reply)
    ensures var c := Chat(client, messages, options, clock, reply);
            c.outcome.Failure?
            && ParseErrorText(c.outcome.error.message) == Some((reply.status, ChatErrorMessage(reply)))
  {
    ErrorTextRoundTrip(reply.status, ChatErrorMessage(reply));
  }

  datatype Method = GET | POST | PUT | DELETE

  /** What `BaseClient.request` sends (the query string is not modelled). */
  datatype HttpRequest = HttpRequest(url: string, verb: Method, headers: map<string, string>, body: Option<Json>)

  /** The headers of `BaseClient.request`: the JSON content type only when
      a truthy body goes with a method other than GET. */
  function RequestHeaders(client: Client, verb: Method, body: Option<Json>): (h: map<string, string>)
    ensures "Authorization" in h && h["Authorization"] == "Bearer " + client.apiKey
    ensures "database-id-hash" in h && h["database-id-hash"] == client.databaseIdHash
    ensures "Content-Type" in h <==> Truthy(body) && verb != GET
    ensures "Content-Type" in h ==> h["Content-Type"] == "application/json"
    ensures |h| == if Truthy(body) && verb != GET then 3 else 2
  {
    var base := map["Authorization" := "Bearer " + client.apiKey, "database-id-hash" := client.databaseIdHash];
    if Truthy(body) && verb != GET then base["Content-Type" := "application/json"] else base
  }

  /** The request `BaseClient.request` sends: a JSON body goes with its
      content type, and neither is sent for GET or a falsy body. */
  function BuildHttpRequest(client: Client, endpoint: string, verb: Method, body: Option<Json>): (r: HttpRequest)
    ensures r.url == client.baseUrl + endpoint && r.verb == verb
    ensures r.body.Some? <==> "Content-Type" in r.headers
    ensures r.body.Some? <==> Truthy(body) && verb != GET
    ensures r.body.Some? ==> r.body == body
  {
    HttpRequest(client.baseUrl + endpoint, verb, RequestHeaders(client, verb, body),
                if Truthy(body) && verb != GET then body else None)
  }

  /** `result` after `try { result = await resp.json() } catch {}`: `{}` when the body is not JSON. */
  function ResultValue(reply: HttpResponse): Json {
    reply.json.GetOr(JObject(map[]))
  }

  /** V8's TypeError message for reading a property of `null`, written as
      two literals because the verifier reads the characters of a short
      literal but not of one this long. */
  const NullPropertyError := "Cannot read properties of null" + " (reading 'message')"

  /** `BaseClient.request` as written: `result.message` is read even when the
      body was the JSON value `null`, which throws a TypeError instead of the
      formatted error. */
  function RequestAsWritten(client: Client, endpoint: string, verb: Method, body: Option<Json>,
                            reply: HttpResponse): (r: Result<Json, Error>)
    ensures IsOk(reply) <==> r.Success?
    ensures !IsOk(reply) && ResultValue(reply) == JNull ==> r == Failure(Error(NullPropertyError))
  {
    var result := ResultValue(reply);
    if IsOk(reply) then Success(result)
    else if result == JNull then Failure(Error(NullPropertyError))
    else Failure(Error(ErrorText(reply.status, MessageField(Some(result)).GetOr(reply.statusText))))
  }

  /** A reply whose body is `null` with status 500 escapes the error format. */
  lemma NullErrorBodyEscapesFormat(client: Client, endpoint: string, verb: Method, body: Option<Json>)
    ensures var reply := HttpResponse(500, "Internal Server Error", map[], Some(JNull), None);
            var r := RequestAsWritten(client, endpoint, verb, body, reply);
            r.Failure? && ParseErrorText(r.error.message) == None
  {
    var reply := HttpResponse(500, "Internal Server Error", map[], Some(JNull), None);
    assert !IsOk(reply) && ResultValue(reply) == JNull;
    assert ParseErrorText(NullPropertyError) == None by {
      var t := NullPropertyError;
      assert t[0] == 'C';
      assert t[..7] != "Error (" by { assert t[..7][0] == 'C'; }
    }
  }

  /** `BaseClient.request` with the message read as `result?.message`, as
      `chat` does: every non-OK reply fails with the formatted error. */
  function Request(client: Client, endpoint: string, verb: Method, body: Option<Json>,
                   reply: HttpResponse): (r: Result<Json, Error>)
    ensures IsOk(reply) ==> r == Success(ResultValue(reply))
    ensures !IsOk(reply) ==>
              (r.Failure? && ParseErrorText(r.error.message)
                 == Some((reply.status, MessageField(Some(ResultValue(reply))).GetOr(reply.statusText))))
    ensures ResultValue(reply) != JNull ==> r == RequestAsWritten(client, endpoint, verb, body, reply)
  {
    var result := ResultValue(reply);
    if IsOk(reply) then Success(result)
    else
      var message := MessageField(Some(result)).GetOr(reply.statusText);
      ErrorTextRoundTrip(reply.status, message);
      Failure(Error(ErrorText(reply.status, message)))
  }
}
