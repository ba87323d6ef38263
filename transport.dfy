/**
  The two transports as seen by the client.  What the operating system and the
  server do during one exchange is an input: for stdio, whether the child is
  still running, whether its pipes accept the write, and the line `readline`
  returns; for HTTP, whether `requests.post` gets a response, and that
  response's status, `mcp-session-id` header and body.  Each exchange is
  classified into the decoded answer the client returns and the traffic it puts
  on the wire.
 */
module Transport {
  import opened Wrappers
  import opened Strings
  import opened Json
  import opened Messages
  import EventStream

  /** A child process started with `command`, and whether its stdin and stdout
      pipes are present (its handle and stderr reader left abstract). */
  datatype Process = Process(command: seq<string>, pipesOpen: bool)

  /** What `subprocess.Popen` does: raise, or start a child whose stdin and stdout pipes are present or not. */
  datatype SpawnOutcome = SpawnFails | Spawned(pipesOpen: bool)

  /** The state of the child and its pipes when one message is exchanged. */
  datatype StdioLink =
    | Exited               // `poll()` reports the child has terminated
    | StdinClosed          // the write end of the pipe is already closed
    | WriteFails           // writing or flushing the line raises (a broken pipe)
    | ReadFails            // the write succeeds, reading stdout raises
    | Open(line: string)   // the write succeeds; `line` is what `readline` returns, "" at end of stream

  /** What `requests.post` does with one request. */
  datatype HttpOutcome =
    | NetworkError         // it raises: connection refused, timeout
    | Response(status: int, sessionHeader: Option<string>, body: string)

  /** How the other end answers one exchange, on whichever transport is active. */
  datatype Peer = Peer(stdio: StdioLink, http: HttpOutcome)

  /** One action of the client on a transport. */
  datatype Exchange =
    | StdioWrite(msg: Message)   // the message, encoded on one line, written to stdin and flushed
    | StdioRead                  // one line read from stdout
    | HttpPost(url: string, msg: Message, headers: map<string, string>, timeoutSeconds: nat)

  const SessionHeader: string := "mcp-session-id"
  const AcceptValue: string := "application/json, text/event-stream"
  const ContentTypeValue: string := "application/json"
  const TimeoutSeconds: nat := 30

  /** The headers of every POST: the two fixed ones, and the session token when the
      client holds a non-empty one. */
  function RequestHeaders(sessionId: Option<string>): (headers: map<string, string>)
    ensures headers.Keys <= {"Accept", "Content-Type", SessionHeader}
    ensures SessionHeader in headers ==> sessionId.Some? && headers[SessionHeader] != ""
  {
    var fixed := map["Accept" := AcceptValue, "Content-Type" := ContentTypeValue];
    if sessionId.Some? && sessionId.value != "" then fixed[SessionHeader := sessionId.value] else fixed
  }

  /** The session header is sent exactly when a non-empty token is held, and carries it. */
  lemma SessionHeaderSentIff(sessionId: Option<string>)
    ensures SessionHeader in RequestHeaders(sessionId) <==> sessionId.Some? && sessionId.value != ""
    ensures SessionHeader in RequestHeaders(sessionId) ==> RequestHeaders(sessionId)[SessionHeader] == sessionId.value
    ensures RequestHeaders(sessionId).Keys - {SessionHeader} == {"Accept", "Content-Type"}
    ensures RequestHeaders(sessionId)["Accept"] == AcceptValue
    ensures RequestHeaders(sessionId)["Content-Type"] == ContentTypeValue
  {
  }

  // ---------------------------------------------------------------- stdio

  /** The write happens unless there is no child with pipes, it has exited or its
      stdin is closed.  A child without pipes fails with an AttributeError that
      `_send_stdio_message` catches. */
  predicate StdioWrites(hasPipes: bool, link: StdioLink) {
    hasPipes && !link.Exited? && !link.StdinClosed?
  }

  /** The answer `_send_stdio_message` returns.  The source tests for a
      notification by the missing `"id"` key of the dict, which
      `NotificationHasNoIdKey` shows is the same test. */
  function StdioReply(hasPipes: bool, msg: Message, link: StdioLink, parse: string -> Option<Json>): (r: Option<Json>)
    ensures r.Some? ==> StdioWrites(hasPipes, link) && !link.WriteFails?
    ensures r.Some? && !IsNotification(msg) ==> link.Open? && r == parse(Strip(link.line))
    ensures r.Some? && IsNotification(msg) ==> r == Some(SuccessAck)
  {
    if !StdioWrites(hasPipes, link) || link.WriteFails? then None
    else if IsNotification(msg) then Some(SuccessAck)
    else if link.ReadFails? then None
    else
      var line := Strip(link.line);
      if line == "" then None else parse(line)
  }

  /** The traffic of `_send_stdio_message`: a write, then a read only for a request. */
  function StdioTraffic(hasPipes: bool, msg: Message, link: StdioLink): (traffic: seq<Exchange>) {
    if !StdioWrites(hasPipes, link) then []
    else if link.WriteFails? || IsNotification(msg) then [StdioWrite(msg)]
    else [StdioWrite(msg), StdioRead]
  }

  /** A notification is acknowledged as soon as it is written: stdout is not read,
      so the answer does not depend on what the child would print. */
  lemma StdioNotificationNotRead(msg: Message, line: string, parse: string -> Option<Json>)
    requires IsNotification(msg)
    ensures StdioReply(true, msg, Open(line), parse) == Some(SuccessAck)
    ensures StdioReply(true, msg, ReadFails, parse) == Some(SuccessAck)
    ensures StdioTraffic(true, msg, Open(line)) == [StdioWrite(msg)]
  {
    NotificationHasNoIdKey(msg);
  }

  /** A request is answered by the one line read after it: end of stream or a
      blank line give `None`, otherwise the stripped line is parsed. */
  lemma StdioRequestReadsOneLine(msg: Message, line: string, parse: string -> Option<Json>)
    requires !IsNotification(msg)
    ensures StdioTraffic(true, msg, Open(line)) == [StdioWrite(msg), StdioRead]
    ensures Strip(line) == "" ==> StdioReply(true, msg, Open(line), parse) == None
    ensures Strip(line) != "" ==> StdioReply(true, msg, Open(line), parse) == parse(Strip(line))
    ensures StdioReply(true, msg, Open(""), parse) == None
  {
    NotificationHasNoIdKey(msg);
    assert Strip("") == "";
  }

  /** Without a running child, with an exited one, or with its stdin closed,
      nothing is written and nothing is returned. */
  lemma StdioWithoutChild(hasPipes: bool, msg: Message, link: StdioLink, parse: string -> Option<Json>)
    requires !hasPipes || link.Exited? || link.StdinClosed?
    ensures StdioReply(hasPipes, msg, link, parse) == None && StdioTraffic(hasPipes, msg, link) == []
  {
  }

  // ---------------------------------------------------------------- HTTP

  /** `self.base_url` is set and non-empty: the guard of `_send_http_message`. */
  predicate HasEndpoint(baseUrl: Option<string>) {
    baseUrl.Some? && baseUrl.value != ""
  }

  /** The answer to a response with this status and body: a blank 200 response
      acknowledges a notification, and a body that goes through the event-stream
      decoder gives `None` exactly when the decoder raises. */
  function HttpBodyReply(status: int, body: string, parse: string -> Option<Json>): (r: Option<Json>)
    ensures status == 200 && Strip(body) == "" ==> r == Some(SuccessAck)
    ensures status == 200 && Strip(body) != "" ==> (r.None? <==> EventStream.Decode(body, parse).Raises?)
    ensures status != 200 && (StartsWith(body, "event:") || StartsWith(body, "data:")) ==>
      (r.None? <==> EventStream.Decode(body, parse).Raises?)
  {
    if status == 200 then
      if Strip(body) != "" then EventStream.Decode(body, parse).ToOption() else Some(SuccessAck)
    else if StartsWith(body, "event:") || StartsWith(body, "data:") then
      EventStream.Decode(body, parse).ToOption()
    else
      parse(body)
  }

  /** The answer `_send_http_message` returns. */
  function HttpReply(baseUrl: Option<string>, reply: HttpOutcome, parse: string -> Option<Json>): (r: Option<Json>) {
    if !HasEndpoint(baseUrl) then None
    else match reply
      case NetworkError => None
      case Response(status, _, body) => HttpBodyReply(status, body, parse)
  }

  /** The one POST `_send_http_message` makes, if the endpoint is known. */
  function HttpTraffic(baseUrl: Option<string>, sessionId: Option<string>, msg: Message): (traffic: seq<Exchange>) {
    if !HasEndpoint(baseUrl) then []
    else [HttpPost(baseUrl.value, msg, RequestHeaders(sessionId), TimeoutSeconds)]
  }

  /** The session token after the exchange: a response header overwrites it, on any
      status; otherwise it is kept. */
  function NextSession(baseUrl: Option<string>, sessionId: Option<string>, reply: HttpOutcome): (next: Option<string>)
    ensures next == sessionId || (HasEndpoint(baseUrl) && reply.Response? && next == reply.sessionHeader)
    ensures next.None? ==> sessionId.None?
  {
    if HasEndpoint(baseUrl) && reply.Response? && reply.sessionHeader.Some? then reply.sessionHeader
    else sessionId
  }

  /** A non-200 response whose body is an event stream is decoded and returned as
      data: an error answer reaches the caller instead of `None`. */
  lemma ErrorStatusStreamIsData(status: int, event: string, payload: string, parse: string -> Option<Json>)
    requires status != 200
    requires '\n' !in event && '\n' !in payload
    requires |payload| > 0 && !IsSpace(payload[0]) && !IsSpace(payload[|payload| - 1])
    requires !StartsWith(payload, EventStream.DataPrefix)
    ensures HttpBodyReply(status, EventStream.Frame(event, payload), parse) == parse(payload)
  {
    var body := EventStream.Frame(event, payload);
    assert body[..6] == "event:";
    EventStream.FramedMatchesDirect(event, payload, parse);
  }

  /** The token is replaced exactly when a response carries the header. */
  lemma SessionCapture(baseUrl: Option<string>, sessionId: Option<string>, reply: HttpOutcome)
    requires HasEndpoint(baseUrl)
    ensures reply.Response? && reply.sessionHeader.Some? ==> NextSession(baseUrl, sessionId, reply) == reply.sessionHeader
    ensures !(reply.Response? && reply.sessionHeader.Some?) ==> NextSession(baseUrl, sessionId, reply) == sessionId
  {
  }
}
