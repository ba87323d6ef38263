/**
  `MCPClient`: one session with a tool server, over stdio or HTTP.  The fields
  are the Python object's; `wire` is a ghost log of every action the client
  takes on a transport, so that what is sent, and when nothing is, can be
  stated.  JSON parsing is the oracle `parse` the client is built with.
 */
module Client {
  import opened Wrappers
  import opened Strings
  import opened Json
  import opened Url
  import opened Messages
  import opened Transport
  import EventStream

  /** `connection_type`: `None`, `"stdio"` or `"http"`. */
  datatype ConnectionType = NoConnection | Stdio | Http

  class McpClient {
    var process: Option<Process>
    var baseUrl: Option<string>
    var connectionType: ConnectionType
    var requestId: int
    var initialized: bool
    var sessionId: Option<string>
    ghost var wire: seq<Exchange>
    const parse: string -> Option<Json>

    /** The object invariant every operation keeps: ids are positive, an
        initialized client has a transport, and a stored endpoint is normalized. */
    ghost predicate Valid()
      reads this
    {
      && requestId >= 1
      && (initialized ==> connectionType != NoConnection)
      && (connectionType == Http ==> baseUrl.Some?)
      && (baseUrl.Some? ==> EndsWith(baseUrl.value, MountPath))
    }

    /** A child is held and its stdin and stdout pipes are present. */
    predicate HasPipes()
      reads this
    {
      process.Some? && process.value.pipesOpen
    }

    /** The empty state of a new or closed client. */
    predicate Disconnected()
      reads this
    {
      process.None? && baseUrl.None? && connectionType == NoConnection && sessionId.None? && !initialized
    }

    constructor (parse: string -> Option<Json>)
      ensures Valid() && Disconnected()
      ensures requestId == 1 && wire == [] && this.parse == parse
    {
      process := None;
      baseUrl := None;
      connectionType := NoConnection;
      requestId := 1;
      initialized := false;
      sessionId := None;
      wire := [];
      this.parse := parse;
    }

    /** `_next_id`: hand out the current id and advance the counter by one. */
    method NextId() returns (id: int)
      requires Valid()
      modifies this`requestId
      ensures Valid()
      ensures id == old(requestId) && requestId == old(requestId) + 1
    {
      id := requestId;
      requestId := requestId + 1;
    }

    /** `_send_stdio_message` */
    method SendStdio(msg: Message, link: StdioLink) returns (r: Option<Json>)
      modifies this`wire
      ensures r == StdioReply(HasPipes(), msg, link, parse)
      ensures wire == old(wire) + StdioTraffic(HasPipes(), msg, link)
    {
      if process.None? || link.Exited? || !process.value.pipesOpen || link.StdinClosed? {
        return None;
      }
      wire := wire + [StdioWrite(msg)];
      if link.WriteFails? {
        return None;
      }
      NotificationHasNoIdKey(msg);
      if "id" !in ToJson(msg).fields {
        return Some(SuccessAck);
      }
      wire := wire + [StdioRead];
      if link.ReadFails? {
        return None;
      }
      var line := link.line;
      if line != "" && Strip(line) != "" {
        r := parse(Strip(line));
      } else {
        r := None;
      }
    }

    /** `_send_http_message` */
    method SendHttp(msg: Message, reply: HttpOutcome) returns (r: Option<Json>)
      requires Valid()
      modifies this`wire, this`sessionId
      ensures Valid()
      ensures r == HttpReply(baseUrl, reply, parse)
      ensures wire == old(wire) + HttpTraffic(baseUrl, old(sessionId), msg)
      ensures sessionId == NextSession(baseUrl, old(sessionId), reply)
    {
      if baseUrl.None? || baseUrl.value == "" {
        return None;
      }
      var headers := map["Accept" := AcceptValue, "Content-Type" := ContentTypeValue];
      if sessionId.Some? && sessionId.value != "" {
        headers := headers[SessionHeader := sessionId.value];
      }
      wire := wire + [HttpPost(baseUrl.value, msg, headers, TimeoutSeconds)];
      if reply.NetworkError? {
        return None;
      }
      if reply.sessionHeader.Some? {
        sessionId := reply.sessionHeader;
      }
      if reply.status == 200 {
        if Strip(reply.body) != "" {
          var decoded := EventStream.ParseSseResponse(reply.body, parse);
          r := decoded.ToOption();
        } else {
          r := Some(SuccessAck);
        }
      } else if StartsWith(reply.body, "event:") || StartsWith(reply.body, "data:") {
        var decoded := EventStream.ParseSseResponse(reply.body, parse);
        r := decoded.ToOption();
      } else {
        r := parse(reply.body);
      }
    }

    /** The answer `send_message` gets for `msg` in the current state. */
    function SendReply(msg: Message, peer: Peer): (r: Option<Json>)
      reads this
    {
      if !initialized then None
      else match connectionType
        case Stdio => StdioReply(HasPipes(), msg, peer.stdio, parse)
        case Http => HttpReply(baseUrl, peer.http, parse)
        case NoConnection => None
    }

    /** The traffic `send_message` causes for `msg` in the current state. */
    ghost function SendTraffic(msg: Message, peer: Peer): (traffic: seq<Exchange>)
      reads this
    {
      if !initialized then []
      else match connectionType
        case Stdio => StdioTraffic(HasPipes(), msg, peer.stdio)
        case Http => HttpTraffic(baseUrl, sessionId, msg)
        case NoConnection => []
    }

    /** The session token after `send_message` in the current state. */
    function SessionAfter(peer: Peer): (next: Option<string>)
      reads this
    {
      if initialized && connectionType == Http then NextSession(baseUrl, sessionId, peer.http) else sessionId
    }

    /** `send_message`: refuse before the handshake, else use the connected transport. */
    method SendMessage(msg: Message, peer: Peer) returns (r: Option<Json>)
      requires Valid()
      modifies this`wire, this`sessionId
      ensures Valid()
      ensures r == old(SendReply(msg, peer))
      ensures wire == old(wire) + old(SendTraffic(msg, peer))
      ensures sessionId == old(SessionAfter(peer))
      ensures !initialized ==> r.None? && wire == old(wire) && sessionId == old(sessionId)
    {
      if !initialized {
        return None;
      }
      if connectionType == Stdio {
        r := SendStdio(msg, peer.stdio);
      } else if connectionType == Http {
        r := SendHttp(msg, peer.http);
      } else {
        r := None;
      }
    }

    /** `list_tools`: one id, one `tools/list` request, the `tools` of its result. */
    method ListTools(peer: Peer) returns (tools: Outcome<Json>)
      requires Valid()
      modifies this`requestId, this`wire, this`sessionId
      ensures Valid()
      ensures requestId == old(requestId) + 1
      ensures tools == Listing(old(SendReply(ListToolsRequest(requestId), peer)), "tools")
      ensures wire == old(wire) + old(SendTraffic(ListToolsRequest(requestId), peer))
      ensures sessionId == old(SessionAfter(peer))
      ensures !initialized ==> tools == Returns(JArr([])) && wire == old(wire)
    {
      var id := NextId();
      var response := SendMessage(ListToolsRequest(id), peer);
      tools := Listing(response, "tools");
    }

    /** `call_tool`: one id, one `tools/call` request, the `result` of its answer. */
    method CallTool(toolName: string, arguments: Option<Json>, peer: Peer) returns (result: Outcome<Option<Json>>)
      requires Valid()
      modifies this`requestId, this`wire, this`sessionId
      ensures Valid()
      ensures requestId == old(requestId) + 1
      ensures result == ResultField(old(SendReply(CallToolRequest(requestId, toolName, arguments), peer)))
      ensures wire == old(wire) + old(SendTraffic(CallToolRequest(requestId, toolName, arguments), peer))
      ensures sessionId == old(SessionAfter(peer))
      ensures !initialized ==> result == Returns(None) && wire == old(wire)
    {
      var id := NextId();
      var response := SendMessage(CallToolRequest(id, toolName, arguments), peer);
      result := ResultField(response);
    }

    /** `list_resources`: one id, one `resources/list` request, the `resources` of its result. */
    method ListResources(peer: Peer) returns (resources: Outcome<Json>)
      requires Valid()
      modifies this`requestId, this`wire, this`sessionId
      ensures Valid()
      ensures requestId == old(requestId) + 1
      ensures resources == Listing(old(SendReply(ListResourcesRequest(requestId), peer)), "resources")
      ensures wire == old(wire) + old(SendTraffic(ListResourcesRequest(requestId), peer))
      ensures sessionId == old(SessionAfter(peer))
      ensures !initialized ==> resources == Returns(JArr([])) && wire == old(wire)
    {
      var id := NextId();
      var response := SendMessage(ListResourcesRequest(id), peer);
      resources := Listing(response, "resources");
    }

    /** `read_resource`: one id, one `resources/read` request, the `result` of its
        answer; `arguments` is accepted and not used. */
    method ReadResource(uri: string, arguments: Option<Json>, peer: Peer) returns (result: Outcome<Option<Json>>)
      requires Valid()
      modifies this`requestId, this`wire, this`sessionId
      ensures Valid()
      ensures requestId == old(requestId) + 1
      ensures result == ResultField(old(SendReply(ReadResourceRequest(requestId, uri), peer)))
      ensures wire == old(wire) + old(SendTraffic(ReadResourceRequest(requestId, uri), peer))
      ensures sessionId == old(SessionAfter(peer))
      ensures !initialized ==> result == Returns(None) && wire == old(wire)
    {
      var id := NextId();
      var response := SendMessage(ReadResourceRequest(id, uri), peer);
      result := ResultField(response);
    }

    /** `connect_stdio`: start the child, then run the handshake over its pipes.
        A failed attempt leaves `initialized` as it was. */
    method ConnectStdio(command: seq<string>, spawn: SpawnOutcome, initLink: StdioLink, notifyLink: StdioLink)
      returns (ok: bool)
      requires Valid()
      modifies this`process, this`connectionType, this`requestId, this`initialized, this`wire
      ensures Valid()
      ensures connectionType == Stdio
      ensures process == if command != [] && spawn.Spawned? then Some(Process(command, spawn.pipesOpen)) else old(process)
      ensures var handshake := command != [] && spawn == Spawned(true);
        && requestId == old(requestId) + (if handshake then 1 else 0)
        && ok == (handshake && HandshakeAccepted(StdioReply(true, InitializeRequest(old(requestId)), initLink, parse)))
        && wire == old(wire) +
             (if handshake then StdioTraffic(true, InitializeRequest(old(requestId)), initLink) else []) +
             (if ok then StdioTraffic(true, InitializedNotification, notifyLink) else [])
      ensures initialized == (ok || old(initialized))
    {
      connectionType := Stdio;
      ok := false;
      if command != [] && spawn.Spawned? {
        process := Some(Process(command, spawn.pipesOpen));
        if spawn.pipesOpen {
          var id := NextId();
          assert HasPipes();
          var response := SendStdio(InitializeRequest(id), initLink);
          if HandshakeAccepted(response) {
            initialized := true;
            var _ := SendStdio(InitializedNotification, notifyLink);
            ok := true;
          }
        }
      }
    }

    /** `connect_http`: normalize and store the endpoint, then run the handshake
        over HTTP.  A failed attempt leaves `initialized` as it was. */
    method ConnectHttp(url: string, initReply: HttpOutcome, notifyReply: HttpOutcome) returns (ok: bool)
      requires Valid()
      modifies this`baseUrl, this`connectionType, this`requestId, this`initialized, this`sessionId, this`wire
      ensures Valid()
      ensures baseUrl == Some(NormalizeUrl(url)) && connectionType == Http
      ensures requestId == old(requestId) + 1
      ensures var afterInit := NextSession(baseUrl, old(sessionId), initReply);
        && ok == HandshakeAccepted(HttpReply(baseUrl, initReply, parse))
        && sessionId == (if ok then NextSession(baseUrl, afterInit, notifyReply) else afterInit)
        && wire == old(wire) + HttpTraffic(baseUrl, old(sessionId), InitializeRequest(old(requestId))) +
             (if ok then HttpTraffic(baseUrl, afterInit, InitializedNotification) else [])
      ensures initialized == (ok || old(initialized))
    {
      baseUrl := Some(NormalizeUrl(url));
      connectionType := Http;
      var id := NextId();
      var response := SendHttp(InitializeRequest(id), initReply);
      if HandshakeAccepted(response) {
        initialized := true;
        var _ := SendHttp(InitializedNotification, notifyReply);
        ok := true;
      } else {
        ok := false;
      }
    }

    /** `close`: drop the child and the HTTP state; the id counter keeps running. */
    method Close()
      requires Valid()
      modifies this`process, this`connectionType, this`baseUrl, this`sessionId, this`initialized
      ensures Valid() && Disconnected()
      ensures requestId == old(requestId) && wire == old(wire)
    {
      if process.Some? {
        process := None;
      }
      connectionType := NoConnection;
      baseUrl := None;
      sessionId := None;
      initialized := false;
    }
  }
}
