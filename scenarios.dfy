/**
  Whole sessions driven through the client's operations, with the server's
  answers given as inputs: what a caller can conclude from the operations'
  contracts alone.
 */
module Scenarios {
  import opened Wrappers
  import opened Strings
  import opened Json
  import opened Url
  import opened Messages
  import opened Transport
  import opened Client
  import EventStream

  /** A client that never connected answers every operation with its failure
      value, sends nothing, still uses one id per operation, and can be closed
      twice. */
  method NeverConnected(parse: string -> Option<Json>, peer: Peer)
    returns (tools: Outcome<Json>, called: Outcome<Option<Json>>, resources: Outcome<Json>,
             read: Outcome<Option<Json>>, nextId: int, closed: bool)
    ensures tools == Returns(JArr([])) && resources == Returns(JArr([]))
    ensures called == Returns(None) && read == Returns(None)
    ensures nextId == 5
    ensures closed
  {
    var c := new McpClient(parse);
    tools := c.ListTools(peer);
    called := c.CallTool("echo", None, peer);
    resources := c.ListResources(peer);
    read := c.ReadResource("file:///notes", None, peer);
    assert c.wire == [];
    c.Close();
    c.Close();
    nextId := c.requestId;
    closed := c.Disconnected();
  }

  /** Over stdio: a child that answers the handshake and then a tool list gives a
      connected client and that list; the notification in between reads nothing. */
  method StdioSession(parse: string -> Option<Json>, command: seq<string>,
                      initLine: string, toolsLine: string, entries: seq<Json>)
    returns (connected: bool, tools: Outcome<Json>)
    requires command != []
    requires Strip(initLine) != "" && HandshakeAccepted(parse(Strip(initLine)))
    requires Strip(toolsLine) != ""
    requires parse(Strip(toolsLine)) == Some(JObj(map["result" := JObj(map["tools" := JArr(entries)])]))
    requires forall k :: 0 <= k < |entries| ==> entries[k].JObj?
    ensures connected
    ensures tools == Returns(JArr(entries))
  {
    var c := new McpClient(parse);
    StdioRequestReadsOneLine(InitializeRequest(1), initLine, parse);
    StdioNotificationNotRead(InitializedNotification, "", parse);
    connected := c.ConnectStdio(command, Spawned(true), Open(initLine), Open(""));
    assert c.wire == [StdioWrite(InitializeRequest(1)), StdioRead, StdioWrite(InitializedNotification)];
    assert c.initialized && c.connectionType == Stdio && c.process.Some? && c.requestId == 2;
    StdioRequestReadsOneLine(ListToolsRequest(2), toolsLine, parse);
    assert c.SendReply(ListToolsRequest(2), Peer(Open(toolsLine), NetworkError)) == parse(Strip(toolsLine));
    tools := c.ListTools(Peer(Open(toolsLine), NetworkError));
    ListingOfWellFormed(parse(Strip(toolsLine)), "tools", entries);
  }

  /** Over HTTP: the token a server sends with its handshake answer is carried by
      the next request, here a tool call. */
  method HttpSession(parse: string -> Option<Json>, host: string, initBody: string, answer: Json,
                     toolName: string, arguments: Option<Json>, callReply: HttpOutcome)
    returns (connected: bool, ghost post: Exchange)
    requires Strip(initBody) != ""
    requires EventStream.Decode(initBody, parse) == Returns(answer) && HandshakeAccepted(Some(answer))
    ensures connected
    ensures post == HttpPost(NormalizeUrl(host), CallToolRequest(2, toolName, arguments),
                             RequestHeaders(Some("abc123")), TimeoutSeconds)
    ensures SessionHeader in post.headers && post.headers[SessionHeader] == "abc123"
  {
    var c := new McpClient(parse);
    connected := c.ConnectHttp(host, Response(200, Some("abc123"), initBody), Response(202, None, ""));
    var _ := c.CallTool(toolName, arguments, Peer(Open(""), callReply));
    post := c.wire[|c.wire| - 1];
    SessionHeaderSentIff(Some("abc123"));
  }

  /** Over HTTP: an error status with an event-stream body reaches the caller as
      the decoded error answer, not as `None`. */
  method HttpErrorAnswer(parse: string -> Option<Json>, host: string, initBody: string, answer: Json,
                         msg: Message, errorPayload: string, error: Json)
    returns (connected: bool, reply: Option<Json>)
    requires Strip(initBody) != ""
    requires EventStream.Decode(initBody, parse) == Returns(answer) && HandshakeAccepted(Some(answer))
    requires '\n' !in errorPayload && |errorPayload| > 0 && errorPayload[0] == '{'
    requires !IsSpace(errorPayload[|errorPayload| - 1])
    requires parse(errorPayload) == Some(error)
    ensures connected
    ensures reply == Some(error)
  {
    var c := new McpClient(parse);
    connected := c.ConnectHttp(host, Response(200, None, initBody), Response(202, None, ""));
    var body := EventStream.Frame("message", errorPayload);
    ErrorStatusStreamIsData(400, "message", errorPayload, parse);
    reply := c.SendMessage(msg, Peer(Open(""), Response(400, None, body)));
  }
}
