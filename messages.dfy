/**
  The JSON-RPC 2.0 messages the client sends, and how it reads the answers:
  the handshake test of the two connect methods and the `result` handling of
  `list_tools`, `call_tool`, `list_resources` and `read_resource`.  Answers are
  whatever the transport decoded, so every test is the Python one, applied to
  any JSON value.
 */
module Messages {
  import opened Wrappers
  import opened Json

  const JsonRpcVersion: string := "2.0"
  const ProtocolVersion: string := "2024-11-05"
  const ClientName: string := "python-mcp-client"
  const ClientVersion: string := "1.0.0"

  /** An outgoing request (with an id) or notification (without one). */
  datatype Message = Message(id: Option<int>, methodName: string, params: Option<Json>)

  /** The dict the client builds for a message: the version marker and the method
      always, `id` and `params` only when the message has them. */
  function ToJson(m: Message): (j: Json)
    ensures j.JObj?
    ensures "jsonrpc" in j.fields && j.fields["jsonrpc"] == JStr(JsonRpcVersion)
    ensures "method" in j.fields && j.fields["method"] == JStr(m.methodName)
    ensures "id" in j.fields <==> m.id.Some?
    ensures m.id.Some? ==> j.fields["id"] == JNum(m.id.value)
    ensures "params" in j.fields <==> m.params.Some?
    ensures m.params.Some? ==> j.fields["params"] == m.params.value
    ensures j.fields.Keys <= {"jsonrpc", "id", "method", "params"}
  {
    var base := map["jsonrpc" := JStr(JsonRpcVersion), "method" := JStr(m.methodName)];
    var withId := if m.id.Some? then base["id" := JNum(m.id.value)] else base;
    JObj(if m.params.Some? then withId["params" := m.params.value] else withId)
  }

  /** JSON-RPC 2.0, section 4.1: a message without an id is a notification and gets no reply. */
  predicate IsNotification(m: Message) {
    m.id.None?
  }

  /** The client recognizes notifications by the missing `"id"` key of their dict. */
  lemma NotificationHasNoIdKey(m: Message)
    ensures IsNotification(m) <==> "id" !in ToJson(m).fields
  {
  }

  const InitializeParams: Json := JObj(map[
    "protocolVersion" := JStr(ProtocolVersion),
    "capabilities" := JObj(map[
      "roots" := JObj(map["listChanged" := JBool(true)]),
      "sampling" := EmptyObject]),
    "clientInfo" := JObj(map["name" := JStr(ClientName), "version" := JStr(ClientVersion)])])

  function InitializeRequest(id: int): (m: Message) {
    Message(Some(id), "initialize", Some(InitializeParams))
  }

  const InitializedNotification: Message := Message(None, "notifications/initialized", None)

  function ListToolsRequest(id: int): (m: Message) {
    Message(Some(id), "tools/list", None)
  }

  /** `arguments or {}`: missing or empty arguments become the empty dict. */
  function ArgumentsOrEmpty(arguments: Option<Json>): (a: Json)
    ensures arguments.Some? && Truthy(arguments.value) ==> a == arguments.value
    ensures arguments.None? || !Truthy(arguments.value) ==> a == EmptyObject
  {
    if arguments.Some? && Truthy(arguments.value) then arguments.value else EmptyObject
  }

  function CallToolRequest(id: int, toolName: string, arguments: Option<Json>): (m: Message) {
    Message(Some(id), "tools/call",
      Some(JObj(map["name" := JStr(toolName), "arguments" := ArgumentsOrEmpty(arguments)])))
  }

  function ListResourcesRequest(id: int): (m: Message) {
    Message(Some(id), "resources/list", None)
  }

  function ReadResourceRequest(id: int, uri: string): (m: Message) {
    Message(Some(id), "resources/read", Some(JObj(map["uri" := JStr(uri)])))
  }

  /** The synthetic answer `{"success": True}` to a notification. */
  const SuccessAck: Json := JObj(map["success" := JBool(true)])

  /** `response and not response.get("error")`, evaluated inside the connect
      method's `try`, where the AttributeError of a non-dict answer means failure. */
  predicate HandshakeAccepted(response: Option<Json>)
    ensures HandshakeAccepted(response) ==> response.Some? && response.value.JObj? && response.value.fields != map[]
  {
    response.Some? && Truthy(response.value) &&
    match Get(response.value, "error", JNull)
    case Raises(_) => false
    case Returns(e) => !Truthy(e)
  }

  /** The handshake succeeds exactly on a non-empty JSON object whose `error`
      member is missing or false-like (`null`, `false`, `0`, `""`, `[]`, `{}`). */
  lemma HandshakeAcceptedIff(response: Option<Json>)
    ensures HandshakeAccepted(response) <==>
      response.Some? && response.value.JObj? && response.value.fields != map[] &&
      ("error" !in response.value.fields || !Truthy(response.value.fields["error"]))
  {
  }

  /** The result handling of `call_tool` and `read_resource`, and the first step of
      the two listings:
      `response["result"] if response and "result" in response else None`, with the
      TypeError Python raises when the answer is a list or string that contains
      `"result"`, or a number or `true`. */
  function ResultField(response: Option<Json>): (r: Outcome<Option<Json>>)
    ensures r.Raises? ==> r.error == TypeError
  {
    if response.None? || !Truthy(response.value) then Returns(None)
    else match In("result", response.value)
      case Raises(e) => Raises(e)
      case Returns(found) =>
        if !found then Returns(None)
        else match Subscript(response.value, "result")
          case Raises(e) => Raises(e)
          case Returns(v) => Returns(Some(v))
  }

  /** On an object answer the `result` member is returned as it is, and its
      absence (an error answer, say) gives `None`; only answers that are not
      objects can raise. */
  lemma ResultFieldOfObject(response: Option<Json>)
    ensures response.None? ==> ResultField(response) == Returns(None)
    ensures response.Some? && response.value.JObj? ==>
      ResultField(response) == Returns(
        if "result" in response.value.fields then Some(response.value.fields["result"]) else None)
    ensures ResultField(response).Raises? ==> response.Some? && !response.value.JObj?
  {
  }

  /** Python iterates a list, string or dict when printing it, calling `.get` on each
      entry: that fails unless every entry is a dict. */
  predicate EntriesAreObjects(items: Json) {
    match items
    case JArr(xs) => forall k :: 0 <= k < |xs| ==> xs[k].JObj?
    case JStr(s) => s == ""
    case JObj(fields) => fields == map[]
    case _ => true
  }

  /** The result handling of `list_tools` (key `"tools"`) and `list_resources`
      (key `"resources"`): the listed entries, `[]` on any failed answer. */
  function Listing(response: Option<Json>, key: string): (r: Outcome<Json>)
    ensures r.Returns? && r.value != JArr([]) ==>
      response.Some? && response.value.JObj? && "result" in response.value.fields
  {
    match ResultField(response)
    case Raises(e) => Raises(e)
    case Returns(result) =>
      if result.None? then Returns(JArr([]))
      else match Get(result.value, key, JArr([]))
        case Raises(e) => Raises(e)
        case Returns(items) =>
          match Len(items)
          case Raises(e) => Raises(e)
          case Returns(_) => if EntriesAreObjects(items) then Returns(items) else Raises(AttributeError)
  }

  /** A well-formed answer yields its list of entries. */
  lemma ListingOfWellFormed(response: Option<Json>, key: string, entries: seq<Json>)
    requires response.Some? && response.value.JObj?
    requires "result" in response.value.fields && response.value.fields["result"].JObj?
    requires var result := response.value.fields["result"].fields;
      key in result && result[key] == JArr(entries)
    requires forall k :: 0 <= k < |entries| ==> entries[k].JObj?
    ensures Listing(response, key) == Returns(JArr(entries))
  {
  }

  /** No answer, or an object answer without a `result` member, is an empty listing. */
  lemma ListingOfFailure(response: Option<Json>, key: string)
    requires response.None? || (response.value.JObj? && "result" !in response.value.fields)
    ensures Listing(response, key) == Returns(JArr([]))
  {
  }
}
