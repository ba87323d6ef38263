# MCP client session model

A Dafny model of `MCPClient`, the client of `client/ormcp_client_example.py`. The
client talks JSON-RPC 2.0 to a tool server over one of two transports:

- a child process, with one JSON line per message on its stdin and stdout;
- an HTTP endpoint, with one POST per message and an answer that is either JSON or an event stream.

It runs the `initialize` / `notifications/initialized` handshake, hands out request
ids, gates every later message on a completed handshake and reads the `result` of
the answers to `tools/list`, `tools/call`, `resources/list` and `resources/read`.

What the operating system, the network and the server do is an input of each
operation:

- `SpawnOutcome` says whether the child starts and whether its pipes are present.
- `StdioLink` says whether the child is still running, whether the write succeeds, and which line `readline` returns.
- `HttpOutcome` says whether the POST raises and, if not, gives the status, the `mcp-session-id` header and the body.
- JSON parsing is the function `parse: string -> Option<Json>`, an oracle that answers `None` where `json.loads` raises.

The client (`Client.McpClient`) is a class with the Python object's fields:

- `process`, `baseUrl`, `connectionType`, `requestId`, `initialized` and `sessionId`;
- a ghost log `wire` of every write, read and POST, so the contracts can say what is sent and when nothing is.

Its methods are proved against specification functions (`StdioReply`, `HttpReply`,
`Listing`, `ResultField`, `HandshakeAccepted`, `EventStream.Decode`, ...). Lemmas
about those functions state the behaviour.

Python's dynamic typing is kept:

- `response and "result" in response` is evaluated on any JSON value. A list or string containing `"result"` raises `TypeError` at `response["result"]`.
- `.get` on a non-dict raises `AttributeError`.
- Such uncaught exceptions are the `Raises` case of `Outcome`.
- An exception the source catches becomes its `None`/`False` return.

Modules: `Wrappers`, `Strings` (Python `strip`, `split`, `startswith`, `endswith`,
`in`, `lower`), `Json`, `Url`, `EventStream`, `Messages`, `Transport`, `Client`,
`Demo`, `Scenarios` (whole sessions derived from the contracts).

## Behaviour of the code worth knowing

- A failed `connect_stdio` or `connect_http` does not reset the client. `initialized` keeps its previous value, so after a successful HTTP connect a failed stdio connect leaves `initialized` true with `connectionType == Stdio`. `connectionType` (and, for HTTP, the base URL) is set even on failure.
- The handshake test is `response and not response.get("error")`. So an `error` member that is `null`, `false`, `0`, `""`, `[]` or `{}` counts as no error. An empty object or a non-object answer fails the handshake.
- Only status 200 counts as success. Any other status, 202 or 204 included, goes through the error branch. There a body that is not an event stream goes to the parser, so an empty body gives `None` exactly when the parser rejects the empty text, as `json.loads` does.
- The `mcp-session-id` request header is sent only for a non-empty token (Python truthiness). A response header overwrites the stored token on every status, even with an empty value.
- The error-branch test for event streams is `startswith('event:')` or `startswith('data:')` on the unstripped body. The decoder itself only recognizes lines starting with `data: ` (with the space).
- A data line whose payload does not parse raises with that payload. There is no fallback to the whole body in that case.

## Model

| member | source | states |
|---|---|---|
| `Url.NormalizeUrl` | client/ormcp_client_example.py:187-193 | the result ends with `/mcp/`, starts with the given URL (only a suffix is appended), and is the URL itself when it already ends with `/mcp/` |
| `Url.NormalizeIdempotent` | client/ormcp_client_example.py:187-193 | normalizing a normalized URL changes nothing |
| `Url.NormalizeFourShapes` | client/ormcp_client_example.py:187-193 | `h`, `h/mcp`, `h/` and `h/mcp/` all normalize to `h/mcp/` for an `h` ending in neither `/` nor `/mcp` |
| `Strings.TrimStartShape` | client/ormcp_client_example.py:243 | left half of `strip()`: the result is the suffix left after removing only leading white space, and does not start with white space |
| `Strings.TrimEndShape` | client/ormcp_client_example.py:243 | right half of `strip()`: the result is the prefix left after removing only trailing white space, and does not end with white space |
| `Strings.StripIsTrimmedInfix` | client/ormcp_client_example.py:243 | `strip()` yields a contiguous piece of the text surrounded only by white space, with no white space at its ends |
| `Strings.StripPadded` | client/ormcp_client_example.py:243 | stripping white-space padding off a text gives back exactly that text |
| `Strings.Split` | client/ormcp_client_example.py:243 | `split('\n')` yields at least one piece |
| `Strings.SplitPiecesLackSeparator` | client/ormcp_client_example.py:243 | no piece of `split('\n')` contains the separator |
| `Strings.JoinSplit` | client/ormcp_client_example.py:243 | joining the pieces of `split` with the separator restores the text |
| `Strings.SplitTwoPieces` | client/ormcp_client_example.py:243 | two texts without the separator, joined by it, split into exactly those two pieces |
| `Strings.SplitWithoutSeparator` | client/ormcp_client_example.py:243 | a text without the separator is a single piece |
| `EventStream.FirstDataIndex` | client/ormcp_client_example.py:246-249 | the index found is of a line starting with `data: ` and no earlier line starts so; no index means no line starts so |
| `EventStream.ScanForData` | client/ormcp_client_example.py:246-249 | the loop that stops at the first line starting with `data: ` yields that line's text after the prefix, or nothing when no line starts so |
| `EventStream.ParseSseResponse` | client/ormcp_client_example.py:241-261 | the scanning loop with `break` computes exactly the decoding `Decode` |
| `EventStream.Decode` | client/ormcp_client_example.py:251-261 | decoding can only return a value or raise `ValueError`; it never fails otherwise |
| `EventStream.DecodeUsesFirstDataLine` | client/ormcp_client_example.py:243-255 | the first line starting with `data: `, when its payload is non-empty, decides the result: that payload parsed, or `ValueError` with that payload |
| `EventStream.DecodeWithoutDataLine` | client/ormcp_client_example.py:256-261 | with no line starting with `data: ` the whole stripped body is parsed, else `ValueError` with the body |
| `EventStream.DecodeEmptyFirstDataLine` | client/ormcp_client_example.py:246-261 | when the first line starting with `data: ` has an empty payload, the whole stripped body is parsed (else `ValueError` with the body), whatever data lines follow |
| `EventStream.FrameLines` | client/ormcp_client_example.py:243 | a frame `event: e`, `data: p`, blank line is stripped and split into exactly its two lines |
| `EventStream.FramedMatchesDirect` | client/ormcp_client_example.py:241-261 | a one-line JSON text framed as `event: …` / `data: <text>` decodes exactly as the text sent alone, success and failure alike |
| `Messages.ToJson` | client/ormcp_client_example.py:386-390 | a message's dict has `jsonrpc: "2.0"` and `method`, carries `id` exactly when the message has one and `params` exactly when it has them, and nothing else |
| `Messages.NotificationHasNoIdKey` | client/ormcp_client_example.py:285-288 | the `"id" not in message` test recognizes exactly the JSON-RPC notifications |
| `Messages.ArgumentsOrEmpty` | client/ormcp_client_example.py:414 | `arguments or {}`: truthy arguments are passed on, missing or empty ones become `{}` |
| `Messages.HandshakeAccepted` | client/ormcp_client_example.py:216 | only a non-empty object answer can pass the handshake test |
| `Messages.HandshakeAcceptedIff` | client/ormcp_client_example.py:216 | the handshake succeeds exactly on a non-empty object answer whose `error` is missing or false-like |
| `Messages.ResultField` | client/ormcp_client_example.py:418-423 | the `result` handling raises only `TypeError` |
| `Messages.ResultFieldOfObject` | client/ormcp_client_example.py:457-462 | on an object answer the `result` member is returned unchanged and its absence gives `None`; no answer gives `None`; only non-object answers can raise |
| `Messages.Listing` | client/ormcp_client_example.py:392-400 | a non-empty listing comes only from an object answer that has a `result` member |
| `Messages.ListingOfWellFormed` | client/ormcp_client_example.py:435-440 | an answer whose `result` is an object holding a list of dicts under the key yields that list |
| `Messages.ListingOfFailure` | client/ormcp_client_example.py:398-400 | no answer, or an object answer without `result` (an error answer), yields `[]` |
| `Transport.RequestHeaders` | client/ormcp_client_example.py:314-321 | the headers are among `Accept`, `Content-Type` and `mcp-session-id`, and a session header is sent only for a held, non-empty token |
| `Transport.SessionHeaderSentIff` | client/ormcp_client_example.py:314-321 | the `mcp-session-id` header is present exactly when a non-empty token is held and carries it; `Accept` and `Content-Type` are always the fixed values |
| `Transport.StdioReply` | client/ormcp_client_example.py:263-302 | an answer exists only after a successful write by a child with pipes; a request's answer is the parsed stripped line read, a notification's is `{"success": True}` |
| `Transport.StdioNotificationNotRead` | client/ormcp_client_example.py:285-288 | an id-less message is answered `{"success": True}` after the write whatever stdout holds, and the traffic is the write alone |
| `Transport.StdioRequestReadsOneLine` | client/ormcp_client_example.py:290-298 | a request writes then reads one line; end of stream or a blank line gives `None`, otherwise the stripped line is parsed |
| `Transport.StdioWithoutChild` | client/ormcp_client_example.py:265-280 | with no child, an exited child or a closed stdin nothing is written and the answer is `None` |
| `Transport.HttpBodyReply` | client/ormcp_client_example.py:336-356 | a blank 200 response is answered `{"success": True}`; a non-blank 200 body, and an error-status body starting with `event:` or `data:`, give `None` exactly when the event-stream decoder raises |
| `Transport.ErrorStatusStreamIsData` | client/ormcp_client_example.py:346-354 | a non-200 response with an event-stream body yields the decoded payload as data, not `None` |
| `Transport.NextSession` | client/ormcp_client_example.py:330-332 | the token afterwards is the old one or the response's header, and a held token is never dropped |
| `Transport.SessionCapture` | client/ormcp_client_example.py:330-333 | a response header replaces the stored token; without one the token is unchanged |
| `Client.McpClient.constructor` | client/ormcp_client_example.py:21-27 | a new client is disconnected, uninitialized, has sent nothing and will hand out id 1 first |
| `Client.McpClient.NextId` | client/ormcp_client_example.py:235-239 | returns the current id and leaves the counter exactly one larger |
| `Client.McpClient.SendStdio` | client/ormcp_client_example.py:263-302 | answer and traffic are those of `StdioReply` / `StdioTraffic` for the current child and whether its pipes are present |
| `Client.McpClient.SendHttp` | client/ormcp_client_example.py:304-360 | without an endpoint nothing is posted and the answer is `None`; otherwise exactly one POST to the stored URL with `RequestHeaders` of the old token and a 30-second timeout; the token becomes the response's header when present; the answer is `HttpReply` |
| `Client.McpClient.SendMessage` | client/ormcp_client_example.py:362-374 | before the handshake: `None`, no traffic, token unchanged; after it: exactly the transport named by `connectionType`, `None` for no connection |
| `Client.McpClient.ListTools` | client/ormcp_client_example.py:382-400 | consumes exactly one id even when refused, sends one `tools/list` request with it, returns the `tools` listing of the answer, `[]` before a connect |
| `Client.McpClient.CallTool` | client/ormcp_client_example.py:402-423 | consumes exactly one id, sends one `tools/call` with the name and `arguments or {}`, returns the answer's `result`, `None` before a connect |
| `Client.McpClient.ListResources` | client/ormcp_client_example.py:425-443 | consumes exactly one id, sends one `resources/list` request, returns the `resources` listing, `[]` before a connect |
| `Client.McpClient.ReadResource` | client/ormcp_client_example.py:445-462 | consumes exactly one id, sends one `resources/read` with the URI, returns the answer's `result`, `None` before a connect |
| `Client.McpClient.ConnectStdio` | client/ormcp_client_example.py:29-118 | sets the stdio connection; uses an id and sends `initialize` only once the child runs with its pipes; succeeds exactly when that answer passes the handshake test; only then marks the client initialized and writes the id-less `notifications/initialized`; on failure `initialized` keeps its old value |
| `Client.McpClient.ConnectHttp` | client/ormcp_client_example.py:183-233 | stores the normalized endpoint and the http connection, uses one id for `initialize`, succeeds exactly when the answer passes the handshake test, and only then marks the client initialized and posts the notification carrying the token just captured |
| `Client.McpClient.Close` | client/ormcp_client_example.py:526-541 | afterwards process, connection type, endpoint and token are empty and the client is uninitialized; the id counter and the traffic are unchanged, from any state |
| `Demo.DemoValue` | client/ormcp_client_example.py:507-524 | the demo value has the JSON type declared for the five handled types; any other declaration gets `null` |
| `Demo.DemoNameCase` | client/ormcp_client_example.py:509-517 | the string choice ignores the case of the name (it tests the lower-cased name); the integer choice tests `num` case-sensitively |
| `Demo.DemoArgument` | client/ormcp_client_example.py:502-503 | a property without a declared `type` gets a string; the value is `null` exactly when the declared type is none of the five handled |
| `Demo.SchemaProperties` | client/ormcp_client_example.py:497-498 | reaching the schema's properties can fail only with `AttributeError` |
| `Demo.DemoArguments` | client/ormcp_client_example.py:494-505 | succeeds exactly when every schema property is a dict, has exactly the schema's property names as keys, and holds for each the demo value of its declared type (`"string"` by default) |
| `Scenarios.NeverConnected` | client/ormcp_client_example.py:362-366 | on a never-connected client the four operations return `[]`, `None`, `[]`, `None`, still use ids 1 to 4, and closing twice leaves it disconnected |
| `Scenarios.StdioSession` | client/ormcp_client_example.py:95-107 | a child answering the handshake and then a tool list gives a successful connect and exactly that list |
| `Scenarios.HttpSession` | client/ormcp_client_example.py:320-332 | the token `abc123` sent with the handshake answer is carried by the POST of the following tool call (id 2) |
| `Scenarios.HttpErrorAnswer` | client/ormcp_client_example.py:346-354 | after a connect, a 400 response framed as an event stream makes `send_message` return the framed error, not `None` |

## Left out

- Process management: starting the child with `subprocess.Popen`, `terminate`, `wait(timeout=5)`, `kill` and `stop_server` are not modelled. A spawn is the input `SpawnOutcome`, and `close` only forgets the process.
- The stderr reader thread and the `time.sleep` pauses are not modelled. They are concurrency and timing and influence no result.
- `connect_to_running_server` is not modelled. It depends on the psutil library.
- `capture_server_logs` is not modelled. Its body is empty.
- `demo_session`, `main` with its argument parsing and interactive loop, and all printing are not modelled. They are orchestration and console I/O.
- `requests.post`, `raise_for_status`, `json.dumps` and `json.loads` are not modelled. The POST is the input `HttpOutcome`. Each raising path is the `None` the source returns for it. Parsing is the oracle `parse`, also used for `response.json()`.
- Python's `None` has two forms in the model. A missing answer is `None`/`Returns(None)`, and a parsed JSON `null` is `Some(JNull)`/`Returns(Some(JNull))`, so the model keeps apart two cases the program merges. Every test the client applies treats `JNull` as false, so no operation decides differently on them.
- `ValueError` keeps only the text that failed to parse. The message prefixes `Failed to parse JSON data: ` and `No valid data found in response: ` are not kept. Only printing reads them.
- `Process.pipesOpen` is one flag for both pipes, so a child with stdin but no stdout is treated like one with no pipes at all. The source would still write a notification to such a child and acknowledge it. This cannot happen, because the child is always started with `stdout=subprocess.PIPE`.
- JSON numbers are integers. Floating point values and their truthiness are not modelled.
- Dicts are maps. Key order, and so the order of the demo arguments, is not modelled.
- `Strings.Lower` lowers ASCII letters only. Python's `str.lower` also lowers other Unicode letters.
- The `server_pid` parameter of `connect_stdio` is not modelled. The source never reads it.
- `Client.McpClient.ReadResource` takes the `arguments` parameter and, like the source, does not use it.
