/**
 * The connector layer: a transport that exchanges JSON-RPC envelopes with one
 * endpoint, and the default high-level operations derived from
 * `send_request`. The transports' I/O is replaced by an oracle: the sequence
 * of replies the endpoint gives, one per request, in order.
 */
module Connectors {
  import opened Wrappers
  import opened Json
  import opened Strings
  import opened Errors
  import opened Protocol

  datatype ConnectorConfig = ConnectorConfig(url: string, timeoutSecs: nat, retryAttempts: nat)

  /** `ConnectorConfig::default()`. */
  function DefaultConfig(): (c: ConnectorConfig)
    ensures c.url == "http://localhost:3000" && c.timeoutSecs == 30 && c.retryAttempts == 3
  {
    ConnectorConfig("http://localhost:3000", 30, 3)
  }

  /** The two transports: an HTTP endpoint, or a subprocess with command and arguments. */
  datatype Transport = Http(config: ConnectorConfig) | Stdio(command: string, args: seq<string>)

  /**
   * What an endpoint does when a connector talks to it: whether its
   * process can be started (subprocess transport only), and the outcome of
   * each successive request: a parsed response, or the transport error
   * (I/O failure or unparsable reply) the connector reports instead.
   */
  datatype Endpoint = Endpoint(spawns: bool, replies: seq<Result<JsonRpcResponse>>)

  /** The id of the n-th request a connector sends (a stand-in for a v4 UUID). */
  function RequestId(n: nat): string {
    "req-" + NatToString(n)
  }

  // ---------------------------------------------------------------------------
  // Requests of the default operations
  // ---------------------------------------------------------------------------

  /** The handshake parameters: protocol version, client capabilities and client info. */
  function InitializeParams(): Value {
    Object(map[
      "protocolVersion" := Str(MCP_VERSION),
      "capabilities" := Object(map["sampling" := EmptyObject]),
      "clientInfo" := Object(map["name" := Str("mcp-framework"), "version" := Str("0.1.0")])])
  }

  function InitializeRequest(id: string): JsonRpcRequest {
    NewRequest("initialize", Some(InitializeParams()), id)
  }

  function ListToolsRequest(id: string): JsonRpcRequest {
    NewRequest("tools/list", None, id)
  }

  function CallToolRequest(id: string, toolName: string, arguments: Value): JsonRpcRequest {
    NewRequest("tools/call", Some(Object(map["name" := Str(toolName), "arguments" := arguments])), id)
  }

  function ListResourcesRequest(id: string): JsonRpcRequest {
    NewRequest("resources/list", None, id)
  }

  function ReadResourceRequest(id: string, uri: string): JsonRpcRequest {
    NewRequest("resources/read", Some(Object(map["uri" := Str(uri)])), id)
  }

  function ListPromptsRequest(id: string): JsonRpcRequest {
    NewRequest("prompts/list", None, id)
  }

  /** `get_prompt` sends `arguments: {}` when none are given. */
  function GetPromptRequest(id: string, name: string, arguments: Option<Value>): JsonRpcRequest {
    NewRequest("prompts/get", Some(Object(map["name" := Str(name), "arguments" := arguments.GetOr(EmptyObject)])), id)
  }

  /** The shape of the seven requests: method names, and which carry parameters. */
  lemma RequestShapes(id: string, name: string, uri: string, arguments: Value)
    ensures ListToolsRequest(id).methodName == "tools/list" && ListToolsRequest(id).params.None?
    ensures ListResourcesRequest(id).methodName == "resources/list" && ListResourcesRequest(id).params.None?
    ensures ListPromptsRequest(id).methodName == "prompts/list" && ListPromptsRequest(id).params.None?
    ensures CallToolRequest(id, name, arguments).methodName == "tools/call"
    ensures CallToolRequest(id, name, arguments).params == Some(Object(map["name" := Str(name), "arguments" := arguments]))
    ensures GetPromptRequest(id, name, None).params.value.fields["arguments"] == EmptyObject
    ensures GetPromptRequest(id, name, Some(arguments)).params.value.fields["arguments"] == arguments
    ensures ReadResourceRequest(id, uri).params == Some(Object(map["uri" := Str(uri)]))
    ensures EncodeRequest(ListToolsRequest(id)).fields["params"] == EmptyObject
  {
  }

  // ---------------------------------------------------------------------------
  // Reply decoding: the result / error / neither decision of every operation
  // ---------------------------------------------------------------------------

  /**
   * The decision every default operation makes on the outcome of
   * `send_request`: a transport error propagates; a `result` is decoded
   * (even when an `error` is present too); otherwise an `error` becomes a
   * `ServerError` with its message; otherwise an `InternalError`.
   */
  function Unwrap<T>(reply: Result<JsonRpcResponse>, decode: Value -> Result<T>, missing: string): (r: Result<T>)
    ensures reply.Err? ==> r == Err(reply.error)
    ensures reply.Ok? && reply.value.result.Some? ==> r == decode(reply.value.result.value)
  {
    match reply
    case Err(e) => Err(e)
    case Ok(resp) =>
      if resp.result.Some? then decode(resp.result.value)
      else if resp.error.Some? then Err(ServerError(resp.error.value.message))
      else Err(InternalError(missing))
  }

  const NO_RESULT := "No result in response"

  /** A listing result: the array under `key`, decoded element by element, or `InvalidRequest(invalid)`. */
  function ListingFrom<T>(result: Value, key: string, decode: Value -> Option<T>, invalid: string): (r: Result<seq<T>>)
    ensures r.Ok? ==> result.Object? && key in result.fields && DecodeArray(result.fields[key], decode) == Some(r.value)
    ensures r.Err? ==> r.error == InvalidRequest(invalid)
  {
    match Get(result, key)
    case Some(items) =>
      (match DecodeArray(items, decode)
      case Some(xs) => Ok(xs)
      case None => Err(InvalidRequest(invalid)))
    case None => Err(InvalidRequest(invalid))
  }

  /** The text of the first item of `contents`, which `read_resource` returns. */
  function ResourceTextFrom(result: Value): (r: Result<string>)
    ensures r.Ok? ==> (result.Object? && "contents" in result.fields && result.fields["contents"].Array?
      && |result.fields["contents"].items| > 0 && GetStr(result.fields["contents"].items[0], "text") == Some(r.value))
    ensures r.Err? ==> r.error == InvalidRequest("Invalid resource content")
  {
    match Get(result, "contents")
    case Some(Array(items)) =>
      if |items| > 0 && GetStr(items[0], "text").Some? then Ok(GetStr(items[0], "text").value)
      else Err(InvalidRequest("Invalid resource content"))
    case _ => Err(InvalidRequest("Invalid resource content"))
  }

  /** A tool result read from a `tools/call` result; serde's explanation after the prefix is not modelled. */
  function ToolResultFrom(result: Value): (r: Result<ToolResult>)
    ensures r.Ok? <==> DecodeToolResult(result).Some?
    ensures r.Ok? ==> DecodeToolResult(result) == Some(r.value)
    ensures r.Err? ==> r.error == InvalidRequest("Invalid tool result: ")
  {
    match DecodeToolResult(result)
    case Some(t) => Ok(t)
    case None => Err(InvalidRequest("Invalid tool result: "))
  }

  function InitializeReply(reply: Result<JsonRpcResponse>): Result<Value> {
    Unwrap(reply, (v: Value) => Ok(v), "No result or error in response")
  }

  function ListToolsReply(reply: Result<JsonRpcResponse>): Result<seq<Tool>> {
    Unwrap(reply, (v: Value) => ListingFrom(v, "tools", DecodeTool, "Invalid tools response"), NO_RESULT)
  }

  function CallToolReply(reply: Result<JsonRpcResponse>): Result<ToolResult> {
    Unwrap(reply, ToolResultFrom, NO_RESULT)
  }

  function ListResourcesReply(reply: Result<JsonRpcResponse>): Result<seq<Resource>> {
    Unwrap(reply, (v: Value) => ListingFrom(v, "resources", DecodeResource, "Invalid resources response"), NO_RESULT)
  }

  function ReadResourceReply(reply: Result<JsonRpcResponse>): Result<string> {
    Unwrap(reply, ResourceTextFrom, NO_RESULT)
  }

  function ListPromptsReply(reply: Result<JsonRpcResponse>): Result<seq<Prompt>> {
    Unwrap(reply, (v: Value) => ListingFrom(v, "prompts", DecodePrompt, "Invalid prompts response"), NO_RESULT)
  }

  function GetPromptReply(reply: Result<JsonRpcResponse>): Result<Value> {
    Unwrap(reply, (v: Value) => Ok(v), NO_RESULT)
  }

  /** A transport error reaches the caller of every operation unchanged. */
  lemma TransportErrorsPropagate(e: Error)
    ensures InitializeReply(Err(e)) == Err(e) && GetPromptReply(Err(e)) == Err(e)
    ensures ListToolsReply(Err(e)) == Err(e) && CallToolReply(Err(e)) == Err(e)
    ensures ListResourcesReply(Err(e)) == Err(e) && ReadResourceReply(Err(e)) == Err(e)
    ensures ListPromptsReply(Err(e)) == Err(e)
  {
  }

  /** A response carrying only an `error` becomes a `ServerError` with the server's message, in every operation. */
  lemma ErrorResponsesBecomeServerErrors(resp: JsonRpcResponse)
    requires resp.result.None? && resp.error.Some?
    ensures var e := ServerError(resp.error.value.message);
      InitializeReply(Ok(resp)) == Err(e) && GetPromptReply(Ok(resp)) == Err(e)
      && ListToolsReply(Ok(resp)) == Err(e) && CallToolReply(Ok(resp)) == Err(e)
      && ListResourcesReply(Ok(resp)) == Err(e) && ReadResourceReply(Ok(resp)) == Err(e)
      && ListPromptsReply(Ok(resp)) == Err(e)
  {
  }

  /** A response with neither `result` nor `error` is an internal error; `initialize` words it differently. */
  lemma EmptyResponsesAreInternalErrors(resp: JsonRpcResponse)
    requires resp.result.None? && resp.error.None?
    ensures InitializeReply(Ok(resp)) == Err(InternalError("No result or error in response"))
    ensures var e := InternalError("No result in response");
      GetPromptReply(Ok(resp)) == Err(e)
      && ListToolsReply(Ok(resp)) == Err(e) && CallToolReply(Ok(resp)) == Err(e)
      && ListResourcesReply(Ok(resp)) == Err(e) && ReadResourceReply(Ok(resp)) == Err(e)
      && ListPromptsReply(Ok(resp)) == Err(e)
  {
  }

  /** A `result` wins over an `error` carried in the same response. */
  lemma ResultTakesPrecedence(resp: JsonRpcResponse)
    requires resp.result.Some? && resp.error.Some?
    ensures InitializeReply(Ok(resp)) == Ok(resp.result.value)
    ensures GetPromptReply(Ok(resp)) == Ok(resp.result.value)
  {
  }

  /** The response a server gives to `tools/list` with the tools it holds. */
  function ToolsResponse(id: string, tools: seq<Tool>): JsonRpcResponse {
    JsonRpcResponse(JSONRPC_VERSION, id, Some(Object(map["tools" := EncodeArray(tools, EncodeTool)])), None)
  }

  /** `list_tools` reads back exactly the tools a server listed, in order. */
  lemma ListToolsReplyRoundTrip(id: string, tools: seq<Tool>)
    ensures ListToolsReply(Ok(ToolsResponse(id, tools))) == Ok(tools)
  {
    ToolsRoundTrip(tools);
    var result := ToolsResponse(id, tools).result.value;
    assert ListingFrom(result, "tools", DecodeTool, "Invalid tools response") == Ok(tools);
  }

  /** `list_resources` reads back exactly the resources a server listed, in order. */
  lemma ListResourcesReplyRoundTrip(id: string, resources: seq<Resource>)
    ensures ListResourcesReply(Ok(JsonRpcResponse(JSONRPC_VERSION, id,
      Some(Object(map["resources" := EncodeArray(resources, EncodeResource)])), None))) == Ok(resources)
  {
    ResourcesRoundTrip(resources);
    var result := Object(map["resources" := EncodeArray(resources, EncodeResource)]);
    assert ListingFrom(result, "resources", DecodeResource, "Invalid resources response") == Ok(resources);
  }

  /** `list_prompts` reads back exactly the prompts a server listed, in order. */
  lemma ListPromptsReplyRoundTrip(id: string, prompts: seq<Prompt>)
    ensures ListPromptsReply(Ok(JsonRpcResponse(JSONRPC_VERSION, id,
      Some(Object(map["prompts" := EncodeArray(prompts, EncodePrompt)])), None))) == Ok(prompts)
  {
    PromptsRoundTrip(prompts);
    var result := Object(map["prompts" := EncodeArray(prompts, EncodePrompt)]);
    assert ListingFrom(result, "prompts", DecodePrompt, "Invalid prompts response") == Ok(prompts);
  }

  /** A tool result written by a server is read back unchanged by `call_tool`. */
  lemma CallToolReplyRoundTrip(id: string, t: ToolResult)
    ensures CallToolReply(Ok(JsonRpcResponse(JSONRPC_VERSION, id, Some(EncodeToolResult(t)), None))) == Ok(t)
  {
    ToolResultRoundTrip(t);
  }

  /** `read_resource` returns the first text of `contents`, whatever follows it. */
  lemma ReadResourceTakesFirstText(id: string, text: string, rest: seq<Value>)
    ensures ReadResourceReply(Ok(JsonRpcResponse(JSONRPC_VERSION, id,
      Some(Object(map["contents" := Array([Object(map["text" := Str(text)])] + rest)])), None))) == Ok(text)
  {
  }

  // ---------------------------------------------------------------------------
  // The connector object
  // ---------------------------------------------------------------------------

  /** The replies left after one has been consumed. */
  function Drop<T>(xs: seq<T>): (r: seq<T>)
    ensures xs == [] ==> r == []
    ensures xs != [] ==> xs == [xs[0]] + r
  {
    if xs == [] then [] else xs[1..]
  }

  /**
   * What `send_request` answers in a connector whose flag is `connected` and
   * whose endpoint still has `replies` to give: `Not connected` unless
   * connected, else the next reply (an exhausted endpoint reads as a closed
   * stream).
   */
  function ReplyFrom(connected: bool, replies: seq<Result<JsonRpcResponse>>): (r: Result<JsonRpcResponse>)
    ensures !connected ==> r == Err(ConnectionError("Not connected"))
    ensures connected && replies != [] ==> r == replies[0]
    ensures connected && replies == [] ==> r.Err? && r.error.ConnectionError?
  {
    if !connected then Err(ConnectionError("Not connected"))
    else if replies == [] then Err(ConnectionError("EOF while reading response"))
    else replies[0]
  }

  /**
   * An HTTP or subprocess connector. `connected` is the connection flag both
   * transports keep; `replies` is what the endpoint still has to say;
   * `sent` logs the requests that reached the endpoint, and `nextId` numbers
   * the requests built so far.
   */
  class Connector {
    const transport: Transport
    const spawns: bool
    var connected: bool
    var replies: seq<Result<JsonRpcResponse>>
    var sent: seq<JsonRpcRequest>
    var nextId: nat

    /** `HttpConnector::new` / `StdioConnector::new`: not connected, nothing sent. */
    constructor (transport: Transport, endpoint: Endpoint)
      ensures this.transport == transport && spawns == endpoint.spawns
      ensures !connected && replies == endpoint.replies && sent == [] && nextId == 0
    {
      this.transport := transport;
      spawns := endpoint.spawns;
      connected := false;
      replies := endpoint.replies;
      sent := [];
      nextId := 0;
    }

    function IsConnected(): bool
      reads this
    {
      connected
    }

    /** What `send_request` answers now. */
    function NextReply(): Result<JsonRpcResponse>
      reads this
    {
      ReplyFrom(connected, replies)
    }

    /**
     * The state after `req` was built from id `id0` and handed to
     * `send_request` in state (`connected0`, `replies0`, `sent0`): only a
     * connected transport passes it on and consumes a reply.
     */
    ghost predicate Exchanged(req: JsonRpcRequest, connected0: bool, replies0: seq<Result<JsonRpcResponse>>,
                              sent0: seq<JsonRpcRequest>, id0: nat)
      reads this
    {
      connected == connected0 && nextId == id0 + 1
      && (connected0 ==> sent == sent0 + [req] && replies == Drop(replies0))
      && (!connected0 ==> sent == sent0 && replies == replies0)
    }

    /** `connect`: HTTP always succeeds; a subprocess connects only if its process starts. */
    method Connect() returns (r: Result<()>)
      modifies this
      ensures r.Ok? <==> transport.Http? || spawns
      ensures r.Ok? ==> connected
      ensures r.Err? ==> r == Err(ConnectionError("Failed to spawn process")) && connected == old(connected)
      ensures replies == old(replies) && sent == old(sent) && nextId == old(nextId)
    {
      if transport.Stdio? && !spawns {
        return Err(ConnectionError("Failed to spawn process"));
      }
      connected := true;
      r := Ok(());
    }

    /** `disconnect`: always succeeds and clears the flag. */
    method Disconnect() returns (r: Result<()>)
      modifies this
      ensures r == Ok(()) && !connected
      ensures replies == old(replies) && sent == old(sent) && nextId == old(nextId)
    {
      connected := false;
      r := Ok(());
    }

    /** A fresh request id. */
    method NewId() returns (id: string)
      modifies this
      ensures id == RequestId(old(nextId)) && nextId == old(nextId) + 1
      ensures connected == old(connected) && replies == old(replies) && sent == old(sent)
    {
      id := RequestId(nextId);
      nextId := nextId + 1;
    }

    /** `send_request`: refused with `Not connected` unless connected; otherwise one exchange with the endpoint. */
    method SendRequest(req: JsonRpcRequest) returns (r: Result<JsonRpcResponse>)
      modifies this
      ensures r == old(NextReply())
      ensures connected == old(connected) && nextId == old(nextId)
      ensures old(connected) ==> sent == old(sent) + [req] && replies == Drop(old(replies))
      ensures !old(connected) ==> sent == old(sent) && replies == old(replies)
    {
      r := NextReply();
      if connected {
        sent := sent + [req];
        replies := Drop(replies);
      }
    }

    method Initialize() returns (r: Result<Value>)
      modifies this
      ensures r == InitializeReply(old(NextReply()))
      ensures Exchanged(InitializeRequest(RequestId(old(nextId))), old(connected), old(replies), old(sent), old(nextId))
    {
      var id := NewId();
      var reply := SendRequest(InitializeRequest(id));
      r := InitializeReply(reply);
    }

    method ListTools() returns (r: Result<seq<Tool>>)
      modifies this
      ensures r == ListToolsReply(old(NextReply()))
      ensures Exchanged(ListToolsRequest(RequestId(old(nextId))), old(connected), old(replies), old(sent), old(nextId))
    {
      var id := NewId();
      var reply := SendRequest(ListToolsRequest(id));
      r := ListToolsReply(reply);
    }

    method CallTool(toolName: string, arguments: Value) returns (r: Result<ToolResult>)
      modifies this
      ensures r == CallToolReply(old(NextReply()))
      ensures Exchanged(CallToolRequest(RequestId(old(nextId)), toolName, arguments), old(connected), old(replies), old(sent), old(nextId))
    {
      var id := NewId();
      var reply := SendRequest(CallToolRequest(id, toolName, arguments));
      r := CallToolReply(reply);
    }

    method ListResources() returns (r: Result<seq<Resource>>)
      modifies this
      ensures r == ListResourcesReply(old(NextReply()))
      ensures Exchanged(ListResourcesRequest(RequestId(old(nextId))), old(connected), old(replies), old(sent), old(nextId))
    {
      var id := NewId();
      var reply := SendRequest(ListResourcesRequest(id));
      r := ListResourcesReply(reply);
    }

    method ReadResource(uri: string) returns (r: Result<string>)
      modifies this
      ensures r == ReadResourceReply(old(NextReply()))
      ensures Exchanged(ReadResourceRequest(RequestId(old(nextId)), uri), old(connected), old(replies), old(sent), old(nextId))
    {
      var id := NewId();
      var reply := SendRequest(ReadResourceRequest(id, uri));
      r := ReadResourceReply(reply);
    }

    method ListPrompts() returns (r: Result<seq<Prompt>>)
      modifies this
      ensures r == ListPromptsReply(old(NextReply()))
      ensures Exchanged(ListPromptsRequest(RequestId(old(nextId))), old(connected), old(replies), old(sent), old(nextId))
    {
      var id := NewId();
      var reply := SendRequest(ListPromptsRequest(id));
      r := ListPromptsReply(reply);
    }

    method GetPrompt(name: string, arguments: Option<Value>) returns (r: Result<Value>)
      modifies this
      ensures r == GetPromptReply(old(NextReply()))
      ensures Exchanged(GetPromptRequest(RequestId(old(nextId)), name, arguments), old(connected), old(replies), old(sent), old(nextId))
    {
      var id := NewId();
      var reply := SendRequest(GetPromptRequest(id, name, arguments));
      r := GetPromptReply(reply);
    }
  }
}
