/**
 * The MCP server: a registry of tools, resources and prompts, and the
 * dispatcher that answers JSON-RPC requests from it.
 *
 * The tool handler and the optional resource and prompt handlers are
 * oracles. The fresh UUID of a tool result is a parameter.
 */
module Server {
  import opened Wrappers
  import opened Json
  import opened Errors
  import opened Protocol
  import opened Catalog

  /** The protocol version the server announces. */
  const PROTOCOL_VERSION: string := "2024-11-05"

  /** `ServerConfig`; the capabilities are carried in their JSON form. */
  datatype ServerConfig = ServerConfig(name: string, version: string, capabilities: Value)

  /** `ServerConfig::default`; default capabilities have every part absent, so they serialise as `{}`. */
  function DefaultServerConfig(): (c: ServerConfig)
    ensures c.name == "MCP Server" && c.version == "1.0.0" && c.capabilities == EmptyObject
  {
    ServerConfig("MCP Server", "1.0.0", EmptyObject)
  }

  /** `ToolHandler::execute`. */
  type ToolHandler = (string, Value) -> Result<seq<ResultContent>>

  /** `ResourceHandler`: `get` by uri, and `list`. */
  datatype ResourceHandler = ResourceHandler(get: string -> Result<Resource>, list: Result<seq<Resource>>)

  /** `PromptHandler`: `get` by name, and `list`. */
  datatype PromptHandler = PromptHandler(get: string -> Result<Prompt>, list: Result<seq<Prompt>>)

  /** The error member of a response for a failed handler: its code and its display text. */
  function ErrorOf(e: Error): (r: JsonRpcError)
    ensures r.code == ErrorCode(e) && r.code < 0 && r.message == Display(e) && r.data.None?
  {
    JsonRpcError(ErrorCode(e), Display(e), None)
  }

  /** The methods `handle_request` answers; everything else is "Method not found". */
  predicate Routed(methodName: string) {
    methodName in {"initialize", "tools/list", "tools/call", "resources/list", "prompts/list"}
  }

  class McpServer {
    const config: ServerConfig
    const toolHandler: ToolHandler
    var tools: map<string, Tool>
    var resources: map<string, Resource>
    var prompts: map<string, Prompt>
    var resourceHandler: Option<ResourceHandler>
    var promptHandler: Option<PromptHandler>

    /** Tools and prompts are registered under their names, resources under their uris. */
    ghost predicate Valid()
      reads this
    {
      (forall n :: n in tools ==> tools[n].name == n)
      && (forall u :: u in resources ==> resources[u].uri == u)
      && (forall n :: n in prompts ==> prompts[n].name == n)
    }

    /** `McpServer::new`: empty registry, no resource or prompt handler. */
    constructor (config: ServerConfig, toolHandler: ToolHandler)
      ensures this.config == config && this.toolHandler == toolHandler
      ensures tools == map[] && resources == map[] && prompts == map[]
      ensures resourceHandler.None? && promptHandler.None?
      ensures Valid()
    {
      this.config := config;
      this.toolHandler := toolHandler;
      tools := map[];
      resources := map[];
      prompts := map[];
      resourceHandler := None;
      promptHandler := None;
    }

    // -------------------------------------------------------------------------
    // Registration
    // -------------------------------------------------------------------------

    /** `register_tool`: stores the tool under its name, replacing any earlier one. */
    method RegisterTool(tool: Tool)
      requires Valid()
      modifies this
      ensures Valid()
      ensures tools == old(tools)[tool.name := tool]
      ensures resources == old(resources) && prompts == old(prompts)
      ensures resourceHandler == old(resourceHandler) && promptHandler == old(promptHandler)
    {
      tools := tools[tool.name := tool];
    }

    /** `register_resource`: stores the resource under its uri, replacing any earlier one. */
    method RegisterResource(resource: Resource)
      requires Valid()
      modifies this
      ensures Valid()
      ensures resources == old(resources)[resource.uri := resource]
      ensures tools == old(tools) && prompts == old(prompts)
      ensures resourceHandler == old(resourceHandler) && promptHandler == old(promptHandler)
    {
      resources := resources[resource.uri := resource];
    }

    /** `register_prompt`: stores the prompt under its name, replacing any earlier one. */
    method RegisterPrompt(prompt: Prompt)
      requires Valid()
      modifies this
      ensures Valid()
      ensures prompts == old(prompts)[prompt.name := prompt]
      ensures tools == old(tools) && resources == old(resources)
      ensures resourceHandler == old(resourceHandler) && promptHandler == old(promptHandler)
    {
      prompts := prompts[prompt.name := prompt];
    }

    /** `set_resource_handler`. */
    method SetResourceHandler(handler: ResourceHandler)
      requires Valid()
      modifies this
      ensures Valid()
      ensures resourceHandler == Some(handler) && promptHandler == old(promptHandler)
      ensures tools == old(tools) && resources == old(resources) && prompts == old(prompts)
    {
      resourceHandler := Some(handler);
    }

    /** `set_prompt_handler`. */
    method SetPromptHandler(handler: PromptHandler)
      requires Valid()
      modifies this
      ensures Valid()
      ensures promptHandler == Some(handler) && resourceHandler == old(resourceHandler)
      ensures tools == old(tools) && resources == old(resources) && prompts == old(prompts)
    {
      promptHandler := Some(handler);
    }

    // -------------------------------------------------------------------------
    // Handlers
    // -------------------------------------------------------------------------

    /** `handle_initialize`: the protocol version, the capabilities and the server's name and version, under id "1". */
    function HandleInitialize(): (r: JsonRpcResponse)
      ensures r.jsonrpc == "2.0" && r.id == "1" && r.error.None? && r.result.Some?
      ensures Get(r.result.value, "protocolVersion") == Some(Str(PROTOCOL_VERSION))
      ensures Get(r.result.value, "capabilities") == Some(config.capabilities)
      ensures var info := Get(r.result.value, "serverInfo");
        info.Some? && GetStr(info.value, "name") == Some(config.name) && GetStr(info.value, "version") == Some(config.version)
    {
      var info := Object(map["name" := Str(config.name), "version" := Str(config.version)]);
      JsonRpcResponse(JSONRPC_VERSION, "1", Some(Object(map[
        "protocolVersion" := Str(PROTOCOL_VERSION),
        "capabilities" := config.capabilities,
        "serverInfo" := info])), None)
    }

    /** `handle_tools_list`: every registered tool, once each, in registry order. */
    method HandleToolsList() returns (r: Result<seq<Tool>>)
      ensures r.Ok? && Lists(r.value, tools)
    {
      var listed, names := Values(tools);
      r := Ok(listed);
    }

    /**
     * `handle_tool_call`: an unregistered name is refused before the handler
     * runs; otherwise the handler's content, with `id` standing for the fresh
     * UUID and no error flag.
     */
    function HandleToolCall(name: string, arguments: Value, id: string): (r: Result<ToolResult>)
      reads this
      ensures name !in tools ==> r == Err(ToolNotFound(name))
      ensures name in tools ==>
        (toolHandler(name, arguments).Err? ==> r == Err(toolHandler(name, arguments).error))
        && (toolHandler(name, arguments).Ok? ==> r == Ok(ToolResult(Some(id), toolHandler(name, arguments).value, None)))
    {
      if name !in tools then Err(ToolNotFound(name))
      else
        match toolHandler(name, arguments)
        case Err(e) => Err(e)
        case Ok(content) => Ok(ToolResult(Some(id), content, None))
    }

    /** `handle_resources_list`: the handler's list if one is set, otherwise every registered resource once. */
    method HandleResourcesList() returns (r: Result<seq<Resource>>)
      ensures resourceHandler.Some? ==> r == resourceHandler.value.list
      ensures resourceHandler.None? ==> r.Ok? && Lists(r.value, resources)
    {
      if resourceHandler.Some? {
        r := resourceHandler.value.list;
      } else {
        var listed, uris := Values(resources);
        r := Ok(listed);
      }
    }

    /**
     * `handle_resource_read`: the uri of the resource the handler returns, or
     * of the registered one; `ResourceNotFound` when neither has it.
     */
    function HandleResourceRead(uri: string): (r: Result<string>)
      reads this
      requires Valid()
      ensures resourceHandler.None? ==> (uri in resources <==> r.Ok?) && (r.Ok? ==> r.value == uri)
      ensures resourceHandler.None? && uri !in resources ==> r == Err(ResourceNotFound(uri))
      ensures resourceHandler.Some? ==> var got := resourceHandler.value.get(uri);
        (got.Ok? ==> r == Ok(got.value.uri)) && (got.Err? ==> r == Err(got.error))
    {
      if resourceHandler.Some? then
        match resourceHandler.value.get(uri)
        case Ok(resource) => Ok(resource.uri)
        case Err(e) => Err(e)
      else if uri in resources then Ok(resources[uri].uri)
      else Err(ResourceNotFound(uri))
    }

    /** `handle_prompts_list`: the handler's list if one is set, otherwise every registered prompt once. */
    method HandlePromptsList() returns (r: Result<seq<Prompt>>)
      ensures promptHandler.Some? ==> r == promptHandler.value.list
      ensures promptHandler.None? ==> r.Ok? && Lists(r.value, prompts)
    {
      if promptHandler.Some? {
        r := promptHandler.value.list;
      } else {
        var listed, names := Values(prompts);
        r := Ok(listed);
      }
    }

    /**
     * `handle_prompt_get`: the handler's answer if one is set, otherwise the
     * registered prompt; a missing prompt is reported as `ToolNotFound`.
     */
    function HandlePromptGet(name: string): (r: Result<Prompt>)
      reads this
      requires Valid()
      ensures promptHandler.Some? ==> r == promptHandler.value.get(name)
      ensures promptHandler.None? ==> (r.Ok? <==> name in prompts) && (r.Ok? ==> r.value.name == name)
      ensures promptHandler.None? && name !in prompts ==> r == Err(ToolNotFound(name))
    {
      if promptHandler.Some? then promptHandler.value.get(name)
      else if name in prompts then Ok(prompts[name])
      else Err(ToolNotFound(name))
    }

    // -------------------------------------------------------------------------
    // Dispatch
    // -------------------------------------------------------------------------

    /**
     * `handle_request`: answers `request` under its own id with exactly one
     * of `result` and `error`. `callId` stands for the UUID of a tool result.
     */
    method HandleRequest(request: JsonRpcRequest, callId: string) returns (response: JsonRpcResponse)
      requires Valid()
      ensures response.jsonrpc == "2.0" && response.id == request.id
      ensures response.result.Some? != response.error.Some?
      ensures !Routed(request.methodName) ==>
        response.error == Some(JsonRpcError(-32601, "Method not found: " + request.methodName, None))
      ensures request.methodName == "initialize" ==> response.result == HandleInitialize().result
      ensures request.methodName == "tools/list" ==> (response.result.Some?
        && (var listed := Get(response.result.value, "tools");
            listed.Some? && (var decoded := DecodeArray(listed.value, DecodeTool);
              decoded.Some? && Lists(decoded.value, tools))))
      ensures request.methodName == "tools/call" ==> CallAnswered(request, callId, response)
      ensures request.methodName == "resources/list" ==> ResourcesAnswered(response)
      ensures request.methodName == "prompts/list" ==> PromptsAnswered(response)
    {
      var result: Value;
      match request.methodName {
        case "initialize" =>
          result := HandleInitialize().result.value;
        case "tools/list" =>
          var listed := HandleToolsList();
          ToolsRoundTrip(listed.value);
          result := Object(map["tools" := EncodeArray(listed.value, EncodeTool)]);
        case "tools/call" =>
          if request.params.None? {
            return JsonRpcResponse(JSONRPC_VERSION, request.id, None, Some(JsonRpcError(-32602, "Missing params", None)));
          }
          var params := request.params.value;
          var name := GetStr(params, "name");
          if name.None? {
            return JsonRpcResponse(JSONRPC_VERSION, request.id, None, Some(JsonRpcError(-32602, "Missing tool name", None)));
          }
          var arguments := Get(params, "arguments").GetOr(EmptyObject);
          var called := HandleToolCall(name.value, arguments, callId);
          if called.Err? {
            return JsonRpcResponse(JSONRPC_VERSION, request.id, None, Some(ErrorOf(called.error)));
          }
          result := EncodeToolResult(called.value);
        case "resources/list" =>
          var listed := HandleResourcesList();
          if listed.Err? {
            return JsonRpcResponse(JSONRPC_VERSION, request.id, None, Some(ErrorOf(listed.error)));
          }
          ResourcesRoundTrip(listed.value);
          result := Object(map["resources" := EncodeArray(listed.value, EncodeResource)]);
        case "prompts/list" =>
          var listed := HandlePromptsList();
          if listed.Err? {
            return JsonRpcResponse(JSONRPC_VERSION, request.id, None, Some(ErrorOf(listed.error)));
          }
          PromptsRoundTrip(listed.value);
          result := Object(map["prompts" := EncodeArray(listed.value, EncodePrompt)]);
        case _ =>
          return JsonRpcResponse(JSONRPC_VERSION, request.id, None,
            Some(JsonRpcError(-32601, "Method not found: " + request.methodName, None)));
      }
      response := JsonRpcResponse(JSONRPC_VERSION, request.id, Some(result), None);
    }

    /**
     * How `tools/call` is answered: missing params and a missing or
     * non-string `name` are -32602 errors; otherwise the arguments (`{}` when
     * absent) go to `handle_tool_call`, whose error becomes the response's
     * error and whose result is the response's result.
     */
    ghost predicate CallAnswered(request: JsonRpcRequest, callId: string, response: JsonRpcResponse)
      reads this
    {
      if request.params.None? then response.error == Some(JsonRpcError(-32602, "Missing params", None))
      else
        var name := GetStr(request.params.value, "name");
        if name.None? then response.error == Some(JsonRpcError(-32602, "Missing tool name", None))
        else
          var called := HandleToolCall(name.value, Get(request.params.value, "arguments").GetOr(EmptyObject), callId);
          (called.Err? ==> response.error == Some(ErrorOf(called.error)))
          && (called.Ok? ==> response.result == Some(EncodeToolResult(called.value)))
    }

    /**
     * How `resources/list` is answered: a failing handler's error becomes the
     * response's error; otherwise the result's `resources` member decodes to
     * the handler's listing, or, without a handler, to every registered
     * resource once.
     */
    ghost predicate ResourcesAnswered(response: JsonRpcResponse)
      reads this
    {
      if resourceHandler.Some? && resourceHandler.value.list.Err? then
        response.error == Some(ErrorOf(resourceHandler.value.list.error))
      else
        response.result.Some?
        && var listed := Get(response.result.value, "resources");
           listed.Some?
           && var decoded := DecodeArray(listed.value, DecodeResource);
              decoded.Some?
              && (resourceHandler.Some? ==> decoded.value == resourceHandler.value.list.value)
              && (resourceHandler.None? ==> Lists(decoded.value, resources))
    }

    /** How `prompts/list` is answered, in the same way as `resources/list`. */
    ghost predicate PromptsAnswered(response: JsonRpcResponse)
      reads this
    {
      if promptHandler.Some? && promptHandler.value.list.Err? then
        response.error == Some(ErrorOf(promptHandler.value.list.error))
      else
        response.result.Some?
        && var listed := Get(response.result.value, "prompts");
           listed.Some?
           && var decoded := DecodeArray(listed.value, DecodePrompt);
              decoded.Some?
              && (promptHandler.Some? ==> decoded.value == promptHandler.value.list.value)
              && (promptHandler.None? ==> Lists(decoded.value, prompts))
    }
  }

  /** A call to an unregistered tool is answered with the tool-not-found code, whatever the handler would do. */
  lemma UnknownToolRefused(server: McpServer, request: JsonRpcRequest, callId: string, response: JsonRpcResponse, name: string)
    requires request.methodName == "tools/call" && request.params.Some?
    requires GetStr(request.params.value, "name") == Some(name) && name !in server.tools
    requires server.CallAnswered(request, callId, response)
    ensures response.error == Some(JsonRpcError(-32001, "Tool not found: " + name, None))
  {
  }

  /** `resources/read` and `prompts/get` are not routed: they get "Method not found". */
  lemma ReadAndGetNotRouted()
    ensures !Routed("resources/read") && !Routed("prompts/get")
  {
  }
}
