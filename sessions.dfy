/**
 * A session to one MCP server: a connector plus caches of the server's
 * tools (by name), resources (by URI) and prompts (by name).
 */
module Sessions {
  import opened Wrappers
  import opened Json
  import opened Errors
  import opened Protocol
  import opened Catalog
  import opened Connectors

  function ToolName(t: Tool): string { t.name }
  function ResourceUri(r: Resource): string { r.uri }
  function PromptName(p: Prompt): string { p.name }

  /** A cache after a refresh: rebuilt from a successful listing, untouched by a failed one. */
  function Refreshed<T>(cache: map<string, T>, listing: Result<seq<T>>, key: T -> string): map<string, T> {
    if listing.Ok? then IndexBy(listing.value, key) else cache
  }

  /** After a successful refresh, looking a name up finds the last listed tool of that name, and only listed names are found. */
  lemma RefreshedToolLookup(cache: map<string, Tool>, tools: seq<Tool>, i: nat)
    requires i < |tools|
    requires forall j :: i < j < |tools| ==> tools[j].name != tools[i].name
    ensures var m := Refreshed(cache, Ok(tools), ToolName);
      tools[i].name in m && m[tools[i].name] == tools[i]
      && forall n :: n in m <==> exists j :: 0 <= j < |tools| && tools[j].name == n
  {
    IndexByLastWins(tools, ToolName, i);
    var m := IndexBy(tools, ToolName);
    forall n ensures n in m <==> exists j :: 0 <= j < |tools| && tools[j].name == n {
      if n in m {
        var j :| 0 <= j < |tools| && ToolName(tools[j]) == n;
      }
    }
  }

  class Session {
    const name: string
    const connector: Connector
    var initialized: bool
    var toolsCache: map<string, Tool>
    var resourcesCache: map<string, Resource>
    var promptsCache: map<string, Prompt>

    /** Every cache entry is stored under its own name (or URI). */
    ghost predicate Valid()
      reads this
    {
      (forall k :: k in toolsCache ==> toolsCache[k].name == k)
      && (forall k :: k in resourcesCache ==> resourcesCache[k].uri == k)
      && (forall k :: k in promptsCache ==> promptsCache[k].name == k)
    }

    /** `Session::new`: not initialized, empty caches. */
    constructor (name: string, connector: Connector)
      ensures this.name == name && this.connector == connector
      ensures !initialized && toolsCache == map[] && resourcesCache == map[] && promptsCache == map[]
      ensures Valid()
    {
      this.name := name;
      this.connector := connector;
      initialized := false;
      toolsCache := map[];
      resourcesCache := map[];
      promptsCache := map[];
    }

    predicate IsInitialized()
      reads this
    {
      initialized
    }

    predicate IsConnected()
      reads this, connector
    {
      connector.connected
    }

    /** `connect`: the connector's connect, nothing else. */
    method Connect() returns (r: Result<()>)
      modifies connector
      ensures r.Ok? <==> connector.transport.Http? || connector.spawns
      ensures r.Ok? ==> connector.connected
      ensures r.Err? ==> r == Err(ConnectionError("Failed to spawn process")) && connector.connected == old(connector.connected)
      ensures connector.replies == old(connector.replies) && connector.sent == old(connector.sent)
      ensures connector.nextId == old(connector.nextId)
    {
      r := connector.Connect();
    }

    /** `disconnect`: disconnects and forgets the handshake; the caches are kept. */
    method Disconnect() returns (r: Result<()>)
      modifies this, connector
      ensures r == Ok(()) && !connector.connected && !initialized
      ensures toolsCache == old(toolsCache) && resourcesCache == old(resourcesCache) && promptsCache == old(promptsCache)
      ensures connector.replies == old(connector.replies) && connector.sent == old(connector.sent)
      ensures connector.nextId == old(connector.nextId)
    {
      r := connector.Disconnect();
      initialized := false;
    }

    /** `refresh_tools`: on a successful listing the cache becomes exactly that listing by name; on failure nothing changes. */
    method RefreshTools() returns (r: Result<()>)
      requires Valid()
      modifies this, connector
      ensures Valid()
      ensures var listing := ListToolsReply(old(connector.NextReply()));
        (r.Ok? <==> listing.Ok?) && (r.Err? ==> r.error == listing.error)
        && toolsCache == Refreshed(old(toolsCache), listing, ToolName)
      ensures initialized == old(initialized)
      ensures resourcesCache == old(resourcesCache) && promptsCache == old(promptsCache)
      ensures connector.Exchanged(ListToolsRequest(RequestId(old(connector.nextId))),
        old(connector.connected), old(connector.replies), old(connector.sent), old(connector.nextId))
    {
      var listed := connector.ListTools();
      if listed.Err? {
        return Err(listed.error);
      }
      toolsCache := Index(listed.value, ToolName);
      r := Ok(());
    }

    /** `refresh_resources`: as `refresh_tools`, keyed by URI. */
    method RefreshResources() returns (r: Result<()>)
      requires Valid()
      modifies this, connector
      ensures Valid()
      ensures var listing := ListResourcesReply(old(connector.NextReply()));
        (r.Ok? <==> listing.Ok?) && (r.Err? ==> r.error == listing.error)
        && resourcesCache == Refreshed(old(resourcesCache), listing, ResourceUri)
      ensures initialized == old(initialized)
      ensures toolsCache == old(toolsCache) && promptsCache == old(promptsCache)
      ensures connector.Exchanged(ListResourcesRequest(RequestId(old(connector.nextId))),
        old(connector.connected), old(connector.replies), old(connector.sent), old(connector.nextId))
    {
      var listed := connector.ListResources();
      if listed.Err? {
        return Err(listed.error);
      }
      resourcesCache := Index(listed.value, ResourceUri);
      r := Ok(());
    }

    /** `refresh_prompts`: as `refresh_tools`, for prompts. */
    method RefreshPrompts() returns (r: Result<()>)
      requires Valid()
      modifies this, connector
      ensures Valid()
      ensures var listing := ListPromptsReply(old(connector.NextReply()));
        (r.Ok? <==> listing.Ok?) && (r.Err? ==> r.error == listing.error)
        && promptsCache == Refreshed(old(promptsCache), listing, PromptName)
      ensures initialized == old(initialized)
      ensures toolsCache == old(toolsCache) && resourcesCache == old(resourcesCache)
      ensures connector.Exchanged(ListPromptsRequest(RequestId(old(connector.nextId))),
        old(connector.connected), old(connector.replies), old(connector.sent), old(connector.nextId))
    {
      var listed := connector.ListPrompts();
      if listed.Err? {
        return Err(listed.error);
      }
      promptsCache := Index(listed.value, PromptName);
      r := Ok(());
    }

    /**
     * `initialize`: the handshake, then a tools refresh whose failure is
     * swallowed. A failed handshake changes nothing in the session.
     */
    method Initialize() returns (r: Result<Value>)
      requires Valid()
      modifies this, connector
      ensures Valid()
      ensures r == InitializeReply(old(connector.NextReply()))
      ensures r.Ok? ==> (initialized
        && toolsCache == Refreshed(old(toolsCache),
             ListToolsReply(ReplyFrom(old(connector.connected), Drop(old(connector.replies)))), ToolName)
        && connector.sent == old(connector.sent)
             + [InitializeRequest(RequestId(old(connector.nextId))), ListToolsRequest(RequestId(old(connector.nextId) + 1))])
      ensures r.Ok? ==> connector.replies == Drop(Drop(old(connector.replies))) && connector.nextId == old(connector.nextId) + 2
      ensures r.Err? ==> initialized == old(initialized) && toolsCache == old(toolsCache)
      ensures resourcesCache == old(resourcesCache) && promptsCache == old(promptsCache)
      ensures connector.connected == old(connector.connected)
    {
      var caps := connector.Initialize();
      if caps.Err? {
        return caps;
      }
      initialized := true;
      var refreshed := RefreshTools();
      r := caps;
    }

    /** `get_tools`: every cached tool exactly once. */
    method GetTools() returns (tools: seq<Tool>)
      ensures |tools| == |toolsCache|
      ensures forall t :: t in tools <==> t in toolsCache.Values
    {
      ghost var ks;
      tools, ks := Values(toolsCache);
    }

    /** `get_resources`: every cached resource exactly once. */
    method GetResources() returns (resources: seq<Resource>)
      ensures |resources| == |resourcesCache|
      ensures forall r :: r in resources <==> r in resourcesCache.Values
    {
      ghost var ks;
      resources, ks := Values(resourcesCache);
    }

    /** `get_prompts`: every cached prompt exactly once. */
    method GetPrompts() returns (prompts: seq<Prompt>)
      ensures |prompts| == |promptsCache|
      ensures forall p :: p in prompts <==> p in promptsCache.Values
    {
      ghost var ks;
      prompts, ks := Values(promptsCache);
    }

    /** `get_tool`: the cached tool of that name, if any. */
    function GetTool(toolName: string): (r: Option<Tool>)
      reads this
      ensures r.Some? <==> toolName in toolsCache
      ensures r.Some? ==> r.value == toolsCache[toolName]
      ensures Valid() && r.Some? ==> r.value.name == toolName
    {
      if toolName in toolsCache then Some(toolsCache[toolName]) else None
    }

    /** `get_resource`: the cached resource of that URI, if any. */
    function GetResource(uri: string): (r: Option<Resource>)
      reads this
      ensures r.Some? <==> uri in resourcesCache
      ensures r.Some? ==> r.value == resourcesCache[uri]
      ensures Valid() && r.Some? ==> r.value.uri == uri
    {
      if uri in resourcesCache then Some(resourcesCache[uri]) else None
    }

    /** `get_prompt_info`: the cached prompt of that name, if any. */
    function GetPromptInfo(promptName: string): (r: Option<Prompt>)
      reads this
      ensures r.Some? <==> promptName in promptsCache
      ensures r.Some? ==> r.value == promptsCache[promptName]
      ensures Valid() && r.Some? ==> r.value.name == promptName
    {
      if promptName in promptsCache then Some(promptsCache[promptName]) else None
    }

    /** `call_tool`: forwarded to the connector, whatever the cache holds. */
    method CallTool(toolName: string, arguments: Value) returns (r: Result<ToolResult>)
      modifies connector
      ensures r == CallToolReply(old(connector.NextReply()))
      ensures connector.Exchanged(CallToolRequest(RequestId(old(connector.nextId)), toolName, arguments),
        old(connector.connected), old(connector.replies), old(connector.sent), old(connector.nextId))
    {
      r := connector.CallTool(toolName, arguments);
    }

    /** `read_resource`: forwarded to the connector. */
    method ReadResource(uri: string) returns (r: Result<string>)
      modifies connector
      ensures r == ReadResourceReply(old(connector.NextReply()))
      ensures connector.Exchanged(ReadResourceRequest(RequestId(old(connector.nextId)), uri),
        old(connector.connected), old(connector.replies), old(connector.sent), old(connector.nextId))
    {
      r := connector.ReadResource(uri);
    }

    /** `get_prompt`: forwarded to the connector. */
    method GetPrompt(promptName: string, arguments: Option<Value>) returns (r: Result<Value>)
      modifies connector
      ensures r == GetPromptReply(old(connector.NextReply()))
      ensures connector.Exchanged(GetPromptRequest(RequestId(old(connector.nextId)), promptName, arguments),
        old(connector.connected), old(connector.replies), old(connector.sent), old(connector.nextId))
    {
      r := connector.GetPrompt(promptName, arguments);
    }
  }
}
