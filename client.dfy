/**
 * The MCP client: single-server mode (one URL, a stored session or a
 * throw-away session per call) and multi-server mode (a table of server
 * configurations and one session per server name). The transport is chosen
 * from the URL scheme. What a URL reaches is the client's `network`: the
 * endpoint behind each transport, which every freshly created connector
 * talks to from its first reply on.
 */
module Client {
  import opened Wrappers
  import opened Json
  import opened Strings
  import opened Errors
  import opened Protocol
  import opened Config
  import opened Catalog
  import opened Connectors
  import opened Sessions

  // ---------------------------------------------------------------------------
  // Transport selection
  // ---------------------------------------------------------------------------

  /**
   * `create_connector_from_url`: `http://` and `https://` give an HTTP
   * transport (timeout 30 s, 3 retries); `stdio://` gives a subprocess whose
   * command and arguments are the whitespace-separated words after the
   * scheme; anything else is refused.
   */
  function ParseLocator(url: string): (r: Result<Transport>)
    ensures r.Ok? && r.value.Http? <==> StartsWith(url, "http://") || StartsWith(url, "https://")
    ensures r.Ok? && r.value.Http? ==> r.value.config == ConnectorConfig(url, 30, 3)
    ensures r.Ok? && r.value.Stdio? ==>
      StartsWith(url, "stdio://") && SplitWhitespace(url[8..]) == [r.value.command] + r.value.args
    ensures r.Err? <==>
      !(StartsWith(url, "http://") || StartsWith(url, "https://")) && !(StartsWith(url, "stdio://") && SplitWhitespace(url[8..]) != [])
  {
    if StartsWith(url, "http://") || StartsWith(url, "https://") then
      Ok(Http(ConnectorConfig(url, 30, 3)))
    else if StartsWith(url, "stdio://") then
      var parts := SplitWhitespace(url[8..]);
      if parts == [] then Err(InvalidRequest("No command specified in stdio:// URL"))
      else Ok(Stdio(parts[0], parts[1..]))
    else
      Err(InvalidRequest("Unsupported URL scheme. Use http://, https://, or stdio:// - got: " + url))
  }

  /** The URL a server configuration is reached at: its `url`, else a `stdio://` URL built from command and arguments. */
  function LocatorOf(config: MCPServerConfig): (r: Result<string>)
    ensures config.url.Some? ==> r == Ok(config.url.value)
    ensures r.Err? <==> config.url.None? && (config.command.None? || config.args.None?)
    ensures r.Err? ==> r.error == InvalidRequest("Server '" + config.name + "' has no valid transport configuration")
  {
    if config.url.Some? then Ok(config.url.value)
    else if config.command.Some? && config.args.Some? then
      Ok("stdio://" + config.command.value + " " + Join(config.args.value, " "))
    else Err(InvalidRequest("Server '" + config.name + "' has no valid transport configuration"))
  }

  /** A `stdio://` URL reaches the subprocess named by the words after the scheme. */
  lemma StdioLocator(rest: string)
    requires SplitWhitespace(rest) != []
    ensures ParseLocator("stdio://" + rest) == Ok(Transport.Stdio(SplitWhitespace(rest)[0], SplitWhitespace(rest)[1..]))
  {
    var url := "stdio://" + rest;
    StartsWithConcat("stdio://", rest);
    StartsWithExcludes(url, "stdio://", "http://", 0);
    StartsWithExcludes(url, "stdio://", "https://", 0);
  }

  /** A subprocess configuration whose command and arguments are whitespace-free words reaches exactly that subprocess. */
  lemma StdioConfigReachesItsCommand(name: string, command: string, args: seq<string>)
    requires IsToken(command)
    requires forall i :: 0 <= i < |args| ==> IsToken(args[i])
    ensures LocatorOf(Config.Stdio(name, command, args)).Ok?
    ensures ParseLocator(LocatorOf(Config.Stdio(name, command, args)).value) == Ok(Transport.Stdio(command, args))
  {
    var rest := " " + Join(args, " ");
    assert LocatorOf(Config.Stdio(name, command, args)).value == "stdio://" + (command + rest);
    SplitAfterToken(command, rest);
    assert rest[1..] == Join(args, " ");
    SplitSkipsSpace(Join(args, " "));
    SplitJoin(args);
    StdioLocator(command + rest);
  }

  /** An argument containing a space is split in two on the way from configuration to subprocess. */
  lemma SpacedArgumentIsSplit(name: string, command: string, first: string, second: string)
    requires IsToken(command) && IsToken(first) && IsToken(second)
    ensures ParseLocator(LocatorOf(Config.Stdio(name, command, [first + " " + second])).value)
      == Ok(Transport.Stdio(command, [first, second]))
  {
    assert Join([first + " " + second], " ") == Join([first, second], " ");
    StdioConfigReachesItsCommand(name, command, [first, second]);
  }

  /** HTTP and HTTPS URLs are accepted as they are; other schemes are refused with the URL in the message. */
  lemma SchemeSelection(host: string)
    ensures ParseLocator("http://" + host) == Ok(Http(ConnectorConfig("http://" + host, 30, 3)))
    ensures ParseLocator("https://" + host) == Ok(Http(ConnectorConfig("https://" + host, 30, 3)))
    ensures ParseLocator("ftp://" + host) == Err(InvalidRequest(
      "Unsupported URL scheme. Use http://, https://, or stdio:// - got: " + "ftp://" + host))
  {
    StartsWithConcat("http://", host);
    StartsWithConcat("https://", host);
    var ftp := "ftp://" + host;
    StartsWithConcat("ftp://", host);
    StartsWithExcludes(ftp, "ftp://", "http://", 0);
    StartsWithExcludes(ftp, "ftp://", "https://", 0);
    StartsWithExcludes(ftp, "ftp://", "stdio://", 0);
    assert "Unsupported URL scheme. Use http://, https://, or stdio:// - got: " + ftp
      == "Unsupported URL scheme. Use http://, https://, or stdio:// - got: " + "ftp://" + host;
  }

  /** `stdio://` followed by nothing but whitespace names no command. */
  lemma BlankStdioRefused(blank: string)
    requires forall i :: 0 <= i < |blank| ==> IsWhitespace(blank[i])
    ensures ParseLocator("stdio://" + blank) == Err(InvalidRequest("No command specified in stdio:// URL"))
  {
    var url := "stdio://" + blank;
    StartsWithConcat("stdio://", blank);
    StartsWithExcludes(url, "stdio://", "http://", 0);
    StartsWithExcludes(url, "stdio://", "https://", 0);
    SplitEmptyIff(blank);
  }

  // ---------------------------------------------------------------------------
  // What opening a session to a URL yields
  // ---------------------------------------------------------------------------

  /**
   * The outcome of connecting to the server behind `url` and initializing:
   * its capabilities, or why that failed (bad URL, process that does not
   * start, failed handshake).
   */
  function Handshake(network: Transport -> Endpoint, url: string): Result<Value> {
    match ParseLocator(url)
    case Err(e) => Err(e)
    case Ok(t) =>
      if t.Stdio? && !network(t).spawns then Err(ConnectionError("Failed to spawn process"))
      else InitializeReply(ReplyFrom(true, network(t).replies))
  }

  /** The outcome of opening a session for a server configuration. */
  function ConfigHandshake(network: Transport -> Endpoint, config: MCPServerConfig): Result<Value> {
    match LocatorOf(config)
    case Err(e) => Err(e)
    case Ok(url) => Handshake(network, url)
  }

  /** The reply the first operation on a freshly opened session gets: the endpoint's third. */
  function OnDemandReply(network: Transport -> Endpoint, url: string): Result<JsonRpcResponse> {
    match ParseLocator(url)
    case Err(e) => Err(e)
    case Ok(t) => ReplyFrom(true, Drop(Drop(network(t).replies)))
  }

  /** What a session and its connector hold, as plain values. */
  datatype SessionView = SessionView(
    initialized: bool, toolsCache: map<string, Tool>, resourcesCache: map<string, Resource>,
    promptsCache: map<string, Prompt>, transport: Transport, connected: bool,
    replies: seq<Result<JsonRpcResponse>>, sent: seq<JsonRpcRequest>, nextId: nat)

  ghost function ViewOf(s: Session): SessionView
    reads s, s.connector
  {
    SessionView(s.initialized, s.toolsCache, s.resourcesCache, s.promptsCache, s.connector.transport,
      s.connector.connected, s.connector.replies, s.connector.sent, s.connector.nextId)
  }

  /** The reply the next request of a session in state `v` gets. */
  function NextReplyOf(v: SessionView): Result<JsonRpcResponse> {
    ReplyFrom(v.connected, v.replies)
  }

  /**
   * The states of sessions that were in states `before` once the tools of
   * every server but those `pending` were refreshed.
   */
  function Stepped(before: map<string, SessionView>, pending: set<string>): (m: map<string, SessionView>)
    ensures m.Keys == before.Keys
    ensures forall n :: n in before && n !in pending ==> m[n] == ToolsRefreshedView(before[n])
    ensures forall n :: n in before && n in pending ==> m[n] == before[n]
  {
    map n | n in before :: if n in pending then before[n] else ToolsRefreshedView(before[n])
  }

  /** Refreshing the tools of the pending server `name` takes the loop of `list_all_tools` one step. */
  lemma SteppedOne(before: map<string, SessionView>, pending: set<string>, name: string,
    views: map<string, SessionView>, views': map<string, SessionView>)
    requires name in pending && pending <= before.Keys && views == Stepped(before, pending) && views'.Keys == views.Keys
    requires views'[name] == ToolsRefreshedView(views[name])
    requires forall n :: n in views && n != name ==> views'[n] == views[n]
    ensures views' == Stepped(before, pending - {name})
  {
  }

  /**
   * A session after one `send_request` of `req`: the id counter moves on;
   * a connected transport logs the request and consumes a reply. Nothing
   * else changes.
   */
  function ExchangedView(v: SessionView, req: JsonRpcRequest): (w: SessionView)
    ensures w.initialized == v.initialized && w.toolsCache == v.toolsCache
    ensures w.resourcesCache == v.resourcesCache && w.promptsCache == v.promptsCache
    ensures w.transport == v.transport && w.connected == v.connected && w.nextId == v.nextId + 1
    ensures v.connected ==> w.sent == v.sent + [req] && w.replies == Drop(v.replies)
    ensures !v.connected ==> w.sent == v.sent && w.replies == v.replies
  {
    if v.connected then v.(sent := v.sent + [req], replies := Drop(v.replies), nextId := v.nextId + 1)
    else v.(nextId := v.nextId + 1)
  }

  /** A session after `refresh_tools`: one `tools/list` exchange, the tools cache rebuilt from its reply or kept on error. */
  function ToolsRefreshedView(v: SessionView): SessionView {
    ExchangedView(v, ListToolsRequest(RequestId(v.nextId)))
      .(toolsCache := Refreshed(v.toolsCache, ListToolsReply(NextReplyOf(v)), ToolName))
  }

  /** A session after `refresh_resources`. */
  function ResourcesRefreshedView(v: SessionView): SessionView {
    ExchangedView(v, ListResourcesRequest(RequestId(v.nextId)))
      .(resourcesCache := Refreshed(v.resourcesCache, ListResourcesReply(NextReplyOf(v)), ResourceUri))
  }

  /** A session after `refresh_prompts`. */
  function PromptsRefreshedView(v: SessionView): SessionView {
    ExchangedView(v, ListPromptsRequest(RequestId(v.nextId)))
      .(promptsCache := Refreshed(v.promptsCache, ListPromptsReply(NextReplyOf(v)), PromptName))
  }

  /** A session after `call_tool`: one `tools/call` exchange, caches and flag untouched. */
  function CalledView(v: SessionView, toolName: string, arguments: Value): SessionView {
    ExchangedView(v, CallToolRequest(RequestId(v.nextId), toolName, arguments))
  }

  /** A session after `read_resource`: one `resources/read` exchange, caches and flag untouched. */
  function ReadView(v: SessionView, uri: string): SessionView {
    ExchangedView(v, ReadResourceRequest(RequestId(v.nextId), uri))
  }

  /**
   * A session just opened over transport `t` to endpoint `ep`: connected,
   * initialized, `initialize` and `tools/list` sent, its tools cache filled
   * from the second reply (or left empty if that listing failed).
   */
  function OpenedView(t: Transport, ep: Endpoint): SessionView {
    SessionView(true, Refreshed(map[], ListToolsReply(ReplyFrom(true, Drop(ep.replies))), ToolName), map[], map[],
      t, true, Drop(Drop(ep.replies)), [InitializeRequest(RequestId(0)), ListToolsRequest(RequestId(1))], 2)
  }

  /** `s` is a session just opened to the server behind `url`. */
  ghost predicate Opened(s: Session, network: Transport -> Endpoint, url: string)
    reads s, s.connector
  {
    ParseLocator(url).Ok? && s.Valid() && ViewOf(s) == OpenedViewAt(network, url)
  }

  /** The state of a session just opened to the server behind `url` (a closed, empty one when `url` is refused). */
  function OpenedViewAt(network: Transport -> Endpoint, url: string): SessionView {
    match ParseLocator(url)
    case Ok(t) => OpenedView(t, network(t))
    case Err(_) => SessionView(false, map[], map[], map[], Transport.Stdio("", []), false, [], [], 0)
  }

  /** The state of a session just opened for server configuration `config`. */
  function ConfigOpenedView(network: Transport -> Endpoint, config: MCPServerConfig): SessionView {
    match LocatorOf(config)
    case Ok(url) => OpenedViewAt(network, url)
    case Err(_) => OpenedViewAt(network, "")
  }

  /** The server names in a `list_all_tools` result. */
  function ServersOf(all: seq<(string, seq<Tool>)>): set<string> {
    if all == [] then {} else ServersOf(all[..|all| - 1]) + {all[|all| - 1].0}
  }

  /**
   * What `list_all_tools` has gathered once the servers outside `pending`
   * are done: one entry for each server in `listed` (those whose listing
   * succeeds), holding exactly that server's refreshed tools `refreshed`.
   */
  ghost predicate Gathered(all: seq<(string, seq<Tool>)>, listed: set<string>,
    refreshed: map<string, map<string, Tool>>, pending: set<string>)
  {
    (forall n :: n in ServersOf(all) <==> n in listed && n !in pending)
    && (forall j :: 0 <= j < |all| ==> all[j].0 in refreshed && all[j].0 !in pending && Lists(all[j].1, refreshed[all[j].0]))
    && (forall j, k :: 0 <= j < k < |all| ==> all[j].0 != all[k].0)
  }

  /** Gathering one more pending server whose listing succeeded. */
  lemma GatheredAdd(all: seq<(string, seq<Tool>)>, listed: set<string>, refreshed: map<string, map<string, Tool>>,
    pending: set<string>, name: string, tools: seq<Tool>)
    requires Gathered(all, listed, refreshed, pending)
    requires name in pending && name in listed && name in refreshed
    requires Lists(tools, refreshed[name])
    ensures Gathered(all + [(name, tools)], listed, refreshed, pending - {name})
  {
    var all' := all + [(name, tools)];
    assert all'[..|all|] == all;
    assert ServersOf(all') == ServersOf(all) + {name};
  }

  /** Passing over one more pending server whose listing failed. */
  lemma GatheredSkip(all: seq<(string, seq<Tool>)>, listed: set<string>, refreshed: map<string, map<string, Tool>>,
    pending: set<string>, name: string)
    requires Gathered(all, listed, refreshed, pending)
    requires name in pending && name !in listed
    ensures Gathered(all, listed, refreshed, pending - {name})
  {
  }

  /** Once no server is pending, what has been gathered is exactly the successful listings among `replies`. */
  lemma GatheredAll(all: seq<(string, seq<Tool>)>, replies: map<string, Result<JsonRpcResponse>>,
    succeeded: set<string>, listings: map<string, map<string, Tool>>)
    requires forall n :: n in succeeded <==> n in replies && ListToolsReply(replies[n]).Ok?
    requires forall n :: n in succeeded ==> n in listings && listings[n] == IndexBy(ListToolsReply(replies[n]).value, ToolName)
    requires Gathered(all, succeeded, listings, {})
    ensures forall n :: n in ServersOf(all) <==> n in replies && ListToolsReply(replies[n]).Ok?
    ensures forall j :: 0 <= j < |all| ==> (all[j].0 in replies && ListToolsReply(replies[all[j].0]).Ok?
      && Lists(all[j].1, IndexBy(ListToolsReply(replies[all[j].0]).value, ToolName)))
    ensures forall j, k :: 0 <= j < k < |all| ==> all[j].0 != all[k].0
  {
    forall j | 0 <= j < |all|
      ensures all[j].0 in replies && ListToolsReply(replies[all[j].0]).Ok?
      ensures Lists(all[j].1, IndexBy(ListToolsReply(replies[all[j].0]).value, ToolName))
    {
      var n := all[j].0;
      assert n in ServersOf(all) by { ServersOfHas(all, j); }
      assert n in succeeded;
      assert Lists(all[j].1, listings[n]);
    }
  }

  lemma {:induction false} ServersOfHas(all: seq<(string, seq<Tool>)>, j: int)
    requires 0 <= j < |all|
    ensures all[j].0 in ServersOf(all)
    decreases |all|
  {
    if j < |all| - 1 {
      ServersOfHas(all[..|all| - 1], j);
    }
  }

  /** `refresh_tools` then `get_tools` on one session, as every tool listing of the client does. */
  method RefreshedTools(s: Session) returns (r: Result<seq<Tool>>)
    requires s.Valid()
    modifies s, s.connector
    ensures s.Valid()
    ensures var listing := ListToolsReply(old(s.connector.NextReply()));
      (r.Ok? <==> listing.Ok?) && (r.Err? ==> r.error == listing.error)
      && s.toolsCache == Refreshed(old(s.toolsCache), listing, ToolName)
      && (r.Ok? ==> Lists(r.value, s.toolsCache))
    ensures ViewOf(s) == ToolsRefreshedView(old(ViewOf(s)))
  {
    var refreshed := s.RefreshTools();
    if refreshed.Err? {
      return Err(refreshed.error);
    }
    var tools := s.GetTools();
    r := Ok(tools);
  }

  /** `refresh_resources` then `get_resources` on one session. */
  method RefreshedResources(s: Session) returns (r: Result<seq<Resource>>)
    requires s.Valid()
    modifies s, s.connector
    ensures s.Valid()
    ensures var listing := ListResourcesReply(old(s.connector.NextReply()));
      (r.Ok? <==> listing.Ok?) && (r.Err? ==> r.error == listing.error)
      && s.resourcesCache == Refreshed(old(s.resourcesCache), listing, ResourceUri)
      && (r.Ok? ==> Lists(r.value, s.resourcesCache))
    ensures ViewOf(s) == ResourcesRefreshedView(old(ViewOf(s)))
  {
    var refreshed := s.RefreshResources();
    if refreshed.Err? {
      return Err(refreshed.error);
    }
    var resources := s.GetResources();
    r := Ok(resources);
  }

  /** `refresh_prompts` then `get_prompts` on one session. */
  method RefreshedPrompts(s: Session) returns (r: Result<seq<Prompt>>)
    requires s.Valid()
    modifies s, s.connector
    ensures s.Valid()
    ensures var listing := ListPromptsReply(old(s.connector.NextReply()));
      (r.Ok? <==> listing.Ok?) && (r.Err? ==> r.error == listing.error)
      && s.promptsCache == Refreshed(old(s.promptsCache), listing, PromptName)
      && (r.Ok? ==> Lists(r.value, s.promptsCache))
    ensures ViewOf(s) == PromptsRefreshedView(old(ViewOf(s)))
  {
    var refreshed := s.RefreshPrompts();
    if refreshed.Err? {
      return Err(refreshed.error);
    }
    var prompts := s.GetPrompts();
    r := Ok(prompts);
  }

  class McpClient {
    const network: Transport -> Endpoint
    const url: Option<string>
    var session: Option<Session>
    var serversConfig: map<string, MCPServerConfig>
    var sessions: map<string, Session>
    var initialized: bool

    /** The single-mode session and its connector. */
    ghost function SingleObjects(): set<object>
      reads this
    {
      if session.Some? then {session.value, session.value.connector} else {}
    }

    /** The multi-mode sessions and their connectors. */
    ghost function MultiObjects(): set<object>
      reads this
    {
      (set n | n in sessions :: sessions[n] as object) + (set n | n in sessions :: sessions[n].connector as object)
    }

    /** Every session the client holds. */
    ghost function Held(): set<Session>
      reads this
    {
      (if session.Some? then {session.value} else {}) + set n | n in sessions :: sessions[n]
    }

    /**
     * Sessions keep their caches keyed correctly; configurations are stored
     * under their names, sessions under their server's name; distinct
     * servers have distinct sessions and connectors.
     */
    ghost predicate Valid()
      reads this, Held()
    {
      (session.Some? ==> session.value.Valid())
      && (forall n :: n in serversConfig ==> serversConfig[n].name == n)
      && (forall n :: n in sessions ==> sessions[n].Valid() && sessions[n].name == n)
      && (forall a, b {:trigger sessions[a].connector, sessions[b].connector} ::
            a in sessions && b in sessions && sessions[a].connector == sessions[b].connector ==> a == b)
    }

    /** `McpClient::new(url)`: single-server mode, nothing opened yet. */
    constructor New(url: string, network: Transport -> Endpoint)
      ensures this.url == Some(url) && this.network == network
      ensures session.None? && serversConfig == map[] && sessions == map[] && !initialized
      ensures Valid()
    {
      this.url := Some(url);
      this.network := network;
      session := None;
      serversConfig := map[];
      sessions := map[];
      initialized := false;
    }

    /** `McpClient::new_multi` (also `default`): no URL, no servers. */
    constructor NewMulti(network: Transport -> Endpoint)
      ensures url.None? && this.network == network
      ensures session.None? && serversConfig == map[] && sessions == map[] && !initialized
      ensures Valid()
    {
      url := None;
      this.network := network;
      session := None;
      serversConfig := map[];
      sessions := map[];
      initialized := false;
    }

    /** `add_server`: stores the configuration under its name, replacing any earlier one of that name. */
    method AddServer(config: MCPServerConfig)
      requires Valid()
      modifies this
      ensures Valid()
      ensures serversConfig == old(serversConfig)[config.name := config]
      ensures session == old(session) && sessions == old(sessions) && initialized == old(initialized)
    {
      serversConfig := serversConfig[config.name := config];
    }

    /** `server_names`: every configured name once. */
    method ServerNames() returns (names: seq<string>)
      ensures forall n :: n in names <==> n in serversConfig
      ensures forall i, j :: 0 <= i < j < |names| ==> names[i] != names[j]
      ensures |names| == |serversConfig|
    {
      names := Enumerate(serversConfig.Keys);
    }

    /** `is_connected`: some session exists (whether or not its connector is still connected). */
    predicate IsConnected()
      reads this
    {
      |sessions| > 0 || session.Some?
    }

    /**
     * Creating a connector for `url`, connecting it and initializing a new
     * session over it, as `initialize`, the on-demand operations and
     * `create_session_from_config` all do.
     */
    method Open(sessionName: string, locator: string) returns (r: Result<(Session, Value)>)
      ensures var h := Handshake(network, locator);
        (r.Ok? <==> h.Ok?) && (r.Err? ==> r.error == h.error)
      ensures r.Ok? ==> (fresh(r.value.0) && fresh(r.value.0.connector)
        && r.value.0.name == sessionName && r.value.1 == Handshake(network, locator).value
        && Opened(r.value.0, network, locator))
    {
      var t := ParseLocator(locator);
      if t.Err? {
        return Err(t.error);
      }
      var connector := new Connector(t.value, network(t.value));
      var s := new Session(sessionName, connector);
      var connected := s.Connect();
      if connected.Err? {
        return Err(connected.error);
      }
      var caps := s.Initialize();
      if caps.Err? {
        return Err(caps.error);
      }
      r := Ok((s, caps.value));
    }

    // -------------------------------------------------------------------------
    // Single-server mode
    // -------------------------------------------------------------------------

    /** `initialize`: opens and stores the session for the client's URL. */
    method Initialize() returns (r: Result<Value>)
      requires Valid()
      modifies this
      ensures Valid()
      ensures url.None? ==> r == Err(InternalError("No server URL configured"))
      ensures url.Some? ==> r == Handshake(network, url.value)
      ensures r.Ok? ==> session.Some? && fresh(session.value) && Opened(session.value, network, url.value) && initialized
      ensures r.Err? ==> session == old(session) && initialized == old(initialized)
      ensures sessions == old(sessions) && serversConfig == old(serversConfig)
    {
      if url.None? {
        return Err(InternalError("No server URL configured"));
      }
      var attempt := Open("default", url.value);
      if attempt.Err? {
        return Err(attempt.error);
      }
      session := Some(attempt.value.0);
      initialized := true;
      r := Ok(attempt.value.1);
    }

    /** `list_tools`: refreshes the stored session's tools, or opens a throw-away session and lists through it. */
    method ListTools() returns (r: Result<seq<Tool>>)
      requires Valid()
      modifies SingleObjects()
      ensures Valid()
      ensures session.Some? ==> (var s := session.value;
        var listing := ListToolsReply(old(s.connector.NextReply()));
        (r.Ok? <==> listing.Ok?) && (r.Err? ==> r.error == listing.error)
        && s.toolsCache == Refreshed(old(s.toolsCache), listing, ToolName)
        && (r.Ok? ==> Lists(r.value, s.toolsCache)))
      ensures session.Some? ==> ViewOf(session.value) == ToolsRefreshedView(old(ViewOf(session.value)))
      ensures session.None? && url.Some? ==> (var h := Handshake(network, url.value);
        var listing := ListToolsReply(OnDemandReply(network, url.value));
        (h.Err? ==> r == Err(h.error)) && (h.Ok? && listing.Err? ==> r == Err(listing.error))
        && (h.Ok? && listing.Ok? ==> r.Ok? && Lists(r.value, IndexBy(listing.value, ToolName))))
      ensures session.None? && url.None? ==> r == Err(InternalError("No server configured"))
    {
      if session.Some? {
        r := RefreshedTools(session.value);
      } else if url.Some? {
        var attempt := Open("default", url.value);
        if attempt.Err? {
          return Err(attempt.error);
        }
        r := RefreshedTools(attempt.value.0);
      } else {
        r := Err(InternalError("No server configured"));
      }
    }

    /** `call_tool`: through the stored session, or through a throw-away one. */
    method CallTool(toolName: string, arguments: Value) returns (r: Result<ToolResult>)
      requires Valid()
      modifies SingleObjects()
      ensures Valid()
      ensures session.Some? ==> r == CallToolReply(old(session.value.connector.NextReply()))
      ensures session.Some? ==> ViewOf(session.value) == CalledView(old(ViewOf(session.value)), toolName, arguments)
      ensures session.None? && url.Some? ==> (var h := Handshake(network, url.value);
        (h.Err? ==> r == Err(h.error)) && (h.Ok? ==> r == CallToolReply(OnDemandReply(network, url.value))))
      ensures session.None? && url.None? ==> r == Err(InternalError("No server configured"))
    {
      if session.Some? {
        r := session.value.CallTool(toolName, arguments);
      } else if url.Some? {
        var attempt := Open("default", url.value);
        if attempt.Err? {
          return Err(attempt.error);
        }
        r := attempt.value.0.CallTool(toolName, arguments);
      } else {
        r := Err(InternalError("No server configured"));
      }
    }

    /** `list_resources`: as `list_tools`, for resources. */
    method ListResources() returns (r: Result<seq<Resource>>)
      requires Valid()
      modifies SingleObjects()
      ensures Valid()
      ensures session.Some? ==> (var s := session.value;
        var listing := ListResourcesReply(old(s.connector.NextReply()));
        (r.Ok? <==> listing.Ok?) && (r.Err? ==> r.error == listing.error)
        && s.resourcesCache == Refreshed(old(s.resourcesCache), listing, ResourceUri)
        && (r.Ok? ==> Lists(r.value, s.resourcesCache)))
      ensures session.Some? ==> ViewOf(session.value) == ResourcesRefreshedView(old(ViewOf(session.value)))
      ensures session.None? && url.Some? ==> (var h := Handshake(network, url.value);
        var listing := ListResourcesReply(OnDemandReply(network, url.value));
        (h.Err? ==> r == Err(h.error)) && (h.Ok? && listing.Err? ==> r == Err(listing.error))
        && (h.Ok? && listing.Ok? ==> r.Ok? && Lists(r.value, IndexBy(listing.value, ResourceUri))))
      ensures session.None? && url.None? ==> r == Err(InternalError("No server configured"))
    {
      if session.Some? {
        r := RefreshedResources(session.value);
      } else if url.Some? {
        var attempt := Open("default", url.value);
        if attempt.Err? {
          return Err(attempt.error);
        }
        r := RefreshedResources(attempt.value.0);
      } else {
        r := Err(InternalError("No server configured"));
      }
    }

    /** `read_resource`: through the stored session, or through a throw-away one. */
    method ReadResource(uri: string) returns (r: Result<string>)
      requires Valid()
      modifies SingleObjects()
      ensures Valid()
      ensures session.Some? ==> r == ReadResourceReply(old(session.value.connector.NextReply()))
      ensures session.Some? ==> ViewOf(session.value) == ReadView(old(ViewOf(session.value)), uri)
      ensures session.None? && url.Some? ==> (var h := Handshake(network, url.value);
        (h.Err? ==> r == Err(h.error)) && (h.Ok? ==> r == ReadResourceReply(OnDemandReply(network, url.value))))
      ensures session.None? && url.None? ==> r == Err(InternalError("No server configured"))
    {
      if session.Some? {
        r := session.value.ReadResource(uri);
      } else if url.Some? {
        var attempt := Open("default", url.value);
        if attempt.Err? {
          return Err(attempt.error);
        }
        r := attempt.value.0.ReadResource(uri);
      } else {
        r := Err(InternalError("No server configured"));
      }
    }

    /** `list_prompts`: as `list_tools`, for prompts. */
    method ListPrompts() returns (r: Result<seq<Prompt>>)
      requires Valid()
      modifies SingleObjects()
      ensures Valid()
      ensures session.Some? ==> (var s := session.value;
        var listing := ListPromptsReply(old(s.connector.NextReply()));
        (r.Ok? <==> listing.Ok?) && (r.Err? ==> r.error == listing.error)
        && s.promptsCache == Refreshed(old(s.promptsCache), listing, PromptName)
        && (r.Ok? ==> Lists(r.value, s.promptsCache)))
      ensures session.Some? ==> ViewOf(session.value) == PromptsRefreshedView(old(ViewOf(session.value)))
      ensures session.None? && url.Some? ==> (var h := Handshake(network, url.value);
        var listing := ListPromptsReply(OnDemandReply(network, url.value));
        (h.Err? ==> r == Err(h.error)) && (h.Ok? && listing.Err? ==> r == Err(listing.error))
        && (h.Ok? && listing.Ok? ==> r.Ok? && Lists(r.value, IndexBy(listing.value, PromptName))))
      ensures session.None? && url.None? ==> r == Err(InternalError("No server configured"))
    {
      if session.Some? {
        r := RefreshedPrompts(session.value);
      } else if url.Some? {
        var attempt := Open("default", url.value);
        if attempt.Err? {
          return Err(attempt.error);
        }
        r := RefreshedPrompts(attempt.value.0);
      } else {
        r := Err(InternalError("No server configured"));
      }
    }

    // -------------------------------------------------------------------------
    // Multi-server mode
    // -------------------------------------------------------------------------

    /** The session of one server and its connector, if there is one. */
    ghost function ObjectsOf(serverName: string): set<object>
      reads this
    {
      if serverName in sessions then {sessions[serverName], sessions[serverName].connector} else {}
    }

    /** Whether `serverName` is configured in `config` and opening it succeeds, as `create_all_sessions` attempts. */
    predicate OpensIn(config: map<string, MCPServerConfig>, serverName: string) {
      serverName in config && ConfigHandshake(network, config[serverName]).Ok?
    }

    /** `create_session_from_config`: the configuration's URL, opened under the server's name. */
    method CreateSessionFromConfig(config: MCPServerConfig) returns (r: Result<Session>)
      ensures var h := ConfigHandshake(network, config);
        (r.Ok? <==> h.Ok?) && (r.Err? ==> r.error == h.error)
      ensures r.Ok? ==> (fresh(r.value) && fresh(r.value.connector) && r.value.name == config.name
        && Opened(r.value, network, LocatorOf(config).value))
    {
      var locator := LocatorOf(config);
      if locator.Err? {
        return Err(locator.error);
      }
      var attempt := Open(config.name, locator.value);
      if attempt.Err? {
        return Err(attempt.error);
      }
      r := Ok(attempt.value.0);
    }

    /** One step of `create_all_sessions`: opens the configured server `serverName` and stores its session if that succeeds. */
    method OpenServer(serverName: string)
      requires Valid() && serverName in serversConfig
      modifies this
      ensures Valid()
      ensures session == old(session) && serversConfig == old(serversConfig) && initialized == old(initialized)
      ensures OpensIn(serversConfig, serverName) ==> (serverName in sessions
        && sessions == old(sessions)[serverName := sessions[serverName]]
        && fresh(sessions[serverName]) && ViewOf(sessions[serverName]) == ConfigOpenedView(network, serversConfig[serverName]))
      ensures !OpensIn(serversConfig, serverName) ==> sessions == old(sessions)
    {
      var attempt := CreateSessionFromConfig(serversConfig[serverName]);
      if attempt.Ok? {
        sessions := sessions[serverName := attempt.value];
      }
    }

    /**
     * `create_all_sessions`: opens a session for every configured server;
     * a server that fails is skipped (only logged) and keeps whatever
     * session it had, and the call itself always succeeds.
     */
    method CreateAllSessions() returns (r: Result<()>)
      requires Valid()
      modifies this
      ensures Valid()
      ensures r == Ok(())
      ensures session == old(session) && serversConfig == old(serversConfig) && initialized == old(initialized)
      ensures forall n :: n in sessions <==> n in old(sessions) || OpensIn(serversConfig, n)
      ensures forall n :: n in sessions ==>
        if OpensIn(serversConfig, n) then fresh(sessions[n]) && ViewOf(sessions[n]) == ConfigOpenedView(network, serversConfig[n])
        else sessions[n] == old(sessions[n])
    {
      var config := serversConfig;
      var pending := config.Keys;
      while pending != {}
        invariant session == old(session) && serversConfig == config && initialized == old(initialized)
        invariant pending <= config.Keys
        invariant Valid()
        invariant forall n :: n in sessions <==> n in old(sessions) || (n !in pending && OpensIn(config, n))
        invariant forall n :: n in sessions ==>
          if n !in pending && OpensIn(config, n) then fresh(sessions[n]) && ViewOf(sessions[n]) == ConfigOpenedView(network, config[n])
          else sessions[n] == old(sessions[n])
        decreases pending
      {
        var name :| name in pending;
        OpenServer(name);
        pending := pending - {name};
      }
      r := Ok(());
    }

    /** `list_tools_for_server`: refreshes and lists that server's tools; unknown servers are a server error. */
    method ListToolsForServer(serverName: string) returns (r: Result<seq<Tool>>)
      requires Valid()
      modifies ObjectsOf(serverName)
      ensures Valid()
      ensures serverName !in sessions ==> r == Err(ServerError("No active session for server '" + serverName + "'"))
      ensures serverName in sessions ==> (var s := sessions[serverName];
        var listing := ListToolsReply(old(s.connector.NextReply()));
        (r.Ok? <==> listing.Ok?) && (r.Err? ==> r.error == listing.error)
        && s.toolsCache == Refreshed(old(s.toolsCache), listing, ToolName)
        && (r.Ok? ==> Lists(r.value, s.toolsCache)))
      ensures serverName in sessions ==>
        ViewOf(sessions[serverName]) == ToolsRefreshedView(old(ViewOf(sessions[serverName])))
      ensures sessions == old(sessions)
      ensures forall n :: n in sessions && n != serverName ==> ViewOf(sessions[n]) == old(ViewOf(sessions[n]))
    {
      if serverName in sessions {
        r := RefreshedTools(sessions[serverName]);
      } else {
        r := Err(ServerError("No active session for server '" + serverName + "'"));
      }
    }

    /** `call_tool_on_server`: the call through that server's session; unknown servers are a server error. */
    method CallToolOnServer(serverName: string, toolName: string, arguments: Value) returns (r: Result<ToolResult>)
      requires Valid()
      modifies ObjectsOf(serverName)
      ensures Valid()
      ensures serverName !in sessions ==> r == Err(ServerError("No active session for server '" + serverName + "'"))
      ensures serverName in sessions ==> r == CallToolReply(old(sessions[serverName].connector.NextReply()))
      ensures serverName in sessions ==>
        ViewOf(sessions[serverName]) == CalledView(old(ViewOf(sessions[serverName])), toolName, arguments)
      ensures sessions == old(sessions)
      ensures forall n :: n in sessions && n != serverName ==> ViewOf(sessions[n]) == old(ViewOf(sessions[n]))
    {
      if serverName in sessions {
        r := sessions[serverName].CallTool(toolName, arguments);
      } else {
        r := Err(ServerError("No active session for server '" + serverName + "'"));
      }
    }

    /** One step of `list_all_tools`: refreshes and lists the tools of the session of `serverName`, whose next reply is `reply`. */
    method RefreshServerTools(serverName: string, ghost reply: Result<JsonRpcResponse>) returns (r: Result<seq<Tool>>)
      requires Valid() && serverName in sessions && sessions[serverName].connector.NextReply() == reply
      modifies sessions[serverName], sessions[serverName].connector
      ensures Valid() && sessions == old(sessions)
      ensures r.Ok? <==> ListToolsReply(reply).Ok?
      ensures r.Ok? ==> Lists(r.value, IndexBy(ListToolsReply(reply).value, ToolName))
      ensures ViewOf(sessions[serverName]) == ToolsRefreshedView(old(ViewOf(sessions[serverName])))
      ensures forall n :: n in sessions && n != serverName ==> ViewOf(sessions[n]) == old(ViewOf(sessions[n]))
    {
      r := RefreshedTools(sessions[serverName]);
    }

    /** The states of the multi-mode sessions, by server name. */
    ghost function Views(): map<string, SessionView>
      reads this, MultiObjects()
    {
      map n | n in sessions :: ViewOf(sessions[n])
    }

    /** The replies the multi-mode sessions' next requests get, by server name. */
    ghost function NextReplies(): (m: map<string, Result<JsonRpcResponse>>)
      reads this, MultiObjects()
      ensures m.Keys == sessions.Keys
      ensures forall n :: n in Views() ==> m[n] == NextReplyOf(Views()[n])
    {
      map n | n in sessions :: sessions[n].connector.NextReply()
    }

    /**
     * The loop of `list_all_tools`: refreshes the tools of every session,
     * gathering the successful listings. `before` holds the sessions'
     * states, `succeeded` the servers whose listing succeeds, `listings`
     * what they list.
     */
    method GatherAllTools(ghost before: map<string, SessionView>, ghost replies: map<string, Result<JsonRpcResponse>>,
      ghost succeeded: set<string>, ghost listings: map<string, map<string, Tool>>) returns (all: seq<(string, seq<Tool>)>)
      requires Valid() && Views() == before && NextReplies() == replies
      requires forall n :: n in succeeded <==> n in replies && ListToolsReply(replies[n]).Ok?
      requires forall n :: n in succeeded ==> n in listings && listings[n] == IndexBy(ListToolsReply(replies[n]).value, ToolName)
      modifies MultiObjects()
      ensures Valid() && sessions == old(sessions)
      ensures Gathered(all, succeeded, listings, {})
      ensures Views() == Stepped(before, {})
    {
      var pending := sessions.Keys;
      all := [];
      while pending != {}
        invariant sessions == old(sessions) && Valid()
        invariant pending <= sessions.Keys == before.Keys
        invariant Views() == Stepped(before, pending)
        invariant Gathered(all, succeeded, listings, pending)
        decreases pending
      {
        var name :| name in pending;
        all := GatherOne(name, pending, before, all, succeeded, listings);
        pending := pending - {name};
      }
    }

    /**
     * One step of the loop of `list_all_tools`: the tools of the pending
     * server `serverName`, whose session was in state `before[serverName]`,
     * are refreshed, and gathered into `all` when the listing succeeds.
     */
    method GatherOne(serverName: string, ghost pending: set<string>, ghost before: map<string, SessionView>,
      all: seq<(string, seq<Tool>)>, ghost succeeded: set<string>, ghost listings: map<string, map<string, Tool>>)
      returns (all': seq<(string, seq<Tool>)>)
      requires Valid() && serverName in pending && pending <= sessions.Keys == before.Keys
      requires Views() == Stepped(before, pending)
      requires Gathered(all, succeeded, listings, pending)
      requires serverName in succeeded <==> ListToolsReply(NextReplyOf(before[serverName])).Ok?
      requires serverName in succeeded ==>
        serverName in listings && listings[serverName] == IndexBy(ListToolsReply(NextReplyOf(before[serverName])).value, ToolName)
      modifies ObjectsOf(serverName)
      ensures Valid() && sessions == old(sessions)
      ensures Views() == Stepped(before, pending - {serverName})
      ensures Gathered(all', succeeded, listings, pending - {serverName})
    {
      ghost var views := Views();
      var listed := RefreshServerTools(serverName, NextReplyOf(before[serverName]));
      SteppedOne(before, pending, serverName, views, Views());
      if listed.Ok? {
        GatheredAdd(all, succeeded, listings, pending, serverName, listed.value);
        all' := all + [(serverName, listed.value)];
      } else {
        GatheredSkip(all, succeeded, listings, pending, serverName);
        all' := all;
      }
    }

    /**
     * `list_all_tools`: refreshes every session's tools; servers whose
     * listing fails are left out (only logged), so the call always succeeds.
     */
    method ListAllTools() returns (r: Result<seq<(string, seq<Tool>)>>)
      requires Valid()
      modifies MultiObjects()
      ensures Valid()
      ensures r.Ok?
      ensures forall n :: n in ServersOf(r.value) <==> n in sessions && ListToolsReply(old(NextReplies())[n]).Ok?
      ensures forall j :: 0 <= j < |r.value| ==> (var n := r.value[j].0;
        n in sessions && (var listing := ListToolsReply(old(NextReplies())[n]);
          listing.Ok? && Lists(r.value[j].1, IndexBy(listing.value, ToolName))))
      ensures forall j, k :: 0 <= j < k < |r.value| ==> r.value[j].0 != r.value[k].0
      ensures forall n :: n in sessions ==> ViewOf(sessions[n]) == ToolsRefreshedView(old(ViewOf(sessions[n])))
    {
      ghost var before, replies := Views(), NextReplies();
      ghost var succeeded := set n | n in replies && ListToolsReply(replies[n]).Ok?;
      ghost var listings := map n | n in succeeded :: IndexBy(ListToolsReply(replies[n]).value, ToolName);
      var all := GatherAllTools(before, replies, succeeded, listings);
      GatheredAll(all, replies, succeeded, listings);
      forall n | n in sessions
        ensures ViewOf(sessions[n]) == ToolsRefreshedView(old(ViewOf(sessions[n])))
      {
        assert ViewOf(sessions[n]) == Views()[n];
      }
      r := Ok(all);
    }

    /** `close_session`: forgets the server's session and disconnects it; closing an unknown server does nothing. */
    method CloseSession(serverName: string) returns (r: Result<()>)
      requires Valid()
      modifies this, ObjectsOf(serverName)
      ensures Valid()
      ensures r == Ok(())
      ensures sessions == old(sessions) - {serverName}
      ensures serverName in old(sessions) ==>
        !old(sessions)[serverName].initialized && !old(sessions)[serverName].connector.connected
      ensures session == old(session) && serversConfig == old(serversConfig) && initialized == old(initialized)
    {
      if serverName in sessions {
        var s := sessions[serverName];
        sessions := sessions - {serverName};
        var closed := s.Disconnect();
      }
      r := Ok(());
    }

    /**
     * One step of `close_all_sessions`: closes `serverName`. The sessions of
     * `before` that are no longer held stay disconnected.
     */
    method CloseOneOf(serverName: string, ghost before: map<string, Session>)
      requires Valid() && serverName in sessions && sessions.Keys <= before.Keys
      requires forall a, b {:trigger before[a].connector, before[b].connector} ::
        a in before && b in before && before[a].connector == before[b].connector ==> a == b
      requires forall n :: n in before ==>
        if n in sessions then sessions[n] == before[n]
        else !before[n].initialized && !before[n].connector.connected
      modifies this, ObjectsOf(serverName)
      ensures Valid() && sessions.Keys == old(sessions).Keys - {serverName}
      ensures session == old(session) && serversConfig == old(serversConfig) && initialized == old(initialized)
      ensures forall n :: n in before ==>
        if n in sessions then sessions[n] == before[n]
        else !before[n].initialized && !before[n].connector.connected
    {
      var closed := CloseSession(serverName);
    }

    /** `close_all_sessions`: closes every session; afterwards none is left. */
    method CloseAllSessions() returns (r: Result<()>)
      requires Valid()
      modifies this, MultiObjects()
      ensures Valid()
      ensures r == Ok(()) && sessions == map[]
      ensures forall n :: n in old(sessions) ==> !old(sessions)[n].initialized && !old(sessions)[n].connector.connected
      ensures session == old(session) && serversConfig == old(serversConfig) && initialized == old(initialized)
    {
      ghost var before := sessions;
      while sessions != map[]
        invariant session == old(session) && serversConfig == old(serversConfig) && initialized == old(initialized)
        invariant Valid() && sessions.Keys <= before.Keys
        invariant forall a, b {:trigger before[a].connector, before[b].connector} ::
          a in before && b in before && before[a].connector == before[b].connector ==> a == b
        invariant forall n :: n in before ==>
          if n in sessions then sessions[n] == before[n]
          else !before[n].initialized && !before[n].connector.connected
        decreases sessions.Keys
      {
        var name :| name in sessions;
        CloseOneOf(name, before);
      }
      r := Ok(());
    }
  }
}
