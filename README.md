# A verified model of the mcp-framework client and agent core

This project models, in Dafny, the core of `mcp-framework`, a Rust library for the
Model Context Protocol (MCP). The modelled core covers:

- the JSON-RPC 2.0 envelopes and MCP descriptors, together with their JSON form;
- the error-to-code mapping;
- server configurations;
- the connector's default operations over `send_request`;
- the session and its three caches;
- the client, in both single-server and multi-server mode;
- the agent loop;
- the server's registry and dispatcher;
- the Anthropic and OpenAI adapters.

Every network, subprocess and LLM exchange is an oracle:

- A connector replays an endpoint's script of replies, one per request. A subprocess
  endpoint also says whether its process can be started.
- The client holds a `network` function from a transport to such an endpoint.
- The agent asks a `ToolBox` (the client's `list_tools`/`call_tool`) and an `Llm`
  function. Both are functions of the conversation so far.
- The adapters take the vendor's reply as a function of the request they build.
- The OpenAI adapter also takes its argument parser and its MCP tool caller as functions.

JSON is a small datatype (`Json.Value`). Objects are maps and numbers are integers.

The code is laid out one module per source file:

| Module | Source file |
|---|---|
| `Errors` | `error.rs` |
| `Protocol` | `protocol.rs` |
| `Config` | `config.rs` |
| `Connectors` | `connectors/base.rs`, plus the connection guard of the two transports |
| `Sessions` | `session.rs` |
| `Client` | `client.rs` |
| `Agents` | `agent.rs` |
| `Server` | `server.rs` |
| `Anthropic` | `adapters/anthropic.rs` |
| `OpenAI` | `adapters/openai.rs` |

Three helper modules support them:

- `Json` holds the JSON values.
- `Strings` holds the Unicode whitespace split that `split_whitespace` performs, joining,
  prefixes and substrings, and ASCII lower-casing.
- `Catalog` holds the name-keyed map that a loop of `HashMap::insert` builds, and the
  listing of a map's keys or values in some order.

Code that changes state step by step is written as classes with methods and loops:

- the connector;
- the session;
- the client;
- the agent's `run`;
- the server registry;
- the adapters' accumulation loops.

Each such method is proved against a function that specifies it.

The agent is modelled as written:

- `run` clears the conversation before it starts, so earlier history is discarded.
- The final `iterations >= max_iterations` test fails a run that finished on its last
  allowed pass. `Agents.OneTurnAnswer` shows that a run with a budget of one fails even
  when the model answers at once.

## Model

| member | source | states |
|---|---|---|
| Errors.ErrorCode | src/error.rs:48-64 | the mapping is total and always negative, within -32606..-32000; it is -32603 exactly for InternalError, SerializationError, RequestError and Unknown |
| Errors.StandardCodes | src/error.rs:50-53 | InvalidRequest, MethodNotFound, InvalidParams and InternalError get -32600, -32601, -32602 and -32603, the codes of section 5.1 of the JSON-RPC 2.0 specification |
| Errors.FrameworkCodes | src/error.rs:54-62 | ServerError, ToolNotFound, ResourceNotFound, Timeout, ConnectionError and LLMError get -32000, -32001, -32002, -32604, -32605 and -32606; SerializationError, RequestError and Unknown get -32603 |
| Errors.CodeIdentifiesVariant | src/error.rs:54-61 | outside the -32603 group, two errors with the same code are the same variant, so ServerError, ToolNotFound, ResourceNotFound, Timeout, ConnectionError and LLMError have pairwise-distinct codes |
| Protocol.SerializeParams | src/protocol.rs:9-17 | absent params are written as `{}`; present params are written unchanged |
| Protocol.NewRequest | src/protocol.rs:46-53 | a new request has version "2.0" and the given method, params and id |
| Protocol.EncodeRequest | src/protocol.rs:36-43 | a request is written with exactly the fields jsonrpc, id, method and params, with params as `serialize_params` writes them |
| Protocol.RequestRoundTrip | src/protocol.rs:9-17 | reading a written request gives it back, except that absent params come back as `{}` |
| Protocol.EncodeResponse | src/protocol.rs:57-65 | `result` and `error` are present in the written response exactly when they are Some |
| Protocol.ResponseRoundTrip | src/protocol.rs:57-74 | reading a written response gives back the same response, whenever no field holds an explicit null |
| Protocol.EncodeRpcError | src/protocol.rs:68-74 | `data` is written only when it is Some |
| Protocol.EncodeTool | src/protocol.rs:78-94 | `input_schema` is written exactly when it is Some, and `description` is always written |
| Protocol.ToolRoundTrip | src/protocol.rs:78-94 | reading a written tool gives back the same tool, schema included |
| Protocol.ToolsRoundTrip | src/protocol.rs:78-94 | a written tool list reads back as the same list |
| Protocol.ResourcesRoundTrip | src/protocol.rs:96-97 | a written resource list reads back as the same list |
| Protocol.PromptsRoundTrip | src/protocol.rs:99-100 | a written prompt list reads back as the same list |
| Protocol.EncodeToolResult | src/protocol.rs:120-127 | `id` and `isError` are written exactly when they are Some; `content` is always written |
| Protocol.ToolResultRoundTrip | src/protocol.rs:120-141 | reading a written tool result gives back the same result, content blocks included |
| Protocol.UserMessage | src/protocol.rs:226-233 | the message has role User and exactly one Text block holding the text |
| Protocol.AssistantMessage | src/protocol.rs:235-242 | the message has role Assistant and exactly one Text block holding the text |
| Config.Http | src/config.rs:51-61 | the config has the given url; command, args, env and headers are None; auto_connect is true |
| Config.Stdio | src/config.rs:64-74 | the config has the given command and args, no url, and auto_connect true |
| Config.FromCommand | src/config.rs:78-101 | command and args are both None or both Some, None exactly when the line has no token; otherwise the command followed by the args is exactly the line's whitespace split, so the first token is the command and the rest, in order, the args; url, env and headers are None and auto_connect is true |
| Config.FromCommandOfTokens | src/config.rs:78-101 | a command line of tokens separated by spaces yields the first token as command and the rest, in order, as args |
| Config.FromCommandOfLine | src/config.rs:78-101 | a command and args separated by any non-empty runs of whitespace, with any whitespace before and after, yield exactly that command and those args |
| Config.FromCommandBlank | src/config.rs:79-90 | an empty or whitespace-only command line leaves command and args None |
| Config.DecodeAutoConnect | src/config.rs:40-47 | a missing `auto_connect` reads as true |
| Config.DecodeConfig | src/config.rs:11-42 | a decoded config has the object's `name`, and auto_connect is true when the field is missing |
| Config.StrMapRoundTrip | src/config.rs:31-37 | an env or headers map reads back as itself |
| Config.ConfigRoundTrip | src/config.rs:11-42 | reading a written config gives back the same config |
| Json.StrArrayRoundTrip | src/config.rs:26-29 | a written string array reads back as itself |
| Strings.SplitWhitespace | src/config.rs:79 | every piece of the split is a non-empty run of non-whitespace characters (which runs, and their order, are stated by SplitInterleave) |
| Strings.SplitInterleave | src/config.rs:79 | tokens separated by any non-empty whitespace, with any whitespace before the first and after the last, split back into exactly those tokens in order |
| Strings.SplitJoin | src/config.rs:79 | splitting tokens joined by single spaces gives back the tokens |
| Strings.SplitEmptyIff | src/client.rs:119-121 | the split is empty exactly when the string is empty or all whitespace |
| Strings.Lower | src/adapters/openai.rs:238 | lower-casing keeps the length and maps each character on its own |
| Strings.ContainsIffOccurs | src/adapters/openai.rs:243 | `contains` holds exactly when the pattern occurs at some index |
| Catalog.IndexBy | src/session.rs:80-83 | the keys of the map are exactly the keys of the listed items, and every entry is stored under its own key |
| Catalog.IndexByLastWins | src/session.rs:80-83 | the entry for a key is the last item in the list with that key |
| Catalog.Index | src/session.rs:80-83 | the clear-then-insert loop builds exactly `IndexBy` of the list |
| Catalog.Enumerate | src/client.rs:102-104 | the key listing holds each key of the set exactly once, in some order |
| Catalog.Values | src/session.rs:88-90 | the value listing holds each entry of the map exactly once, in some order |
| Connectors.DefaultConfig | src/connectors/base.rs:14-22 | the default is url http://localhost:3000, timeout 30 and 3 retry attempts |
| Connectors.RequestShapes | src/connectors/base.rs:81-182 | the listing requests carry no params, which are written as `{}`; tools/call carries `{name, arguments}`; resources/read carries `{uri}`; prompts/get carries `arguments: {}` when none are given |
| Connectors.Unwrap | src/connectors/base.rs:84-94 | a transport error is passed on, and a result is decoded |
| Connectors.ListingFrom | src/connectors/base.rs:84-89 | a listing succeeds only with a decodable array under its key, and otherwise fails with InvalidRequest |
| Connectors.ResourceTextFrom | src/connectors/base.rs:142-150 | the text is the `text` of the first element of `contents`, or else InvalidRequest "Invalid resource content" |
| Connectors.ToolResultFrom | src/connectors/base.rs:106-108 | the result is the decoded tool result, or InvalidRequest when it does not decode |
| Connectors.TransportErrorsPropagate | src/connectors/base.rs:67-68 | each of the seven operations returns a failed `send_request`'s error unchanged |
| Connectors.ErrorResponsesBecomeServerErrors | src/connectors/base.rs:56-192 | with no result but an error, each of the seven operations returns ServerError carrying the error's message |
| Connectors.EmptyResponsesAreInternalErrors | src/connectors/base.rs:56-192 | with neither result nor error, initialize returns InternalError "No result or error in response" and the other six return InternalError "No result in response" |
| Connectors.ResultTakesPrecedence | src/connectors/base.rs:70-76 | when both result and error are set, initialize and get_prompt return the result unchanged |
| Connectors.ListToolsReplyRoundTrip | src/connectors/base.rs:80-95 | list_tools returns exactly the tools a server's `{tools: [...]}` result lists |
| Connectors.ListResourcesReplyRoundTrip | src/connectors/base.rs:117-132 | list_resources returns exactly the listed resources |
| Connectors.ListPromptsReplyRoundTrip | src/connectors/base.rs:159-174 | list_prompts returns exactly the listed prompts |
| Connectors.CallToolReplyRoundTrip | src/connectors/base.rs:98-114 | call_tool returns exactly the tool result the server wrote |
| Connectors.ReadResourceTakesFirstText | src/connectors/base.rs:135-156 | read_resource returns the text of the first content and ignores the rest |
| Connectors.ReplyFrom | src/connectors/http.rs:35-37 | a connector that is not connected fails with ConnectionError "Not connected"; a connected one gets the endpoint's next reply |
| Connectors.Connector.constructor | src/connectors/stdio.rs:22-30 | a new connector is not connected, has sent nothing, and holds its endpoint's replies |
| Connectors.Connector.Connect | src/connectors/stdio.rs:87-104 | connecting succeeds for HTTP, and for a subprocess exactly when the process starts; a failure is a ConnectionError and leaves the flag unchanged |
| Connectors.Connector.Disconnect | src/connectors/stdio.rs:106-113 | disconnecting always succeeds and clears the flag |
| Connectors.Connector.NewId | src/protocol.rs:49 | each request gets a fresh id |
| Connectors.Connector.SendRequest | src/connectors/http.rs:34-52 | the reply is the next one scripted while connected, or "Not connected"; only a connected send consumes a reply and is logged |
| Connectors.Connector.Initialize | src/connectors/base.rs:56-77 | sends one initialize request with the handshake params and decodes the reply with the initialize decision tree |
| Connectors.Connector.ListTools | src/connectors/base.rs:80-95 | sends one tools/list request and decodes the reply as a tool listing |
| Connectors.Connector.CallTool | src/connectors/base.rs:98-114 | sends one tools/call request for the name and arguments and decodes the reply as a tool result |
| Connectors.Connector.ListResources | src/connectors/base.rs:117-132 | sends one resources/list request and decodes the reply as a resource listing |
| Connectors.Connector.ReadResource | src/connectors/base.rs:135-156 | sends one resources/read request for the uri and decodes the first content text |
| Connectors.Connector.ListPrompts | src/connectors/base.rs:159-174 | sends one prompts/list request and decodes the reply as a prompt listing |
| Connectors.Connector.GetPrompt | src/connectors/base.rs:177-192 | sends one prompts/get request for the name and arguments and returns the result |
| Sessions.RefreshedToolLookup | src/session.rs:78-85 | after a successful refresh, the cache holds exactly the fetched names, and each maps to the last fetched tool with that name |
| Sessions.Session.constructor | src/session.rs:31-40 | a new session is not initialised and its three caches are empty |
| Sessions.Session.Connect | src/session.rs:43-46 | the connector's connect result is passed on |
| Sessions.Session.Disconnect | src/session.rs:67-71 | the session is no longer initialised or connected, and the three caches are unchanged |
| Sessions.Session.RefreshTools | src/session.rs:78-85 | success replaces the tool cache with the fetched list keyed by name; failure returns the fetch error and leaves the cache untouched; the other caches and the flag never change |
| Sessions.Session.RefreshResources | src/session.rs:107-114 | the same as RefreshTools for resources, keyed by uri |
| Sessions.Session.RefreshPrompts | src/session.rs:136-143 | the same as RefreshTools for prompts, keyed by name |
| Sessions.Session.Initialize | src/session.rs:49-54 | the flag is set only after the handshake succeeds; the capabilities are returned even when the follow-up tool refresh fails; a failed handshake changes nothing |
| Sessions.Session.GetTools | src/session.rs:88-90 | returns exactly the cached tools, once each |
| Sessions.Session.GetResources | src/session.rs:117-119 | returns exactly the cached resources, once each |
| Sessions.Session.GetPrompts | src/session.rs:146-148 | returns exactly the cached prompts, once each |
| Sessions.Session.GetTool | src/session.rs:93-95 | None exactly when the name is not cached; otherwise the cached tool, which carries that name |
| Sessions.Session.GetResource | src/session.rs:122-124 | None exactly when the uri is not cached; otherwise the cached resource with that uri |
| Sessions.Session.GetPromptInfo | src/session.rs:151-153 | None exactly when the name is not cached; otherwise the cached prompt with that name |
| Sessions.Session.CallTool | src/session.rs:98-100 | forwards one tools/call to the connector and changes no session state |
| Sessions.Session.ReadResource | src/session.rs:127-129 | forwards one resources/read to the connector and changes no session state |
| Sessions.Session.GetPrompt | src/session.rs:156-158 | forwards one prompts/get to the connector and changes no session state |
| Client.ParseLocator | src/client.rs:107-135 | `http://` and `https://` give an HTTP transport with timeout 30 and 3 retries; `stdio://` gives the first whitespace token after the prefix as command and the rest as args; every other input, including a blank `stdio://`, is InvalidRequest (both directions) |
| Client.LocatorOf | src/client.rs:139-147 | the url is preferred; without one, a config missing command or args is refused with "has no valid transport configuration" |
| Client.StdioLocator | src/client.rs:116-128 | `stdio://` followed by a command line parses to its first token and the remaining tokens |
| Client.StdioConfigReachesItsCommand | src/client.rs:139-142 | the `stdio://cmd a1 a2…` locator built from a stdio config parses back to the same command and args when they contain no whitespace |
| Client.SpacedArgumentIsSplit | src/client.rs:141-142 | an argument that contains a space comes back as two arguments |
| Client.SchemeSelection | src/client.rs:108-134 | http:// and https:// select HTTP with the default timeout and retries; ftp:// is refused with the "Unsupported URL scheme" message |
| Client.BlankStdioRefused | src/client.rs:121-123 | a `stdio://` locator with no command is InvalidRequest "No command specified in stdio:// URL" |
| Client.GatheredAll | src/client.rs:325-346 | the gathered list has one pair per session whose refresh succeeded, with no name repeated, each pair holding that session's fetched tools |
| Client.RefreshedTools | src/client.rs:179-182 | refresh, then list: the result is Ok exactly when the `tools/list` reply decodes, and then lists the rebuilt tool cache, otherwise it is the listing's error and the cache is kept; the whole new session state is `ToolsRefreshedView` of the old one (with session.rs:78-91): one `tools/list` exchange on the connector (the request id advances; `sent` and the remaining replies advance only when connected), `initialized` and the other two caches unchanged |
| Client.RefreshedResources | src/client.rs:215-218 | the result is the listing or its error; the resource cache is rebuilt from a successful listing and kept on error, and the result lists the cache; the whole new session state is `ResourcesRefreshedView` of the old one: one `resources/list` exchange on the connector, `initialized` and the tool and prompt caches unchanged |
| Client.RefreshedPrompts | src/client.rs:249-252 | the result is the listing or its error; the prompt cache is rebuilt from a successful listing and kept on error, and the result lists the cache; the whole new session state is `PromptsRefreshedView` of the old one: one `prompts/list` exchange on the connector, `initialized` and the tool and resource caches unchanged |
| Client.ExchangedView | src/connectors/http.rs:34-52 | one request on a session: the request id advances by one; when connected the request is appended to what was sent and one scripted reply is consumed, otherwise neither changes; caches, `initialized`, transport and connection are unchanged. `ToolsRefreshedView`, `ResourcesRefreshedView`, `PromptsRefreshedView`, `CalledView` and `ReadView` (session.rs:78-145) are this exchange with the matching request, the first three also rebuilding their cache from the reply (`NextReplyOf`) |
| Client.Stepped | src/client.rs:333-343 | the sessions' states partway through `list_all_tools`: the servers not pending have been refreshed, the pending ones are as before; the same server names throughout |
| Client.McpClient.New | src/client.rs:73-81 | a single-server client holds its url and no session, and is not initialised |
| Client.McpClient.NewMulti | src/client.rs:86-94 | a multi-server client has no url, no configs and no sessions |
| Client.McpClient.AddServer | src/client.rs:97-99 | the config is stored under its name, replacing any earlier one; nothing else changes |
| Client.McpClient.ServerNames | src/client.rs:102-104 | returns exactly the configured names, once each |
| Client.McpClient.Open | src/client.rs:165-168 | parse the locator, then connect and initialise a new session; the result is the outcome of `Handshake` (locator refusal, spawn failure, connect and initialize replies, client.rs:107-135 and 165-168) |
| Client.McpClient.Initialize | src/client.rs:163-175 | without a url, "No server URL configured"; otherwise the handshake's outcome, and only success stores a new opened session and sets the flag |
| Client.McpClient.ListTools | src/client.rs:178-194 | with a session, its tools are refreshed and returned from the cache, and the session's whole new state is `ToolsRefreshedView` of the old; without one, a throw-away session is opened and the tools it lists are returned, and nothing is stored; with neither, "No server configured" |
| Client.McpClient.CallTool | src/client.rs:197-211 | with a session, the result is the decoded `tools/call` reply and the session's whole new state is `CalledView` of the old (one exchange carrying the tool name and arguments, caches and `initialized` unchanged); otherwise a throw-away session after its handshake, or "No server configured" |
| Client.McpClient.ListResources | src/client.rs:214-229 | like ListTools, for resources; the stored session's whole new state is `ResourcesRefreshedView` of the old |
| Client.McpClient.ReadResource | src/client.rs:232-245 | like CallTool, for resources/read; the stored session's whole new state is `ReadView` of the old (one exchange carrying the uri) |
| Client.McpClient.ListPrompts | src/client.rs:248-263 | like ListTools, for prompts; the stored session's whole new state is `PromptsRefreshedView` of the old |
| Client.McpClient.CreateSessionFromConfig | src/client.rs:138-156 | succeeds exactly when the config's locator opens and initialises; the new session carries the config's name |
| Client.McpClient.OpenServer | src/client.rs:275-285 | a server that opens gets a new session under its name; a failure leaves the table unchanged |
| Client.McpClient.CreateAllSessions | src/client.rs:270-298 | always Ok; afterwards the table holds the old sessions plus a new session for exactly the configured names that opened |
| Client.McpClient.ListToolsForServer | src/client.rs:301-308 | a name with no session is ServerError "No active session for server '…'"; otherwise that session's tools are refreshed and listed and its whole new state is `ToolsRefreshedView` of the old; every other session's state is unchanged |
| Client.McpClient.CallToolOnServer | src/client.rs:311-322 | a name with no session is ServerError "No active session for server '…'"; otherwise the result is that session's decoded `tools/call` reply and its whole new state is `CalledView` of the old; the table and every other session are unchanged |
| Client.McpClient.RefreshServerTools | src/client.rs:332-337 | one session's refresh succeeds exactly when its listing decodes, and then returns those tools; that session's whole new state is `ToolsRefreshedView` of the old, every other session's is unchanged |
| Client.McpClient.GatherAllTools | src/client.rs:329-343 | the loop over all sessions keeps exactly the sessions whose refresh succeeded, once each, and leaves every session in state `ToolsRefreshedView` of its state before the loop (`Views() == Stepped(before, {})`) |
| Client.McpClient.ListAllTools | src/client.rs:325-346 | never fails; returns one pair per session whose refresh succeeded, no name twice, each with that session's fetched tools; afterwards every session's whole state is `ToolsRefreshedView` of its old state |
| Client.McpClient.CloseSession | src/client.rs:349-355 | always Ok; the entry is removed, and a session that was there is disconnected; an absent name is not an error |
| Client.McpClient.CloseOneOf | src/client.rs:359-363 | one pass of the close-all loop removes and disconnects one session and keeps the others |
| Client.McpClient.CloseAllSessions | src/client.rs:358-364 | always Ok; the table ends empty and every session that was in it is disconnected |
| Agents.DefaultConfig | src/agent.rs:49-56 | ten iterations and no token limit |
| Agents.ResultMessage | src/agent.rs:134-141 | the message reporting a tool result is a User message with one ToolResult whose `tool_use_id` is the call's id and whose content and `is_error` are the tool result's own |
| Agents.NoToolUseTurn | src/agent.rs:112-116 | a turn without tool uses only appends its Text blocks to the answer and leaves the conversation alone |
| Agents.TurnProgress | src/agent.rs:112-147 | after a turn's blocks: text is the in-order concatenation of its Text blocks; one Assistant message is added at the first ToolUse; and each ToolUse is followed, in order, by a User result carrying its id |
| Agents.FailureAbsorbs | src/agent.rs:131 | once a tool call fails, the remaining blocks change nothing |
| Agents.TurnFailureState | src/agent.rs:117-131 | a tool call that fails leaves the state WaitingForToolResult |
| Agents.TurnAppends | src/agent.rs:112-147 | a turn only appends to the conversation |
| Agents.Iteration | src/agent.rs:92-160 | each pass of the loop raises the counter by one |
| Agents.IterationAppends | src/agent.rs:92-160 | each pass only appends to the conversation |
| Agents.IterationStates | src/agent.rs:108-159 | after a pass the agent is Running or Done, or, when it aborted, Running or WaitingForToolResult |
| Agents.PassShape | src/agent.rs:108-159 | a pass that completes ends Done exactly when there was no tool use or the stop reason was EndTurn, and Running otherwise; without tool use it appends exactly one Assistant message; the answer grows by the turn's text |
| Agents.PassAborts | src/agent.rs:96-106 | a failed tool listing, or a failed LLM call wrapped as LLMError, aborts the pass in state Running with the conversation unchanged |
| Agents.RunLoopBounds | src/agent.rs:89-93 | the loop makes at most `max_iterations` passes, so the LLM is called at most that often, and the conversation only grows |
| Agents.RunLoopFinal | src/agent.rs:92-160 | a loop that stops early, without an error, stops Done |
| Agents.RunShape | src/agent.rs:84-170 | the conversation starts with exactly the prompt; Ok means Done; an error is "Max iterations reached" in state Failed (the source's `AgentState::Error`), or an abort in Running or WaitingForToolResult |
| Agents.ZeroBudgetFails | src/agent.rs:162-167 | with a budget of zero the run fails with "Max iterations reached" without calling the LLM |
| Agents.OneTurnAnswer | src/agent.rs:150-167 | a direct answer adds one Assistant message; with a budget of one the run still fails with "Max iterations reached", and with more it returns the answer's text |
| Agents.Agent.constructor | src/agent.rs:69-81 | a new agent is Ready with an empty conversation |
| Agents.Agent.Run | src/agent.rs:84-170 | the returned result, final state and conversation are those of the run model `RunOutcome` (agent.rs:162-167 for the final checks), which runs `RunLoop` (the while loop, agent.rs:89-160) over passes whose blocks `TurnAfter` folds with `BlockStep` (one block, agent.rs:117-146) |
| Agents.Agent.ProcessBlocks | src/agent.rs:112-147 | the block loop ends in the state that `TurnAfter` describes: `BlockStep` applied to each block in order (a Text block appends its text; a ToolUse adds the assistant message once, calls the tool and appends its result, agent.rs:117-146) |
| Agents.Agent.ClearConversation | src/agent.rs:183-185 | empties the conversation and keeps the state |
| Agents.FirstText | src/agent.rs:203-208 | None exactly when there is no Text block; otherwise the first Text block's text |
| Agents.LastUserText | src/agent.rs:199-209 | with no User message the echoed text is empty; otherwise it is the first text of the last User message (empty when that has none) |
| Agents.DummyCall | src/agent.rs:193-217 | one Text block "I received: " followed by the last user text, with stop reason EndTurn |
| Agents.DummyRun | src/agent.rs:193-217 | with the default budget, the dummy provider's run returns "I received: " + prompt and ends Done with two messages |
| Server.DefaultServerConfig | src/server.rs:36-44 | name "MCP Server", version "1.0.0", default capabilities |
| Server.ErrorOf | src/server.rs:198-202 | a handler failure is reported with the error's own code and message |
| Server.McpServer.constructor | src/server.rs:59-69 | empty registries and no resource or prompt handler |
| Server.McpServer.RegisterTool | src/server.rs:72-74 | the tool is stored under its name, replacing any earlier one; nothing else changes |
| Server.McpServer.RegisterResource | src/server.rs:77-79 | the resource is stored under its uri, replacing any earlier one |
| Server.McpServer.RegisterPrompt | src/server.rs:82-84 | the prompt is stored under its name, replacing any earlier one |
| Server.McpServer.SetResourceHandler | src/server.rs:87-89 | installs the resource handler and changes nothing else |
| Server.McpServer.SetPromptHandler | src/server.rs:92-94 | installs the prompt handler and changes nothing else |
| Server.McpServer.HandleInitialize | src/server.rs:97-111 | a "2.0" response with id "1" whose result carries protocol version 2024-11-05, the capabilities and the server's name and version |
| Server.McpServer.HandleToolsList | src/server.rs:114-120 | returns exactly the registered tools, once each |
| Server.McpServer.HandleToolCall | src/server.rs:123-136 | an unregistered name is ToolNotFound before the handler runs; otherwise the handler's error, or its content with `is_error` None |
| Server.McpServer.HandleResourcesList | src/server.rs:139-149 | the handler's list when one is set, otherwise exactly the registered resources |
| Server.McpServer.HandleResourceRead | src/server.rs:152-161 | returns the uri itself when it is registered, or else ResourceNotFound; with a handler, the uri of what the handler returns |
| Server.McpServer.HandlePromptsList | src/server.rs:164-174 | the handler's list when one is set, otherwise exactly the registered prompts |
| Server.McpServer.HandlePromptGet | src/server.rs:177-185 | the handler's answer when one is set; otherwise the registered prompt, or ToolNotFound for a missing name |
| Server.McpServer.HandleRequest | src/server.rs:188-307 | every response echoes the id and "2.0" and sets exactly one of result and error; unrouted methods get -32601; tools/list returns the registry; tools/call reports -32602 for missing params or name, defaults arguments to `{}`, and reports a handler failure with its own code; resources/list and prompts/list report a failing handler's listing as an error with its code and text, and otherwise return the handler's listing or, without a handler, every registered entry once |
| Server.UnknownToolRefused | src/server.rs:241-255 | tools/call on an unregistered name answers -32001 "Tool not found: …" |
| Server.ReadAndGetNotRouted | src/server.rs:287-298 | resources/read and prompts/get are not routed, so they get "Method not found" |
| Anthropic.NewAdapter | src/adapters/anthropic.rs:79-88 | the given key and model, max_tokens 1024 and the default system prompt |
| Anthropic.WithMaxTokens | src/adapters/anthropic.rs:97-100 | replaces max_tokens only |
| Anthropic.WithSystemPrompt | src/adapters/anthropic.rs:103-106 | replaces the system prompt only |
| Anthropic.AdapterFromEnv | src/adapters/anthropic.rs:109-113 | a missing key is InternalError "ANTHROPIC_API_KEY not set"; a present one builds the default adapter |
| Anthropic.RenderToolResult | src/adapters/anthropic.rs:134-152 | the text is `[Tool {id} error: …]` when `is_error` is Some(true), otherwise `[Tool {id} result: …]`, where … is the result's text contents, in order, joined by single spaces |
| Protocol.TextsOf | src/adapters/anthropic.rs:137-143 | the texts are exactly the TextContent items' texts: each one is taken from the content and each TextContent's text is among them; for all-text content they are the texts in order |
| Protocol.TextsOfAppend | src/adapters/openai.rs:365-373 | the texts of two runs of content are the texts of each, in order |
| Anthropic.RenderedResultHoldsTexts | src/adapters/anthropic.rs:137-150 | every text the tool returned appears in its rendering |
| Anthropic.ToolOutputReachesModel | src/adapters/anthropic.rs:129-159 | a message holding a tool result with a text is kept, and its converted content contains that text |
| Anthropic.ContentParts | src/adapters/anthropic.rs:127-157 | the push loop builds exactly `PartsOf` of the blocks |
| Anthropic.PartsOfAppend | src/adapters/anthropic.rs:129-157 | the parts of two block lists are the parts of each, in order |
| Anthropic.OnlyTextAndResultsCount | src/adapters/anthropic.rs:153-155 | ToolUse and Image blocks contribute nothing |
| Anthropic.RoleName | src/adapters/anthropic.rs:166-169 | User is "user" and Assistant is "assistant", both directions |
| Anthropic.ConvertMessage | src/adapters/anthropic.rs:126-173 | a message is kept exactly when its parts joined by newlines are non-empty, and then carries that text and its role name |
| Anthropic.KeptIndices | src/adapters/anthropic.rs:124-174 | the positions of the messages whose conversion is kept, strictly increasing, and every kept position is among them |
| Anthropic.ConvertMessages | src/adapters/anthropic.rs:124-174 | the result has one message per position of `KeptIndices`, in that order, and each is the `Some` conversion of the message at that position; so it holds exactly the non-empty conversions, each with role "user" or "assistant" |
| Anthropic.ConvertMessagesAppend | src/adapters/anthropic.rs:124-174 | conversion maps messages one by one, in order |
| Anthropic.TextMessage | src/adapters/anthropic.rs:159-172 | a single-text message converts to that text, or is dropped when the text is empty |
| Anthropic.TextsAroundResult | src/adapters/anthropic.rs:129-159 | text, tool result and text are joined by newlines in order, with the result rendered |
| Anthropic.ConvertTool | src/adapters/anthropic.rs:181-197 | name kept; description defaults to ""; without a schema, type "object", no properties and no required list; with one, its fields copied |
| Anthropic.ConvertTools | src/adapters/anthropic.rs:177-202 | None exactly for an empty list; otherwise one converted tool per tool, in order |
| Anthropic.BlockRoundTrip | src/adapters/anthropic.rs:243-254 | each vendor block maps to the content block it is recovered from |
| Anthropic.ConvertBlocks | src/adapters/anthropic.rs:240-255 | response blocks map one to one, in order, with tool_use id, name and input kept |
| Anthropic.StopReasonOf | src/adapters/anthropic.rs:258-264 | "tool_use" is ToolUse, "max_tokens" is MaxTokens, and anything else is EndTurn, each both directions |
| Anthropic.StopReasonRoundTrip | src/adapters/anthropic.rs:258-264 | every stop reason is recovered from its wire name |
| Anthropic.BuildRequest | src/adapters/anthropic.rs:205-212 | the request carries the adapter's model, max_tokens and system prompt with the converted messages and tools |
| Anthropic.Call | src/adapters/anthropic.rs:118-270 | an unreachable API is ConnectionError, a refused call and an unparsable body are InternalError with their messages, and an answer maps its blocks one to one and its stop reason |
| OpenAI.NewAdapter | src/adapters/openai.rs:114-121 | the given key and model, without an MCP client |
| OpenAI.AdapterFromEnv | src/adapters/openai.rs:125-130 | a missing key is InternalError "OPENAI_API_KEY not set" |
| OpenAI.WithMcpClient | src/adapters/openai.rs:133-136 | the MCP client is exactly the given one; key and model are kept |
| OpenAI.CallOf | src/adapters/openai.rs:142-156 | an item is a call exactly when it has type "function_call" and string name, arguments and call_id, which the call carries |
| OpenAI.ExtractFunctionCalls | src/adapters/openai.rs:139-161 | the loop builds exactly `CallsOf` of the output |
| OpenAI.CallsOfAppend | src/adapters/openai.rs:141-159 | the calls of two outputs are the calls of each, in order |
| OpenAI.CallsRoundTrip | src/adapters/openai.rs:139-161 | the calls written as function_call items are extracted back unchanged, in order |
| OpenAI.ExtractText | src/adapters/openai.rs:164-201 | the loop builds exactly `TextOfOutput` of the output |
| OpenAI.ContentTextsJoined | src/adapters/openai.rs:178-193 | output_text items are joined with "\n", with no newline before the first |
| OpenAI.MessageTextsJoined | src/adapters/openai.rs:176-194 | a message item's text is its output texts joined with "\n" |
| OpenAI.InputAppend | src/adapters/openai.rs:212-226 | the input is the messages' text segments joined with "\n\n" |
| OpenAI.PromptInput | src/adapters/openai.rs:212-226 | a single prompt message flattens to the prompt |
| OpenAI.RequiredOf | src/adapters/openai.rs:240-270 | the required list holds only url, text, key and selector, in that order |
| OpenAI.RequiredMembers | src/adapters/openai.rs:240-270 | each of url, text, key and selector is required exactly when its test matched |
| OpenAI.InferredParameters | src/adapters/openai.rs:234-283 | type "object"; `params` appears exactly when nothing is required; every property has its fixed description; the required list names exactly the properties |
| OpenAI.InferenceRules | src/adapters/openai.rs:238-270 | url when the name has "navigate" or the lower-cased description has "url"; text for "text"/"click"; key for "key"/"press"; selector for "selector"/"element" |
| OpenAI.FlagsSelectProperties | src/adapters/openai.rs:243-277 | each inferred property is present exactly when its test matched |
| OpenAI.ParametersFor | src/adapters/openai.rs:271-283 | no match gives the single generic `params` property and no required list; otherwise the matched properties, all required |
| OpenAI.GenericParameters | src/adapters/openai.rs:271-277 | a tool with no description whose name lacks "navigate" gets only the generic `params` property |
| OpenAI.ConvertTool | src/adapters/openai.rs:233-299 | type "function", name and description kept; a schema is copied; without one the parameters are inferred |
| OpenAI.ConvertTools | src/adapters/openai.rs:229-305 | None exactly for an empty list; otherwise one converted tool per tool, in order |
| OpenAI.ArgumentsOf | src/adapters/openai.rs:352-357 | unparsable arguments become `{}` |
| OpenAI.ResultText | src/adapters/openai.rs:360-400 | without an MCP client it never fails; with one, it fails exactly when the call fails or returns `is_error` Some(true), always with InternalError, and otherwise reports the result's text contents joined by newlines |
| OpenAI.PlaceholderNotFound | src/adapters/openai.rs:392-399 | without an MCP client, the text is "Tool '…' not found" exactly when no offered tool has that name |
| OpenAI.Executed | src/adapters/openai.rs:349-410 | on success there is one result per call, in order, each carrying the call's id |
| OpenAI.ExecutedStopsAtFailure | src/adapters/openai.rs:376-388 | the first failing call aborts the whole round |
| OpenAI.ExecuteCalls | src/adapters/openai.rs:349-410 | the loop computes exactly `Executed` |
| OpenAI.AppendResults | src/adapters/openai.rs:413-424 | the input gains "\n\nTool execution results:\n" and one "- Call ID {id}: {text}" line per result, in order |
| OpenAI.FinalAnswer | src/adapters/openai.rs:427-439 | one non-empty Text block with stop reason EndTurn: the text, or "No response generated." when it is empty |
| OpenAI.RoundOutcomes | src/adapters/openai.rs:311-440 | each API failure maps to its error; a reply without calls finishes with the final answer; a round with calls continues with the results appended to the input |
| OpenAI.RunRound | src/adapters/openai.rs:311-440 | one round computes exactly `RoundOf` (the request, the reply's failure cases, then the calls executed and their results appended, openai.rs:311-440) |
| OpenAI.ToolLoop | src/adapters/openai.rs:308-446 | the bounded loop computes exactly `CallFrom` from the first round (`RoundOf` repeated while it continues, at most 20 times, then the max-iterations error, openai.rs:308-310 and 443-446) |
| OpenAI.Call | src/adapters/openai.rs:206-447 | the adapter's call computes exactly `CallOutcome` |
| OpenAI.RequestsFrom | src/adapters/openai.rs:310-441 | the rounds send at most 20 requests, and the first one carries the current input |
| OpenAI.RequestsExtend | src/adapters/openai.rs:310-441 | each request's input extends the previous request's input |
| OpenAI.AtMostTwentyRequests | src/adapters/openai.rs:308-310 | one call sends between 1 and 20 requests, the first carrying the flattened messages |
| OpenAI.EndlessCallsExhaust | src/adapters/openai.rs:443-446 | without an MCP client, when every reply asks for function calls, the call fails with "Max tool execution iterations reached without final response" |

## Left out

- Transport I/O is replaced by oracles: the HTTP POST with its timeout, and the subprocess's pipes and line framing. A connector's errors from I/O or from an unparsable reply are entries in its reply script, such as "No process running" or "No stdin available".
- JSON text is not modelled: parsing and printing are left out, and numbers are integers. Floating point is left out too, including the Anthropic `temperature` and `with_temperature`.
- Concurrency is not modelled: `Arc`, `Mutex`, `DashMap` and `block_on` become sequential fields. Clones of a client share their sessions in the source, and the model has one client object, so that sharing is not captured.
- HashMap iteration order is not modelled. Listings of keys and values are stated as "each entry exactly once, in some order".
- `tracing` log lines are left out. So is the joined error report that `create_all_sessions` only logs.
- The agent's `state()` and `conversation()` getters are the `state` and `conversation` fields of the class, read directly.
- `McpClient::default` is `NewMulti`, and `is_connected` is the predicate `Client.McpClient.IsConnected`, which has no contract of its own.
- Stdio environment variables are left out (`set_env`, `with_env_var`, `StdioConnector::from_command`). The client never passes a config's `env` or `headers` to a connector, and neither does the model.
- `timeout_secs` and `retry_attempts` are carried but inert, as in the source. `AgentConfig.max_tokens` is carried and never read.
- The server's capabilities are an opaque JSON value. Resource and prompt descriptors keep only the fields the core reads: uri, name, description and MIME type.
- The inspector dashboard, logging setup, re-export modules and the example programs are not part of this model.
- Connectors.Connector.NewId: ids are a counter rendered as a string, in place of random v4 UUIDs. Only their freshness within one connector is modelled.
- Protocol.NewRequest: the id is a parameter, in place of a fresh v4 UUID.
- Server.McpServer.HandleToolCall: the result id is a parameter, in place of a fresh v4 UUID.
- Connectors.ToolResultFrom: the error is "Invalid tool result: " without serde's explanation of what failed to decode.
- Connectors.Connector.Connect: a failed spawn is "Failed to spawn process" without the operating system's reason.
- Connectors.Connector.Disconnect: always succeeds, as both transports do. Killing and reaping the child process is not modelled.
- Anthropic.Call: the text of an API error or parse error is supplied by the reply oracle, in place of reqwest's and serde's messages.
- OpenAI.RoundOutcomes: the text of an API error or parse error is supplied by the reply oracle. The arguments parser and the MCP tool caller are functions given as parameters.
- OpenAI.InferredParameters: lower-casing is ASCII only, where Rust's `to_lowercase` is full Unicode.
- Anthropic.AdapterFromEnv: the environment lookup is a parameter, the key or None.
- OpenAI.AdapterFromEnv: the environment lookup is a parameter, the key or None.
