/**
 * The Anthropic adapter: translation of the conversation and the tools into
 * the vendor's Messages request, and of its reply into an LLM response.
 *
 * The HTTP exchange is an oracle from the request to the reply.
 */
module Anthropic {
  import opened Wrappers
  import opened Json
  import opened Errors
  import opened Protocol
  import opened Strings
  import opened Agents

  datatype AnthropicMessage = AnthropicMessage(role: string, content: string)

  datatype AnthropicToolInput = AnthropicToolInput(typeField: string, properties: map<string, Value>, required: Option<seq<string>>)

  datatype AnthropicTool = AnthropicTool(name: string, description: string, inputSchema: AnthropicToolInput)

  /** The request body; the temperature is not part of this model. */
  datatype AnthropicRequest = AnthropicRequest(model: string, maxTokens: int, messages: seq<AnthropicMessage>,
                                               tools: Option<seq<AnthropicTool>>, system: string)

  datatype AnthropicBlock = TextBlock(text: string) | ToolUseBlock(id: string, name: string, input: Value)

  datatype AnthropicResponse = AnthropicResponse(content: seq<AnthropicBlock>, stopReason: string)

  /**
   * How the HTTP exchange ends: the request is not sent (with the client's
   * error text), the status is not a success (with the body), the body is
   * not a response (with the parser's error text), or a response.
   */
  datatype ApiReply = Unreachable(reason: string) | Rejected(body: string) | Unparseable(reason: string)
                    | Answered(response: AnthropicResponse)

  /** The adapter's settings; the temperature is not part of this model. */
  datatype AnthropicAdapter = AnthropicAdapter(apiKey: string, model: string, maxTokens: int, systemPrompt: string)

  const DEFAULT_SYSTEM_PROMPT: string := "You are a helpful AI assistant."

  // ---------------------------------------------------------------------------
  // Construction
  // ---------------------------------------------------------------------------

  /** `AnthropicAdapter::new`: 1024 tokens and the default system prompt. */
  function NewAdapter(apiKey: string, model: string): (a: AnthropicAdapter)
    ensures a.apiKey == apiKey && a.model == model
    ensures a.maxTokens == 1024 && a.systemPrompt == DEFAULT_SYSTEM_PROMPT
  {
    AnthropicAdapter(apiKey, model, 1024, DEFAULT_SYSTEM_PROMPT)
  }

  /** `with_max_tokens`: replaces the token limit only. */
  function WithMaxTokens(a: AnthropicAdapter, maxTokens: int): (b: AnthropicAdapter)
    ensures b.maxTokens == maxTokens
    ensures b.apiKey == a.apiKey && b.model == a.model && b.systemPrompt == a.systemPrompt
  {
    a.(maxTokens := maxTokens)
  }

  /** `with_system_prompt`: replaces the system prompt only. */
  function WithSystemPrompt(a: AnthropicAdapter, prompt: string): (b: AnthropicAdapter)
    ensures b.systemPrompt == prompt
    ensures b.apiKey == a.apiKey && b.model == a.model && b.maxTokens == a.maxTokens
  {
    a.(systemPrompt := prompt)
  }

  /** `from_env`: `key` is the value of `ANTHROPIC_API_KEY`, if set. */
  function AdapterFromEnv(model: string, key: Option<string>): (r: Result<AnthropicAdapter>)
    ensures key.None? ==> r == Err(InternalError("ANTHROPIC_API_KEY not set"))
    ensures key.Some? ==> r.Ok? && r.value.apiKey == key.value && r.value.model == model && r.value.maxTokens == 1024
  {
    match key
    case Some(k) => Ok(NewAdapter(k, model))
    case None => Err(InternalError("ANTHROPIC_API_KEY not set"))
  }

  // ---------------------------------------------------------------------------
  // Messages
  // ---------------------------------------------------------------------------

  /** A tool result as text: its text contents joined by spaces, tagged as an error or a result. */
  function RenderToolResult(id: string, content: seq<ResultContent>, isError: Option<bool>): (r: string)
    ensures StartsWith(r, "[Tool " + id + (if isError == Some(true) then " error: " else " result: "))
    ensures |r| > 0 && r[|r| - 1] == ']'
    ensures r == "[Tool " + id + (if isError == Some(true) then " error: " else " result: ")
                 + Join(TextsOf(content), " ") + "]"
  {
    var tag := if isError.GetOr(false) then " error: " else " result: ";
    var r := "[Tool " + id + tag + Join(TextsOf(content), " ") + "]";
    StartsWithConcat("[Tool " + id + tag, Join(TextsOf(content), " ") + "]");
    assert r == ("[Tool " + id + tag) + (Join(TextsOf(content), " ") + "]");
    r
  }

  /** Every text the tool returned appears in its rendering. */
  lemma RenderedResultHoldsTexts(id: string, content: seq<ResultContent>, isError: Option<bool>, i: int)
    requires 0 <= i < |content| && content[i].TextContent?
    ensures Contains(RenderToolResult(id, content, isError), content[i].text)
  {
    var texts := TextsOf(content);
    var j :| 0 <= j < |texts| && texts[j] == content[i].text;
    JoinHoldsParts(texts, " ", j);
    var tag := if isError == Some(true) then " error: " else " result: ";
    ContainsWithin("[Tool " + id + tag, Join(texts, " "), "]", content[i].text);
  }

  /** The text a block contributes to its message: text as it is, a tool result rendered; nothing for the rest. */
  function PartOf(b: ContentBlock): Option<string> {
    match b
    case Text(t) => Some(t)
    case ToolResultBlock(id, content, isError) => Some(RenderToolResult(id, content, isError))
    case _ => None
  }

  /** The parts of a message's blocks, in order. */
  function PartsOf(blocks: seq<ContentBlock>): (parts: seq<string>)
    ensures |parts| <= |blocks|
  {
    if blocks == [] then []
    else
      var last := PartOf(blocks[|blocks| - 1]);
      PartsOf(blocks[..|blocks| - 1]) + (if last.Some? then [last.value] else [])
  }

  /** The `content_parts` loop of `call`. */
  method ContentParts(blocks: seq<ContentBlock>) returns (parts: seq<string>)
    ensures parts == PartsOf(blocks)
  {
    parts := [];
    for i := 0 to |blocks|
      invariant parts == PartsOf(blocks[..i])
    {
      assert blocks[..i + 1][..i] == blocks[..i];
      match blocks[i]
      case Text(t) =>
        parts := parts + [t];
      case ToolResultBlock(id, content, isError) =>
        parts := parts + [RenderToolResult(id, content, isError)];
      case _ =>
    }
    assert blocks[..|blocks|] == blocks;
  }

  /** The parts of two runs of blocks are the parts of each, in order. */
  lemma {:induction false} PartsOfAppend(a: seq<ContentBlock>, b: seq<ContentBlock>)
    ensures PartsOf(a + b) == PartsOf(a) + PartsOf(b)
    decreases |b|
  {
    if b == [] {
      assert a + b == a;
    } else {
      var b' := b[..|b| - 1];
      assert (a + b)[..|a + b| - 1] == a + b';
      assert (a + b)[|a + b| - 1] == b[|b| - 1];
      PartsOfAppend(a, b');
    }
  }

  /** Every block that contributes a part has its part among the message's parts. */
  lemma {:induction false} PartsOfHas(blocks: seq<ContentBlock>, j: int)
    requires 0 <= j < |blocks| && PartOf(blocks[j]).Some?
    ensures PartOf(blocks[j]).value in PartsOf(blocks)
    decreases |blocks|
  {
    if j < |blocks| - 1 {
      var front := blocks[..|blocks| - 1];
      assert front[j] == blocks[j];
      PartsOfHas(front, j);
    }
  }

  /**
   * A text a tool returned reaches the vendor: the message holding the tool
   * result is kept, and its content contains that text.
   */
  lemma ToolOutputReachesModel(m: Message, j: int, i: int)
    requires 0 <= j < |m.content| && m.content[j].ToolResultBlock?
    requires 0 <= i < |m.content[j].content| && m.content[j].content[i].TextContent?
    ensures ConvertMessage(m).Some?
    ensures Contains(ConvertMessage(m).value.content, m.content[j].content[i].text)
  {
    var b := m.content[j];
    var rendered := RenderToolResult(b.toolUseId, b.content, b.isError);
    PartsOfHas(m.content, j);
    var parts := PartsOf(m.content);
    var k :| 0 <= k < |parts| && parts[k] == rendered;
    JoinHoldsParts(parts, "\n", k);
    ContainsNonEmpty(Join(parts, "\n"), rendered);
    RenderedResultHoldsTexts(b.toolUseId, b.content, b.isError, i);
    ContainsTrans(Join(parts, "\n"), rendered, b.content[i].text);
  }

  /** Tool uses and images contribute nothing. */
  lemma {:induction false} OnlyTextAndResultsCount(blocks: seq<ContentBlock>)
    requires forall i :: 0 <= i < |blocks| ==> blocks[i].ToolUse? || blocks[i].Image?
    ensures PartsOf(blocks) == []
  {
    if blocks != [] {
      OnlyTextAndResultsCount(blocks[..|blocks| - 1]);
    }
  }

  function RoleName(role: Role): (r: string)
    ensures r == "user" <==> role == User
    ensures r == "assistant" <==> role == Assistant
  {
    match role
    case User => "user"
    case Assistant => "assistant"
  }

  /** One message: its parts joined by newlines, dropped when that is empty. */
  function ConvertMessage(m: Message): (r: Option<AnthropicMessage>)
    ensures r.Some? <==> Join(PartsOf(m.content), "\n") != ""
    ensures r.Some? ==> r.value.role == RoleName(m.role) && r.value.content == Join(PartsOf(m.content), "\n")
  {
    var content := Join(PartsOf(m.content), "\n");
    if content == "" then None else Some(AnthropicMessage(RoleName(m.role), content))
  }

  /** The positions of the messages that convert to something, in increasing order. */
  function KeptIndices(messages: seq<Message>): (ks: seq<nat>)
    ensures forall i, j :: 0 <= i < j < |ks| ==> ks[i] < ks[j]
    ensures forall i :: 0 <= i < |ks| ==> ks[i] < |messages| && ConvertMessage(messages[ks[i]]).Some?
    ensures forall k :: 0 <= k < |messages| && ConvertMessage(messages[k]).Some? ==> k in ks
  {
    if messages == [] then []
    else
      var front := messages[..|messages| - 1];
      assert forall k :: 0 <= k < |front| ==> messages[k] == front[k];
      KeptIndices(front) + (if ConvertMessage(messages[|front|]).Some? then [|front|] else [])
  }

  /**
   * The conversation in the vendor's form: the converted messages that are
   * not empty, in the order of the messages they come from.
   */
  function ConvertMessages(messages: seq<Message>): (r: seq<AnthropicMessage>)
    ensures |r| == |KeptIndices(messages)| <= |messages|
    ensures forall i :: 0 <= i < |r| ==>
      var k := KeptIndices(messages)[i]; k < |messages| && ConvertMessage(messages[k]) == Some(r[i])
    ensures forall i :: 0 <= i < |r| ==> r[i].content != "" && r[i].role in {"user", "assistant"}
  {
    if messages == [] then []
    else
      var front := messages[..|messages| - 1];
      var last := ConvertMessage(messages[|messages| - 1]);
      assert KeptIndices(messages) == KeptIndices(front) + (if last.Some? then [|front|] else []);
      assert forall i :: 0 <= i < |KeptIndices(front)| ==> messages[KeptIndices(front)[i]] == front[KeptIndices(front)[i]];
      ConvertMessages(front) + (if last.Some? then [last.value] else [])
  }

  /** Conversion works message by message, keeping their order. */
  lemma {:induction false} ConvertMessagesAppend(a: seq<Message>, b: seq<Message>)
    ensures ConvertMessages(a + b) == ConvertMessages(a) + ConvertMessages(b)
    decreases |b|
  {
    if b == [] {
      assert a + b == a;
    } else {
      var b' := b[..|b| - 1];
      assert (a + b)[..|a + b| - 1] == a + b';
      assert (a + b)[|a + b| - 1] == b[|b| - 1];
      ConvertMessagesAppend(a, b');
    }
  }

  /** A message of one text block becomes that text under its role, unless the text is empty. */
  lemma TextMessage(role: Role, text: string)
    ensures ConvertMessages([Message(role, [Text(text)])])
      == if text == "" then [] else [AnthropicMessage(RoleName(role), text)]
  {
    var m := Message(role, [Text(text)]);
    assert m.content[..0] == [];
    assert PartsOf(m.content) == [text];
    assert [m][..0] == [];
  }

  /** A tool result between two texts: the three parts joined by newlines, the result tagged with its id. */
  lemma TextsAroundResult(role: Role, before: string, id: string, content: seq<ResultContent>, isError: Option<bool>, after: string)
    ensures ConvertMessage(Message(role, [Text(before), ToolResultBlock(id, content, isError), Text(after)]))
      == Some(AnthropicMessage(RoleName(role), before + "\n" + RenderToolResult(id, content, isError) + "\n" + after))
  {
    var blocks := [Text(before), ToolResultBlock(id, content, isError), Text(after)];
    var rendered := RenderToolResult(id, content, isError);
    assert blocks[..1][..0] == [];
    assert PartsOf(blocks[..1]) == [before];
    assert blocks[..2][..1] == blocks[..1];
    assert PartsOf(blocks[..2]) == [before, rendered];
    assert blocks[..3][..2] == blocks[..2] && blocks[..3] == blocks;
    assert PartsOf(blocks) == [before, rendered, after];
    var joined := before + "\n" + rendered + "\n" + after;
    assert [before, rendered, after][1..] == [rendered, after];
    assert [rendered, after][1..] == [after];
    assert Join([rendered, after], "\n") == rendered + "\n" + after;
    assert Join([before, rendered, after], "\n") == before + "\n" + (rendered + "\n" + after);
    assert Join(PartsOf(blocks), "\n") == joined;
    assert |joined| > 0;
  }

  // ---------------------------------------------------------------------------
  // Tools
  // ---------------------------------------------------------------------------

  /** One tool: no description is "", no schema is an `object` with no properties and no required list. */
  function ConvertTool(t: Tool): (r: AnthropicTool)
    ensures r.name == t.name && r.description == t.description.GetOr("")
    ensures t.inputSchema.None? ==> r.inputSchema == AnthropicToolInput("object", map[], None)
    ensures t.inputSchema.Some? ==> (var s := t.inputSchema.value;
      r.inputSchema == AnthropicToolInput(s.schemaType, s.properties, s.required))
  {
    var input := match t.inputSchema
      case Some(s) => AnthropicToolInput(s.schemaType, s.properties, s.required)
      case None => AnthropicToolInput("object", map[], None);
    AnthropicTool(t.name, t.description.GetOr(""), input)
  }

  /** No tools are sent when there are none; otherwise one per tool, in order. */
  function ConvertTools(tools: seq<Tool>): (r: Option<seq<AnthropicTool>>)
    ensures r.None? <==> tools == []
    ensures r.Some? ==> |r.value| == |tools| && forall i :: 0 <= i < |tools| ==> r.value[i] == ConvertTool(tools[i])
  {
    if tools == [] then None else Some(seq(|tools|, i requires 0 <= i < |tools| => ConvertTool(tools[i])))
  }

  // ---------------------------------------------------------------------------
  // Replies
  // ---------------------------------------------------------------------------

  /** A vendor block as a content block. */
  function ConvertBlock(b: AnthropicBlock): ContentBlock {
    match b
    case TextBlock(t) => Text(t)
    case ToolUseBlock(id, name, input) => ToolUse(id, name, input)
  }

  /** A content block back in the vendor's form, for the kinds the vendor sends. */
  function BlockOf(c: ContentBlock): Option<AnthropicBlock> {
    match c
    case Text(t) => Some(TextBlock(t))
    case ToolUse(id, name, input) => Some(ToolUseBlock(id, name, input))
    case _ => None
  }

  /** Block conversion loses nothing: text, and a tool use's id, name and input, are kept. */
  lemma BlockRoundTrip(b: AnthropicBlock)
    ensures BlockOf(ConvertBlock(b)) == Some(b)
  {
  }

  /** The reply's blocks, one for one, in order. */
  function ConvertBlocks(bs: seq<AnthropicBlock>): (r: seq<ContentBlock>)
    ensures |r| == |bs| && forall i :: 0 <= i < |bs| ==> BlockOf(r[i]) == Some(bs[i])
  {
    seq(|bs|, i requires 0 <= i < |bs| => ConvertBlock(bs[i]))
  }

  /** The stop reason: "tool_use" and "max_tokens" are recognised, anything else ends the turn. */
  function StopReasonOf(s: string): (r: StopReason)
    ensures r == ToolUseStop <==> s == "tool_use"
    ensures r == MaxTokens <==> s == "max_tokens"
    ensures r == EndTurn <==> s != "tool_use" && s != "max_tokens"
  {
    if s == "tool_use" then ToolUseStop else if s == "max_tokens" then MaxTokens else EndTurn
  }

  /** The vendor's name of a stop reason. */
  function WireStopReason(r: StopReason): string {
    match r
    case EndTurn => "end_turn"
    case ToolUseStop => "tool_use"
    case MaxTokens => "max_tokens"
  }

  lemma StopReasonRoundTrip(r: StopReason)
    ensures StopReasonOf(WireStopReason(r)) == r
  {
  }

  // ---------------------------------------------------------------------------
  // The call
  // ---------------------------------------------------------------------------

  /** The request `call` sends. */
  function BuildRequest(a: AnthropicAdapter, messages: seq<Message>, tools: seq<Tool>): (r: AnthropicRequest)
    ensures r.model == a.model && r.maxTokens == a.maxTokens && r.system == a.systemPrompt
    ensures r.messages == ConvertMessages(messages) && r.tools == ConvertTools(tools)
  {
    AnthropicRequest(a.model, a.maxTokens, ConvertMessages(messages), ConvertTools(tools), a.systemPrompt)
  }

  /**
   * `call`: sends the request, maps the exchange's failures to errors, and
   * converts the reply's blocks and stop reason.
   */
  function Call(a: AnthropicAdapter, messages: seq<Message>, tools: seq<Tool>, api: AnthropicRequest -> ApiReply)
    : (r: Result<LLMResponse>)
    ensures var reply := api(BuildRequest(a, messages, tools));
      && (reply.Unreachable? ==> r == Err(ConnectionError("Anthropic API error: " + reply.reason)))
      && (reply.Rejected? ==> r == Err(InternalError("Anthropic API error: " + reply.body)))
      && (reply.Unparseable? ==> r == Err(InternalError("Failed to parse Anthropic response: " + reply.reason)))
      && (reply.Answered? ==>
            && r.Ok?
            && |r.value.content| == |reply.response.content|
            && (forall i :: 0 <= i < |r.value.content| ==> BlockOf(r.value.content[i]) == Some(reply.response.content[i]))
            && r.value.stopReason == StopReasonOf(reply.response.stopReason))
  {
    match api(BuildRequest(a, messages, tools))
    case Unreachable(reason) => Err(ConnectionError("Anthropic API error: " + reason))
    case Rejected(body) => Err(InternalError("Anthropic API error: " + body))
    case Unparseable(reason) => Err(InternalError("Failed to parse Anthropic response: " + reason))
    case Answered(response) => Ok(LLMResponse(ConvertBlocks(response.content), StopReasonOf(response.stopReason)))
  }
}
