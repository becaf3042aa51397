/**
 * The OpenAI adapter: the conversation flattened into one input text, the
 * tools with parameter schemas (inferred when a tool has none), and the
 * bounded tool-execution loop over the Responses API.
 *
 * The HTTP exchange is an oracle from the request to the reply; the JSON
 * parser of call arguments is an oracle from text to an optional value; an
 * attached MCP client is an oracle indexed by the number of tool calls it has
 * answered during this call.
 */
module OpenAI {
  import opened Wrappers
  import opened Json
  import opened Errors
  import opened Protocol
  import opened Strings
  import opened Agents

  datatype FunctionCall = FunctionCall(name: string, argumentsStr: string, callId: string)

  datatype OpenAIToolParameters = OpenAIToolParameters(typeField: string, properties: map<string, Value>, required: Option<seq<string>>)

  datatype OpenAITool = OpenAITool(typeField: string, name: string, description: Option<string>, parameters: Option<OpenAIToolParameters>)

  datatype OpenAIRequest = OpenAIRequest(model: string, input: string, tools: Option<seq<OpenAITool>>)

  /**
   * How one HTTP exchange ends: the request is not sent, the status is not a
   * success (with the body), the body cannot be read, the body is not a
   * response (with the parser's error and the body), or the response's
   * `output` items.
   */
  datatype ApiReply =
    | Unreachable(reason: string)
    | Rejected(body: string)
    | Unreadable(reason: string)
    | Unparseable(reason: string, body: string)
    | Answered(output: seq<Value>)

  /** An attached MCP client's `call_tool`: the nat counts the tool calls it answered before this one. */
  type ToolCaller = (nat, string, Value) -> Result<ToolResult>

  datatype OpenAIAdapter = OpenAIAdapter(apiKey: string, model: string, mcpClient: Option<ToolCaller>)

  const MAX_ITERATIONS: nat := 20
  const RESULTS_HEADER: string := "\n\nTool execution results:\n"
  const NO_RESPONSE: string := "No response generated."

  // ---------------------------------------------------------------------------
  // Construction
  // ---------------------------------------------------------------------------

  /** `OpenAIAdapter::new`: no MCP client attached. */
  function NewAdapter(apiKey: string, model: string): (a: OpenAIAdapter)
    ensures a.apiKey == apiKey && a.model == model && a.mcpClient.None?
  {
    OpenAIAdapter(apiKey, model, None)
  }

  /** `from_env`: `key` is the value of `OPENAI_API_KEY`, if set. */
  function AdapterFromEnv(model: string, key: Option<string>): (r: Result<OpenAIAdapter>)
    ensures key.None? ==> r == Err(InternalError("OPENAI_API_KEY not set"))
    ensures key.Some? ==> r.Ok? && r.value.apiKey == key.value && r.value.model == model && r.value.mcpClient.None?
  {
    match key
    case Some(k) => Ok(NewAdapter(k, model))
    case None => Err(InternalError("OPENAI_API_KEY not set"))
  }

  /** `with_mcp_client`: attaches the client, keeping the key and the model. */
  function WithMcpClient(a: OpenAIAdapter, client: ToolCaller): (b: OpenAIAdapter)
    ensures b.mcpClient == Some(client) && b.apiKey == a.apiKey && b.model == a.model
  {
    a.(mcpClient := Some(client))
  }

  // ---------------------------------------------------------------------------
  // Function calls in the output
  // ---------------------------------------------------------------------------

  /** An output item as a function call: a `function_call` object with string name, arguments and call id. */
  function CallOf(item: Value): (r: Option<FunctionCall>)
    ensures r.Some? ==> GetStr(item, "type") == Some("function_call")
    ensures r.Some? ==>
      GetStr(item, "name") == Some(r.value.name) && GetStr(item, "arguments") == Some(r.value.argumentsStr)
      && GetStr(item, "call_id") == Some(r.value.callId)
    ensures r.None? ==>
      GetStr(item, "type") != Some("function_call") || GetStr(item, "name").None?
      || GetStr(item, "arguments").None? || GetStr(item, "call_id").None?
  {
    var name := GetStr(item, "name");
    var arguments := GetStr(item, "arguments");
    var callId := GetStr(item, "call_id");
    if GetStr(item, "type") == Some("function_call") && name.Some? && arguments.Some? && callId.Some?
    then Some(FunctionCall(name.value, arguments.value, callId.value))
    else None
  }

  /** The output item that announces a function call. */
  function CallItem(c: FunctionCall): Value {
    Object(map["type" := Str("function_call"), "name" := Str(c.name), "arguments" := Str(c.argumentsStr),
               "call_id" := Str(c.callId)])
  }

  /** The function calls of an output, in order. */
  function CallsOf(output: seq<Value>): (calls: seq<FunctionCall>)
    ensures |calls| <= |output|
  {
    if output == [] then []
    else
      var last := CallOf(output[|output| - 1]);
      CallsOf(output[..|output| - 1]) + (if last.Some? then [last.value] else [])
  }

  /** `extract_function_calls`. */
  method ExtractFunctionCalls(output: seq<Value>) returns (calls: seq<FunctionCall>)
    ensures calls == CallsOf(output)
  {
    calls := [];
    for i := 0 to |output|
      invariant calls == CallsOf(output[..i])
    {
      assert output[..i + 1][..i] == output[..i];
      var item := output[i];
      if GetStr(item, "type") == Some("function_call") {
        var name := GetStr(item, "name");
        var arguments := GetStr(item, "arguments");
        var callId := GetStr(item, "call_id");
        if name.Some? && arguments.Some? && callId.Some? {
          calls := calls + [FunctionCall(name.value, arguments.value, callId.value)];
        }
      }
    }
    assert output[..|output|] == output;
  }

  /** Calls are extracted item by item, keeping their order. */
  lemma {:induction false} CallsOfAppend(a: seq<Value>, b: seq<Value>)
    ensures CallsOf(a + b) == CallsOf(a) + CallsOf(b)
    decreases |b|
  {
    if b == [] {
      assert a + b == a;
    } else {
      var b' := b[..|b| - 1];
      assert (a + b)[..|a + b| - 1] == a + b';
      assert (a + b)[|a + b| - 1] == b[|b| - 1];
      CallsOfAppend(a, b');
    }
  }

  /** An output announcing calls yields exactly those calls, in order. */
  lemma {:induction false} CallsRoundTrip(cs: seq<FunctionCall>)
    ensures CallsOf(seq(|cs|, i requires 0 <= i < |cs| => CallItem(cs[i]))) == cs
    decreases |cs|
  {
    if cs != [] {
      var items := seq(|cs|, i requires 0 <= i < |cs| => CallItem(cs[i]));
      var cs' := cs[..|cs| - 1];
      assert items[..|items| - 1] == seq(|cs'|, i requires 0 <= i < |cs'| => CallItem(cs'[i]));
      CallsRoundTrip(cs');
      var c := cs[|cs| - 1];
      assert GetStr(CallItem(c), "name") == Some(c.name);
      assert GetStr(CallItem(c), "arguments") == Some(c.argumentsStr);
      assert GetStr(CallItem(c), "call_id") == Some(c.callId);
      assert GetStr(CallItem(c), "type") == Some("function_call");
      assert cs == cs' + [c];
    }
  }

  // ---------------------------------------------------------------------------
  // Text in the output
  // ---------------------------------------------------------------------------

  /** What one item of a message's content adds: an `output_text`'s text, after a newline unless nothing came before. */
  function AddContentText(acc: string, item: Value): (r: string)
    ensures StartsWith(r, acc)
  {
    var text := GetStr(item, "text");
    if GetStr(item, "type") == Some("output_text") && text.Some? then
      StartsWithConcat(if acc != "" then acc + "\n" else acc, text.value);
      StartsWithConcat(acc, "\n");
      (if acc != "" then acc + "\n" else acc) + text.value
    else acc
  }

  /** The texts of a message's content items added in order. */
  function AddContentTexts(acc: string, items: seq<Value>): (r: string)
    ensures StartsWith(r, acc)
  {
    if items == [] then acc
    else
      var before := AddContentTexts(acc, items[..|items| - 1]);
      var r := AddContentText(before, items[|items| - 1]);
      StartsWithTrans(r, before, acc);
      r
  }

  /** What one output item adds: a `text` item's text directly, a `message` item's content texts; nothing otherwise. */
  function AddItemText(acc: string, item: Value): (r: string)
    ensures StartsWith(r, acc)
  {
    var kind := GetStr(item, "type");
    if kind == Some("text") then
      match GetStr(item, "text")
      case Some(t) => StartsWithConcat(acc, t); acc + t
      case None => acc
    else if kind == Some("message") then
      match Get(item, "content")
      case Some(Array(items)) => AddContentTexts(acc, items)
      case _ => acc
    else acc
  }

  /** The text of output items added in order. */
  function TextOfOutput(acc: string, output: seq<Value>): (r: string)
    ensures StartsWith(r, acc)
  {
    if output == [] then acc
    else
      var before := TextOfOutput(acc, output[..|output| - 1]);
      var r := AddItemText(before, output[|output| - 1]);
      StartsWithTrans(r, before, acc);
      r
  }

  /** `extract_text`. */
  method ExtractText(output: seq<Value>) returns (text: string)
    ensures text == TextOfOutput("", output)
  {
    text := "";
    for i := 0 to |output|
      invariant text == TextOfOutput("", output[..i])
    {
      assert output[..i + 1][..i] == output[..i];
      var item := output[i];
      var kind := GetStr(item, "type");
      if kind == Some("text") {
        var t := GetStr(item, "text");
        if t.Some? {
          text := text + t.value;
        }
      } else if kind == Some("message") {
        var content := Get(item, "content");
        if content.Some? && content.value.Array? {
          var items := content.value.items;
          ghost var before := text;
          for j := 0 to |items|
            invariant text == AddContentTexts(before, items[..j])
          {
            assert items[..j + 1][..j] == items[..j];
            var piece := items[j];
            var pieceText := GetStr(piece, "text");
            if GetStr(piece, "type") == Some("output_text") && pieceText.Some? {
              if text != "" {
                text := text + "\n";
              }
              text := text + pieceText.value;
            }
          }
          assert items[..|items|] == items;
        }
      }
    }
    assert output[..|output|] == output;
  }

  /** An `output_text` content item. */
  function OutputTextItem(text: string): Value {
    Object(map["type" := Str("output_text"), "text" := Str(text)])
  }

  /** A `message` output item whose content is the given texts. */
  function MessageItem(texts: seq<string>): Value {
    Object(map["type" := Str("message"),
               "content" := Array(seq(|texts|, i requires 0 <= i < |texts| => OutputTextItem(texts[i])))])
  }

  lemma {:induction false} ContentTextsJoined(texts: seq<string>)
    requires texts != [] ==> texts[0] != ""
    ensures AddContentTexts("", seq(|texts|, i requires 0 <= i < |texts| => OutputTextItem(texts[i]))) == Join(texts, "\n")
    decreases |texts|
  {
    var items := seq(|texts|, i requires 0 <= i < |texts| => OutputTextItem(texts[i]));
    if texts != [] {
      var texts' := texts[..|texts| - 1];
      var last := texts[|texts| - 1];
      assert items[..|items| - 1] == seq(|texts'|, i requires 0 <= i < |texts'| => OutputTextItem(texts'[i]));
      ContentTextsJoined(texts');
      assert GetStr(OutputTextItem(last), "type") == Some("output_text");
      assert GetStr(OutputTextItem(last), "text") == Some(last);
      assert texts == texts' + [last];
      if texts' != [] {
        assert Join(texts', "\n") != "" by {
          if |texts'| > 1 {
            assert Join(texts', "\n") == texts'[0] + "\n" + Join(texts'[1..], "\n");
          }
        }
        JoinSnoc(texts', last, "\n");
      }
    }
  }

  /** A message's texts come out joined by newlines when the first is not empty. */
  lemma MessageTextsJoined(texts: seq<string>)
    requires texts != [] ==> texts[0] != ""
    ensures TextOfOutput("", [MessageItem(texts)]) == Join(texts, "\n")
  {
    ContentTextsJoined(texts);
    assert [MessageItem(texts)][..0] == [];
    assert GetStr(MessageItem(texts), "type") == Some("message");
  }

  // ---------------------------------------------------------------------------
  // Input
  // ---------------------------------------------------------------------------

  /** The texts of a message's text blocks, in order. */
  function TextBlocks(content: seq<ContentBlock>): (r: seq<string>)
    ensures |r| <= |content|
  {
    if content == [] then []
    else (if content[0].Text? then [content[0].text] else []) + TextBlocks(content[1..])
  }

  /** What one message contributes to the input: its texts joined by newlines, possibly empty. */
  function Segment(m: Message): string {
    Join(TextBlocks(m.content), "\n")
  }

  /** The conversation as one input text: every message's segment, separated by blank lines. */
  function InputOf(messages: seq<Message>): string {
    Join(seq(|messages|, i requires 0 <= i < |messages| => Segment(messages[i])), "\n\n")
  }

  /** Each further message adds a blank line and its segment, even an empty one. */
  lemma InputAppend(messages: seq<Message>, m: Message)
    requires messages != []
    ensures InputOf(messages + [m]) == InputOf(messages) + "\n\n" + Segment(m)
  {
    var all := messages + [m];
    var segments := seq(|messages|, i requires 0 <= i < |messages| => Segment(messages[i]));
    assert seq(|all|, i requires 0 <= i < |all| => Segment(all[i])) == segments + [Segment(m)];
    JoinSnoc(segments, Segment(m), "\n\n");
  }

  /** A lone prompt is sent as it is. */
  lemma PromptInput(prompt: string)
    ensures InputOf([UserMessage(prompt)]) == prompt
  {
    var m := UserMessage(prompt);
    assert m.content[1..] == [];
    assert TextBlocks(m.content) == [prompt];
    assert seq(1, i requires 0 <= i < 1 => Segment([m][i])) == [prompt];
  }

  // ---------------------------------------------------------------------------
  // Tools
  // ---------------------------------------------------------------------------

  /** The schema of an inferred string or object property. */
  function Property(typ: string, description: string): Value {
    Object(map["type" := Str(typ), "description" := Str(description)])
  }

  /** The property an inferred parameter name stands for. */
  function PropertyFor(key: string): Value {
    if key == "url" then Property("string", "The URL to navigate to")
    else if key == "text" then Property("string", "The text to search for or interact with")
    else if key == "key" then Property("string", "The key to press")
    else if key == "selector" then Property("string", "CSS selector for the element")
    else Property("object", "Parameters for this tool")
  }

  /** The order in which inferred parameters are listed as required. */
  function Rank(key: string): nat {
    if key == "url" then 0 else if key == "text" then 1 else if key == "key" then 2 else if key == "selector" then 3 else 4
  }

  /** The parameter names inference can produce. */
  predicate Inferable(k: string) {
    k == "url" || k == "text" || k == "key" || k == "selector"
  }

  /** Names listed in strictly increasing rank. */
  predicate Ordered(names: seq<string>) {
    forall i, j :: 0 <= i < j < |names| ==> Rank(names[i]) < Rank(names[j])
  }

  /** `k` in front of `rest` when `flag` holds. */
  function PushIf(flag: bool, k: string, rest: seq<string>): (r: seq<string>)
    requires Ordered(rest) && forall x :: x in rest ==> Rank(k) < Rank(x)
    ensures Ordered(r)
    ensures forall x :: x in r <==> x in rest || (flag && x == k)
  {
    if flag then [k] + rest else rest
  }

  /** The names of the matched parameters, in the order url, text, key, selector. */
  function RequiredOf(url: bool, text: bool, key: bool, selector: bool): (r: seq<string>)
    ensures forall k :: k in r ==> Inferable(k)
    ensures Ordered(r)
  {
    var withSelector := PushIf(selector, "selector", []);
    var withKey := PushIf(key, "key", withSelector);
    var withText := PushIf(text, "text", withKey);
    PushIf(url, "url", withText)
  }

  /** Each name is required exactly when its flag is set. */
  lemma RequiredMembers(url: bool, text: bool, key: bool, selector: bool)
    ensures var r := RequiredOf(url, text, key, selector);
      ("url" in r <==> url) && ("text" in r <==> text) && ("key" in r <==> key) && ("selector" in r <==> selector)
  {
  }

  /**
   * The parameters of a tool without a schema, inferred from its name and its
   * lower-cased description; a generic `params` object when nothing matches.
   */
  function InferredParameters(name: string, description: Option<string>): (p: OpenAIToolParameters)
    ensures p.typeField == "object"
    ensures "params" in p.properties <==> p.required.None?
    ensures forall k :: k in p.properties ==> (Inferable(k) || k == "params") && p.properties[k] == PropertyFor(k)
    ensures p.required.Some? ==> Ordered(p.required.value) && forall k :: k in p.required.value <==> k in p.properties
  {
    var desc := Lower(description.GetOr(""));
    var url := Contains(name, "navigate") || Contains(desc, "url");
    var text := Contains(desc, "text") || Contains(desc, "click");
    var key := Contains(desc, "key") || Contains(desc, "press");
    var selector := Contains(desc, "selector") || Contains(desc, "element");
    var required := RequiredOf(url, text, key, selector);
    RequiredMembers(url, text, key, selector);
    ParametersFor(required)
  }

  /**
   * The inference rules: `url` when the name mentions navigation or the
   * description a URL, `text` for text or clicking, `key` for keys or
   * pressing, `selector` for selectors or elements.
   */
  lemma InferenceRules(name: string, description: Option<string>)
    ensures var p := InferredParameters(name, description);
      var desc := Lower(description.GetOr(""));
      && ("url" in p.properties <==> Contains(name, "navigate") || Contains(desc, "url"))
      && ("text" in p.properties <==> Contains(desc, "text") || Contains(desc, "click"))
      && ("key" in p.properties <==> Contains(desc, "key") || Contains(desc, "press"))
      && ("selector" in p.properties <==> Contains(desc, "selector") || Contains(desc, "element"))
  {
    var desc := Lower(description.GetOr(""));
    var url := Contains(name, "navigate") || Contains(desc, "url");
    var text := Contains(desc, "text") || Contains(desc, "click");
    var key := Contains(desc, "key") || Contains(desc, "press");
    var selector := Contains(desc, "selector") || Contains(desc, "element");
    FlagsSelectProperties(url, text, key, selector);
  }

  /** Each flag decides whether its property is present. */
  lemma FlagsSelectProperties(url: bool, text: bool, key: bool, selector: bool)
    ensures var p := ParametersFor(RequiredOf(url, text, key, selector));
      && ("url" in p.properties <==> url) && ("text" in p.properties <==> text)
      && ("key" in p.properties <==> key) && ("selector" in p.properties <==> selector)
  {
    var required := RequiredOf(url, text, key, selector);
    var p := ParametersFor(required);
    RequiredMembers(url, text, key, selector);
    assert "url" in p.properties <==> url by {
      assert Inferable("url");
    }
    assert "text" in p.properties <==> text by {
      assert Inferable("text");
    }
    assert "key" in p.properties <==> key by {
      assert Inferable("key");
    }
    assert "selector" in p.properties <==> selector by {
      assert Inferable("selector");
    }
  }

  /** The parameters for the matched names; the generic `params` object when there are none. */
  function ParametersFor(required: seq<string>): (p: OpenAIToolParameters)
    requires forall k :: k in required ==> Inferable(k)
    ensures p.typeField == "object"
    ensures forall k :: Inferable(k) ==> (k in p.properties <==> k in required)
    ensures "params" in p.properties <==> p.required.None?
    ensures forall k :: k in p.properties ==> (Inferable(k) || k == "params") && p.properties[k] == PropertyFor(k)
    ensures p.required.Some? ==> p.required.value == required
    ensures p.required.None? <==> required == []
  {
    assert !Inferable("params");
    if required == [] then
      OpenAIToolParameters("object", map["params" := PropertyFor("params")], None)
    else
      OpenAIToolParameters("object", PropertiesOf(required), Some(required))
  }

  /** One property per name, each with the schema the name stands for. */
  function PropertiesOf(names: seq<string>): (m: map<string, Value>)
    ensures forall k :: k in m <==> k in names
    ensures forall k :: k in m ==> m[k] == PropertyFor(k)
  {
    if names == [] then map[] else PropertiesOf(names[1..])[names[0] := PropertyFor(names[0])]
  }

  /** A tool without a description whose name does not mention navigation gets the generic parameter only. */
  lemma GenericParameters(name: string)
    requires !Contains(name, "navigate")
    ensures InferredParameters(name, None) == OpenAIToolParameters("object", map["params" := PropertyFor("params")], None)
  {
    var p := InferredParameters(name, None);
    assert Lower("") == "";
    assert p.properties.Keys == {"params"};
  }

  /** One tool: a `function` with its name and description, its schema copied or inferred. */
  function ConvertTool(t: Tool): (r: OpenAITool)
    ensures r.typeField == "function" && r.name == t.name && r.description == t.description
    ensures r.parameters.Some?
    ensures t.inputSchema.Some? ==> (var s := t.inputSchema.value;
      r.parameters.value == OpenAIToolParameters(s.schemaType, s.properties, s.required))
    ensures t.inputSchema.None? ==> r.parameters.value == InferredParameters(t.name, t.description)
  {
    var parameters := match t.inputSchema
      case Some(s) => OpenAIToolParameters(s.schemaType, s.properties, s.required)
      case None => InferredParameters(t.name, t.description);
    OpenAITool("function", t.name, t.description, Some(parameters))
  }

  /** No tools are sent when there are none; otherwise one per tool, in order. */
  function ConvertTools(tools: seq<Tool>): (r: Option<seq<OpenAITool>>)
    ensures r.None? <==> tools == []
    ensures r.Some? ==> |r.value| == |tools| && forall i :: 0 <= i < |tools| ==> r.value[i] == ConvertTool(tools[i])
  {
    if tools == [] then None else Some(seq(|tools|, i requires 0 <= i < |tools| => ConvertTool(tools[i])))
  }

  // ---------------------------------------------------------------------------
  // Executing the calls
  // ---------------------------------------------------------------------------

  /** A call's arguments: the parsed text, or `{}` when it does not parse. */
  function ArgumentsOf(call: FunctionCall, parse: string -> Option<Value>): (v: Value)
    ensures parse(call.argumentsStr).None? ==> v == EmptyObject
  {
    parse(call.argumentsStr).GetOr(EmptyObject)
  }

  /**
   * The text reported for one call, or the error that ends `call`. With a
   * client: its text contents joined by newlines, failing when the client
   * fails or flags the result as an error. Without: a placeholder.
   */
  function ResultText(a: OpenAIAdapter, tools: seq<Tool>, call: FunctionCall, arguments: Value, k: nat): (r: Result<string>)
    ensures a.mcpClient.None? ==> r.Ok?
    ensures a.mcpClient.Some? ==>
      var reply := a.mcpClient.value(k, call.name, arguments);
      (r.Err? <==> reply.Err? || reply.value.isError == Some(true))
      && (r.Err? ==> r.error.InternalError?)
      && (r.Ok? ==> r.value == Join(TextsOf(reply.value.content), "\n"))
  {
    match a.mcpClient
    case Some(callTool) =>
      (match callTool(k, call.name, arguments)
       case Ok(result) =>
         var formatted := Join(TextsOf(result.content), "\n");
         if result.isError == Some(true)
         then Err(InternalError("Tool '" + call.name + "' failed with error: " + formatted))
         else Ok(formatted)
       case Err(e) => Err(InternalError("Error executing tool '" + call.name + "': " + Display(e))))
    case None =>
      if exists t | t in tools :: t.name == call.name
      then Ok("Tool '" + call.name + "' executed with arguments: " + call.argumentsStr)
      else Ok("Tool '" + call.name + "' not found")
  }

  /** Without a client, a call is reported as not found exactly when no tool has its name. */
  lemma PlaceholderNotFound(a: OpenAIAdapter, tools: seq<Tool>, call: FunctionCall, arguments: Value, k: nat)
    requires a.mcpClient.None?
    ensures ResultText(a, tools, call, arguments, k).Ok?
    ensures ResultText(a, tools, call, arguments, k).value == "Tool '" + call.name + "' not found"
      <==> forall t :: t in tools ==> t.name != call.name
  {
    var p := "Tool '" + call.name + "' ";
    var found := p + "executed with arguments: " + call.argumentsStr;
    var missing := p + "not found";
    assert found[|p|] == 'e' && missing[|p|] == 'n';
  }

  /** The (call id, text) pairs of the calls in order, or the first error; the k-th call is the client's k-th. */
  function Executed(a: OpenAIAdapter, tools: seq<Tool>, parse: string -> Option<Value>, calls: seq<FunctionCall>, k: nat)
    : (r: Result<seq<(string, string)>>)
    ensures a.mcpClient.None? ==> r.Ok?
    ensures r.Ok? ==> |r.value| == |calls| && forall i :: 0 <= i < |calls| ==> r.value[i].0 == calls[i].callId
  {
    if calls == [] then Ok([])
    else
      match Executed(a, tools, parse, calls[..|calls| - 1], k)
      case Err(e) => Err(e)
      case Ok(done) =>
        var call := calls[|calls| - 1];
        match ResultText(a, tools, call, ArgumentsOf(call, parse), k + |calls| - 1)
        case Err(e) => Err(e)
        case Ok(text) => Ok(done + [(call.callId, text)])
  }

  /** Once a call fails, the later calls are not made. */
  lemma {:induction false} ExecutedStopsAtFailure(a: OpenAIAdapter, tools: seq<Tool>, parse: string -> Option<Value>,
                                                  calls: seq<FunctionCall>, k: nat, n: nat)
    requires n <= |calls| && Executed(a, tools, parse, calls[..n], k).Err?
    ensures Executed(a, tools, parse, calls, k) == Executed(a, tools, parse, calls[..n], k)
    decreases |calls|
  {
    if n < |calls| {
      var calls' := calls[..|calls| - 1];
      assert calls'[..n] == calls[..n];
      ExecutedStopsAtFailure(a, tools, parse, calls', k, n);
    } else {
      assert calls[..n] == calls;
    }
  }

  /** One more call extends the executed prefix by its text, or ends it with its error. */
  lemma ExecutedStep(a: OpenAIAdapter, tools: seq<Tool>, parse: string -> Option<Value>, calls: seq<FunctionCall>, k: nat,
                     i: nat, results: seq<(string, string)>)
    requires i < |calls| && Executed(a, tools, parse, calls[..i], k) == Ok(results)
    ensures var text := ResultText(a, tools, calls[i], ArgumentsOf(calls[i], parse), k + i);
      Executed(a, tools, parse, calls[..i + 1], k)
        == if text.Err? then Err(text.error) else Ok(results + [(calls[i].callId, text.value)])
  {
    var prefix := calls[..i + 1];
    assert prefix[..|prefix| - 1] == calls[..i] && prefix[|prefix| - 1] == calls[i];
  }

  /** The first loop of a round: every call executed, stopping at the first failure. */
  method ExecuteCalls(a: OpenAIAdapter, tools: seq<Tool>, parse: string -> Option<Value>, calls: seq<FunctionCall>, k: nat)
    returns (r: Result<seq<(string, string)>>)
    ensures r == Executed(a, tools, parse, calls, k)
  {
    var results: seq<(string, string)> := [];
    for i := 0 to |calls|
      invariant Executed(a, tools, parse, calls[..i], k) == Ok(results)
    {
      var call := calls[i];
      var arguments := ArgumentsOf(call, parse);
      var text := ResultText(a, tools, call, arguments, k + i);
      ExecutedStep(a, tools, parse, calls, k, i, results);
      if text.Err? {
        ExecutedStopsAtFailure(a, tools, parse, calls, k, i + 1);
        return Err(text.error);
      }
      results := results + [(call.callId, text.value)];
    }
    assert calls[..|calls|] == calls;
    r := Ok(results);
  }

  /** The lines reporting the results, one per call, in order. */
  function ResultLines(results: seq<(string, string)>): string {
    if results == [] then ""
    else
      var last := results[|results| - 1];
      ResultLines(results[..|results| - 1]) + "- Call ID " + last.0 + ": " + last.1 + "\n"
  }

  /** The second loop of a round: the header and one line per result appended to the input. */
  method AppendResults(input: string, results: seq<(string, string)>) returns (next: string)
    ensures next == input + RESULTS_HEADER + ResultLines(results)
  {
    next := input + RESULTS_HEADER;
    for i := 0 to |results|
      invariant next == input + RESULTS_HEADER + ResultLines(results[..i])
    {
      assert results[..i + 1][..i] == results[..i];
      next := next + "- Call ID " + results[i].0 + ": " + results[i].1 + "\n";
    }
    assert results[..|results|] == results;
  }

  // ---------------------------------------------------------------------------
  // The loop
  // ---------------------------------------------------------------------------

  /** The answer when the output has no calls: its text, or a fixed notice when there is none. */
  function FinalAnswer(text: string): (r: LLMResponse)
    ensures r.stopReason == EndTurn && |r.content| == 1 && r.content[0].Text? && r.content[0].text != ""
    ensures text != "" ==> r.content[0].text == text
  {
    LLMResponse([Text(if text != "" then text else NO_RESPONSE)], EndTurn)
  }

  datatype Round = Finished(result: Result<LLMResponse>) | Continue(input: string, calls: nat)

  /** The request a round sends. */
  function RequestOf(a: OpenAIAdapter, openaiTools: Option<seq<OpenAITool>>, input: string): OpenAIRequest {
    OpenAIRequest(a.model, input, openaiTools)
  }

  /**
   * One round: the exchange's failures end the call with their errors; an
   * output without calls ends it with the answer; otherwise the calls are
   * executed and their results appended to the input.
   */
  function RoundOf(a: OpenAIAdapter, tools: seq<Tool>, openaiTools: Option<seq<OpenAITool>>,
                    api: OpenAIRequest -> ApiReply, parse: string -> Option<Value>,
                   input: string, k: nat): Round
  {
    match api(RequestOf(a, openaiTools, input))
    case Unreachable(e) => Finished(Err(ConnectionError("OpenAI API error: " + e)))
    case Rejected(body) => Finished(Err(InternalError("OpenAI API error: " + body)))
    case Unreadable(e) => Finished(Err(ConnectionError("Failed to read response: " + e)))
    case Unparseable(e, body) => Finished(Err(InternalError("Failed to parse OpenAI response: " + e + " (body: " + body + ")")))
    case Answered(output) =>
      var calls := CallsOf(output);
      if calls == [] then Finished(Ok(FinalAnswer(TextOfOutput("", output))))
      else
        match Executed(a, tools, parse, calls, k)
        case Err(e) => Finished(Err(e))
        case Ok(results) => Continue(input + RESULTS_HEADER + ResultLines(results), k + |calls|)
  }

  /**
   * How a round ends: each failure of the exchange with its own error, an
   * output without calls with the final answer, and, without a client, an
   * output with calls always leads to another round.
   */
  lemma RoundOutcomes(a: OpenAIAdapter, tools: seq<Tool>, openaiTools: Option<seq<OpenAITool>>,
                    api: OpenAIRequest -> ApiReply, parse: string -> Option<Value>,
                      input: string, k: nat)
    ensures var r := RoundOf(a, tools, openaiTools, api, parse, input, k);
      r.Continue? ==> StartsWith(r.input, input + RESULTS_HEADER) && r.calls > k
    ensures var r := RoundOf(a, tools, openaiTools, api, parse, input, k);
      r.Continue? ==> a.mcpClient.Some? || api(RequestOf(a, openaiTools, input)).Answered?
    ensures var r := RoundOf(a, tools, openaiTools, api, parse, input, k);
      var reply := api(RequestOf(a, openaiTools, input));
      && (reply.Unreachable? ==> r == Finished(Err(ConnectionError("OpenAI API error: " + reply.reason))))
      && (reply.Rejected? ==> r == Finished(Err(InternalError("OpenAI API error: " + reply.body))))
      && (reply.Unreadable? ==> r == Finished(Err(ConnectionError("Failed to read response: " + reply.reason))))
      && (reply.Unparseable? ==>
            r == Finished(Err(InternalError("Failed to parse OpenAI response: " + reply.reason + " (body: " + reply.body + ")"))))
      && (reply.Answered? && CallsOf(reply.output) == [] ==> r == Finished(Ok(FinalAnswer(TextOfOutput("", reply.output)))))
      && (reply.Answered? && CallsOf(reply.output) != [] && a.mcpClient.None? ==> r.Continue?)
  {
    var reply := api(RequestOf(a, openaiTools, input));
    if reply.Answered? && CallsOf(reply.output) != [] {
      var results := Executed(a, tools, parse, CallsOf(reply.output), k);
      if results.Ok? {
        StartsWithConcat(input + RESULTS_HEADER, ResultLines(results.value));
      }
    }
  }

  /** The rounds from `iteration` on; the call fails once twenty rounds have gone without an answer. */
  function CallFrom(a: OpenAIAdapter, tools: seq<Tool>, openaiTools: Option<seq<OpenAITool>>,
                    api: OpenAIRequest -> ApiReply, parse: string -> Option<Value>,
                    input: string, k: nat, iteration: nat): Result<LLMResponse>
    decreases MAX_ITERATIONS - iteration
  {
    if iteration >= MAX_ITERATIONS then Err(InternalError("Max tool execution iterations reached without final response"))
    else
      match RoundOf(a, tools, openaiTools, api, parse, input, k)
      case Finished(r) => r
      case Continue(next, k') => CallFrom(a, tools, openaiTools, api, parse, next, k', iteration + 1)
  }

  /** What `call` returns. */
  function CallOutcome(a: OpenAIAdapter, messages: seq<Message>, tools: seq<Tool>, api: OpenAIRequest -> ApiReply,
                       parse: string -> Option<Value>): Result<LLMResponse>
  {
    CallFrom(a, tools, ConvertTools(tools), api, parse, InputOf(messages), 0, 0)
  }

  /**
   * One pass of the loop in `call`: the request, the exchange, and either the
   * final answer, an error, or the input for the next pass.
   */
  method RunRound(a: OpenAIAdapter, tools: seq<Tool>, openaiTools: Option<seq<OpenAITool>>, api: OpenAIRequest -> ApiReply,
                  parse: string -> Option<Value>, input: string, k: nat) returns (round: Round)
    ensures round == RoundOf(a, tools, openaiTools, api, parse, input, k)
  {
    var reply := api(OpenAIRequest(a.model, input, openaiTools));
    match reply
    case Unreachable(e) =>
      round := Finished(Err(ConnectionError("OpenAI API error: " + e)));
    case Rejected(body) =>
      round := Finished(Err(InternalError("OpenAI API error: " + body)));
    case Unreadable(e) =>
      round := Finished(Err(ConnectionError("Failed to read response: " + e)));
    case Unparseable(e, body) =>
      round := Finished(Err(InternalError("Failed to parse OpenAI response: " + e + " (body: " + body + ")")));
    case Answered(output) =>
      var calls := ExtractFunctionCalls(output);
      if calls != [] {
        var executed := ExecuteCalls(a, tools, parse, calls, k);
        if executed.Err? {
          round := Finished(Err(executed.error));
        } else {
          var next := AppendResults(input, executed.value);
          round := Continue(next, k + |calls|);
        }
      } else {
        var text := ExtractText(output);
        if text != "" {
          round := Finished(Ok(LLMResponse([Text(text)], EndTurn)));
        } else {
          round := Finished(Ok(LLMResponse([Text(NO_RESPONSE)], EndTurn)));
        }
      }
  }

  /** `call`: the input and the tools converted, then the tool-execution loop. */
  method Call(a: OpenAIAdapter, messages: seq<Message>, tools: seq<Tool>, api: OpenAIRequest -> ApiReply,
              parse: string -> Option<Value>) returns (r: Result<LLMResponse>)
    ensures r == CallOutcome(a, messages, tools, api, parse)
  {
    var input := InputOf(messages);
    var openaiTools := ConvertTools(tools);
    r := ToolLoop(a, tools, openaiTools, api, parse, input);
  }

  /** The loop of `call`: at most twenty passes, the last one failing when it brings no answer. */
  method ToolLoop(a: OpenAIAdapter, tools: seq<Tool>, openaiTools: Option<seq<OpenAITool>>, api: OpenAIRequest -> ApiReply,
                  parse: string -> Option<Value>, input0: string) returns (r: Result<LLMResponse>)
    ensures r == CallFrom(a, tools, openaiTools, api, parse, input0, 0, 0)
  {
    var input := input0;
    var k: nat := 0;
    for iteration := 0 to MAX_ITERATIONS
      invariant CallFrom(a, tools, openaiTools, api, parse, input, k, iteration) == CallFrom(a, tools, openaiTools, api, parse, input0, 0, 0)
    {
      var round := RunRound(a, tools, openaiTools, api, parse, input, k);
      match round
      case Finished(result) =>
        return result;
      case Continue(next, calls) =>
        input, k := next, calls;
    }
    r := Err(InternalError("Max tool execution iterations reached without final response"));
  }

  // ---------------------------------------------------------------------------
  // Properties of the loop
  // ---------------------------------------------------------------------------

  /** The requests the rounds from `iteration` on send, in order. */
  ghost function RequestsFrom(a: OpenAIAdapter, tools: seq<Tool>, openaiTools: Option<seq<OpenAITool>>,
                    api: OpenAIRequest -> ApiReply, parse: string -> Option<Value>,
                              input: string, k: nat, iteration: nat): (reqs: seq<OpenAIRequest>)
    ensures iteration <= MAX_ITERATIONS ==> iteration + |reqs| <= MAX_ITERATIONS
    ensures reqs != [] ==> reqs[0] == RequestOf(a, openaiTools, input)
    decreases MAX_ITERATIONS - iteration
  {
    if iteration >= MAX_ITERATIONS then []
    else
      [RequestOf(a, openaiTools, input)] +
      match RoundOf(a, tools, openaiTools, api, parse, input, k)
      case Finished(_) => []
      case Continue(next, k') => RequestsFrom(a, tools, openaiTools, api, parse, next, k', iteration + 1)
  }

  /** Every later request carries every earlier one's input followed by the tool results. */
  ghost predicate Extending(reqs: seq<OpenAIRequest>) {
    forall i, j :: 0 <= i < j < |reqs| ==> StartsWith(reqs[j].input, reqs[i].input + RESULTS_HEADER)
  }

  /** A request in front of extending requests keeps them extending when the first of them extends it. */
  lemma ExtendingCons(first: OpenAIRequest, rest: seq<OpenAIRequest>)
    requires Extending(rest)
    requires rest != [] ==> StartsWith(rest[0].input, first.input + RESULTS_HEADER)
    ensures Extending([first] + rest)
  {
    var reqs := [first] + rest;
    forall i, j | 0 <= i < j < |reqs|
      ensures StartsWith(reqs[j].input, reqs[i].input + RESULTS_HEADER)
    {
      assert reqs[j] == rest[j - 1];
      if i == 0 {
        if j > 1 {
          assert StartsWith(rest[j - 1].input, rest[0].input + RESULTS_HEADER);
          StartsWithConcat(rest[0].input, RESULTS_HEADER);
          StartsWithTrans(rest[j - 1].input, rest[0].input + RESULTS_HEADER, rest[0].input);
          StartsWithTrans(rest[j - 1].input, rest[0].input, first.input + RESULTS_HEADER);
        }
      } else {
        assert reqs[i] == rest[i - 1];
      }
    }
  }

  /** The requests of a call only ever extend the input: results are appended, nothing is dropped. */
  lemma {:induction false} RequestsExtend(a: OpenAIAdapter, tools: seq<Tool>, openaiTools: Option<seq<OpenAITool>>, api: OpenAIRequest -> ApiReply,
                                          parse: string -> Option<Value>, input: string, k: nat, iteration: nat)
    ensures Extending(RequestsFrom(a, tools, openaiTools, api, parse, input, k, iteration))
    decreases MAX_ITERATIONS - iteration
  {
    if iteration < MAX_ITERATIONS {
      var round := RoundOf(a, tools, openaiTools, api, parse, input, k);
      if round.Continue? {
        var rest := RequestsFrom(a, tools, openaiTools, api, parse, round.input, round.calls, iteration + 1);
        RequestsExtend(a, tools, openaiTools, api, parse, round.input, round.calls, iteration + 1);
        RoundOutcomes(a, tools, openaiTools, api, parse, input, k);
        ExtendingCons(RequestOf(a, openaiTools, input), rest);
      }
    }
  }

  /** At most twenty requests are sent, the first with the flattened conversation. */
  lemma AtMostTwentyRequests(a: OpenAIAdapter, messages: seq<Message>, tools: seq<Tool>, api: OpenAIRequest -> ApiReply,
                             parse: string -> Option<Value>)
    ensures var reqs := RequestsFrom(a, tools, ConvertTools(tools), api, parse, InputOf(messages), 0, 0);
      1 <= |reqs| <= MAX_ITERATIONS && reqs[0].input == InputOf(messages)
  {
  }

  /**
   * Without a client, a model that asks for tool calls in every reply never
   * gets an answer out of the loop: the call fails with the iteration error.
   */
  lemma {:induction false} EndlessCallsExhaust(a: OpenAIAdapter, tools: seq<Tool>, openaiTools: Option<seq<OpenAITool>>, api: OpenAIRequest -> ApiReply,
                                               parse: string -> Option<Value>, input: string, k: nat, iteration: nat)
    requires a.mcpClient.None?
    requires forall req :: api(req).Answered? && CallsOf(api(req).output) != []
    ensures CallFrom(a, tools, openaiTools, api, parse, input, k, iteration)
      == Err(InternalError("Max tool execution iterations reached without final response"))
    decreases MAX_ITERATIONS - iteration
  {
    if iteration < MAX_ITERATIONS {
      var round := RoundOf(a, tools, openaiTools, api, parse, input, k);
      assert api(RequestOf(a, openaiTools, input)).Answered?;
      RoundOutcomes(a, tools, openaiTools, api, parse, input, k);
      EndlessCallsExhaust(a, tools, openaiTools, api, parse, round.input, round.calls, iteration + 1);
    }
  }
}
