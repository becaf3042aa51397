/**
 * The wire protocol: JSON-RPC envelopes, tool/resource/prompt descriptors,
 * tool results and conversation messages, with their JSON form as serde
 * writes and reads it.
 */
module Protocol {
  import opened Wrappers
  import opened Json

  /** Protocol version the client announces in its handshake. */
  const MCP_VERSION: string := "2025-11-05"

  /** Version tag of every JSON-RPC envelope. */
  const JSONRPC_VERSION: string := "2.0"

  datatype JsonRpcRequest = JsonRpcRequest(jsonrpc: string, id: string, methodName: string, params: Option<Value>)

  datatype JsonRpcError = JsonRpcError(code: int, message: string, data: Option<Value>)

  datatype JsonRpcResponse = JsonRpcResponse(jsonrpc: string, id: string, result: Option<Value>, error: Option<JsonRpcError>)

  datatype ToolInputSchema = ToolInputSchema(schemaType: string, properties: map<string, Value>, required: Option<seq<string>>)

  datatype Tool = Tool(name: string, description: Option<string>, inputSchema: Option<ToolInputSchema>)

  /** A resource descriptor, keyed by its `uri`. */
  datatype Resource = Resource(uri: string, name: string, description: Option<string>, mimeType: Option<string>)

  /** A prompt descriptor, keyed by its `name`. */
  datatype Prompt = Prompt(name: string, description: Option<string>)

  datatype ResultContent = TextContent(text: string) | ImageContent(data: string, mimeType: string)

  datatype ToolResult = ToolResult(id: Option<string>, content: seq<ResultContent>, isError: Option<bool>)

  datatype Role = User | Assistant

  datatype ImageSource = Base64(data: string, mediaType: string) | Url(url: string)

  datatype ContentBlock =
    | Text(text: string)
    | ToolUse(id: string, name: string, input: Value)
    | ToolResultBlock(toolUseId: string, content: seq<ResultContent>, isError: Option<bool>)
    | Image(source: ImageSource)

  datatype Message = Message(role: Role, content: seq<ContentBlock>)

  // ---------------------------------------------------------------------------
  // Requests
  // ---------------------------------------------------------------------------

  /** `serialize_params`: an absent `params` is written as `{}`, a present one as it is. */
  function SerializeParams(params: Option<Value>): (v: Value)
    ensures params.None? ==> v == EmptyObject
    ensures params.Some? ==> v == params.value
    ensures v == Null ==> params == Some(Null)
  {
    match params
    case Some(p) => p
    case None => EmptyObject
  }

  /** `JsonRpcRequest::new`; `id` stands for the freshly generated v4 UUID. */
  function NewRequest(methodName: string, params: Option<Value>, id: string): (r: JsonRpcRequest)
    ensures r.jsonrpc == "2.0" && r.methodName == methodName && r.params == params && r.id == id
  {
    JsonRpcRequest(JSONRPC_VERSION, id, methodName, params)
  }

  /** The JSON object a request serialises to. */
  function EncodeRequest(r: JsonRpcRequest): (v: Value)
    ensures v.Object? && v.fields.Keys == {"jsonrpc", "id", "method", "params"}
    ensures v.fields["params"] == SerializeParams(r.params)
  {
    Object(map["jsonrpc" := Str(r.jsonrpc), "id" := Str(r.id), "method" := Str(r.methodName),
               "params" := SerializeParams(r.params)])
  }

  /** Serde's reading of a request: an absent or `null` `params` is `None`. */
  function DecodeRequest(v: Value): (r: Option<JsonRpcRequest>)
    ensures r.Some? ==> v.Object? && r.value.params.None? == ("params" !in v.fields || v.fields["params"] == Null)
  {
    match (GetStr(v, "jsonrpc"), GetStr(v, "id"), GetStr(v, "method"))
    case (Some(j), Some(i), Some(m)) =>
      var p := if "params" !in v.fields || v.fields["params"] == Null then None else Some(v.fields["params"]);
      Some(JsonRpcRequest(j, i, m, p))
    case _ => None
  }

  /**
   * Writing a request and reading it back: an absent `params` comes back as
   * the empty object, never as absent; only an explicit `null` is lost.
   */
  lemma RequestRoundTrip(r: JsonRpcRequest)
    ensures DecodeRequest(EncodeRequest(r)) ==
      Some(r.(params := if r.params == Some(Null) then None else Some(SerializeParams(r.params))))
    ensures r.params.None? ==> DecodeRequest(EncodeRequest(r)).value.params == Some(EmptyObject)
  {
  }

  // ---------------------------------------------------------------------------
  // Responses
  // ---------------------------------------------------------------------------

  function EncodeRpcError(e: JsonRpcError): (v: Value)
    ensures v.Object? && ("data" in v.fields <==> e.data.Some?)
  {
    var base := map["code" := Number(e.code), "message" := Str(e.message)];
    Object(if e.data.Some? then base["data" := e.data.value] else base)
  }

  function DecodeRpcError(v: Value): (r: Option<JsonRpcError>)
    ensures r.Some? ==> v.Object? && "code" in v.fields && v.fields["code"] == Number(r.value.code)
  {
    match (Get(v, "code"), GetStr(v, "message"))
    case (Some(Number(c)), Some(m)) =>
      var d := if "data" !in v.fields || v.fields["data"] == Null then None else Some(v.fields["data"]);
      Some(JsonRpcError(c, m, d))
    case _ => None
  }

  /** The JSON object a response serialises to: `result` and `error` are omitted when `None`. */
  function EncodeResponse(r: JsonRpcResponse): (v: Value)
    ensures v.Object? && "jsonrpc" in v.fields && "id" in v.fields
    ensures "result" in v.fields <==> r.result.Some?
    ensures "error" in v.fields <==> r.error.Some?
    ensures r.result.Some? ==> v.fields["result"] == r.result.value
  {
    var base := map["jsonrpc" := Str(r.jsonrpc), "id" := Str(r.id)];
    var withResult := if r.result.Some? then base["result" := r.result.value] else base;
    Object(if r.error.Some? then withResult["error" := EncodeRpcError(r.error.value)] else withResult)
  }

  /** Serde's reading of a response; an absent or `null` `result` or `error` is `None`. */
  function DecodeResponse(v: Value): (r: Option<JsonRpcResponse>)
    ensures r.Some? ==> v.Object? && r.value.result.None? == ("result" !in v.fields || v.fields["result"] == Null)
  {
    match (GetStr(v, "jsonrpc"), GetStr(v, "id"))
    case (Some(j), Some(i)) =>
      var res := if "result" !in v.fields || v.fields["result"] == Null then None else Some(v.fields["result"]);
      if "error" !in v.fields || v.fields["error"] == Null then Some(JsonRpcResponse(j, i, res, None))
      else (match DecodeRpcError(v.fields["error"])
        case Some(e) => Some(JsonRpcResponse(j, i, res, Some(e)))
        case None => None)
    case _ => None
  }

  /** A response without explicit `null` payloads survives writing and reading unchanged. */
  lemma ResponseRoundTrip(r: JsonRpcResponse)
    requires r.result != Some(Null)
    requires r.error.Some? ==> r.error.value.data != Some(Null)
    ensures DecodeResponse(EncodeResponse(r)) == Some(r)
  {
    if r.error.Some? {
      var e := r.error.value;
      assert DecodeRpcError(EncodeRpcError(e)) == Some(e);
    }
  }

  // ---------------------------------------------------------------------------
  // Arrays of descriptors
  // ---------------------------------------------------------------------------

  /** Serde's reading of a `Vec<T>` element by element: it fails if any element fails. */
  function DecodeEach<T>(items: seq<Value>, decode: Value -> Option<T>): (r: Option<seq<T>>)
    ensures r.Some? <==> forall i :: 0 <= i < |items| ==> decode(items[i]).Some?
    ensures r.Some? ==> |r.value| == |items| && forall i :: 0 <= i < |items| ==> decode(items[i]) == Some(r.value[i])
  {
    if items == [] then Some([])
    else
      var head := decode(items[0]);
      var tail := DecodeEach(items[1..], decode);
      if head.Some? && tail.Some? then Some([head.value] + tail.value) else None
  }

  /** A JSON array of descriptors, read with `decode`. */
  function DecodeArray<T>(v: Value, decode: Value -> Option<T>): (r: Option<seq<T>>)
    ensures r.Some? ==> v.Array? && |r.value| == |v.items|
  {
    if v.Array? then DecodeEach(v.items, decode) else None
  }

  function EncodeArray<T>(xs: seq<T>, encode: T -> Value): (v: Value)
    ensures v.Array? && |v.items| == |xs| && forall i :: 0 <= i < |xs| ==> v.items[i] == encode(xs[i])
  {
    Array(seq(|xs|, i requires 0 <= i < |xs| => encode(xs[i])))
  }

  /** An array survives writing and reading whenever each of its elements does. */
  lemma ArrayRoundTrip<T>(xs: seq<T>, encode: T -> Value, decode: Value -> Option<T>)
    requires forall i :: 0 <= i < |xs| ==> decode(encode(xs[i])) == Some(xs[i])
    ensures DecodeArray(EncodeArray(xs, encode), decode) == Some(xs)
  {
    var v := EncodeArray(xs, encode);
    var r := DecodeArray(v, decode);
    assert r.Some? && |r.value| == |xs|;
    forall i | 0 <= i < |xs| ensures r.value[i] == xs[i] {
      assert decode(v.items[i]) == Some(r.value[i]);
      assert v.items[i] == encode(xs[i]);
    }
    assert r.value == xs;
  }

  // ---------------------------------------------------------------------------
  // Tools
  // ---------------------------------------------------------------------------

  function EncodeSchema(s: ToolInputSchema): Value {
    var base := map["type" := Str(s.schemaType), "properties" := Object(s.properties)];
    Object(if s.required.Some? then base["required" := StrArray(s.required.value)] else base)
  }

  function DecodeSchema(v: Value): Option<ToolInputSchema> {
    match (GetStr(v, "type"), Get(v, "properties"))
    case (Some(t), Some(Object(props))) =>
      if "required" !in v.fields || v.fields["required"] == Null then Some(ToolInputSchema(t, props, None))
      else (match StrArrayOf(v.fields["required"])
        case Some(req) => Some(ToolInputSchema(t, props, Some(req)))
        case None => None)
    case _ => None
  }

  /** A tool's JSON form: `description` is always written (`null` when absent), `input_schema` only when present. */
  function EncodeTool(t: Tool): (v: Value)
    ensures v.Object? && "description" in v.fields && ("input_schema" in v.fields <==> t.inputSchema.Some?)
  {
    var base := map["name" := Str(t.name), "description" := OptStrValue(t.description)];
    Object(if t.inputSchema.Some? then base["input_schema" := EncodeSchema(t.inputSchema.value)] else base)
  }

  function DecodeTool(v: Value): (r: Option<Tool>)
    ensures r.Some? ==> GetStr(v, "name") == Some(r.value.name)
  {
    match (GetStr(v, "name"), if v.Object? then OptStrField(v.fields, "description") else None)
    case (Some(n), Some(d)) =>
      if "input_schema" !in v.fields || v.fields["input_schema"] == Null then Some(Tool(n, d, None))
      else (match DecodeSchema(v.fields["input_schema"])
        case Some(s) => Some(Tool(n, d, Some(s)))
        case None => None)
    case _ => None
  }

  lemma ToolRoundTrip(t: Tool)
    ensures DecodeTool(EncodeTool(t)) == Some(t)
  {
    if t.inputSchema.Some? {
      var s := t.inputSchema.value;
      if s.required.Some? {
        StrArrayRoundTrip(s.required.value);
      }
      assert DecodeSchema(EncodeSchema(s)) == Some(s);
    }
  }

  /** A list of tools survives writing and reading unchanged, in order. */
  lemma ToolsRoundTrip(ts: seq<Tool>)
    ensures DecodeArray(EncodeArray(ts, EncodeTool), DecodeTool) == Some(ts)
  {
    forall i | 0 <= i < |ts| ensures DecodeTool(EncodeTool(ts[i])) == Some(ts[i]) {
      ToolRoundTrip(ts[i]);
    }
    ArrayRoundTrip(ts, EncodeTool, DecodeTool);
  }

  // ---------------------------------------------------------------------------
  // Resources and prompts
  // ---------------------------------------------------------------------------

  function EncodeResource(r: Resource): Value {
    var base := map["uri" := Str(r.uri), "name" := Str(r.name)];
    var withDesc := if r.description.Some? then base["description" := Str(r.description.value)] else base;
    Object(if r.mimeType.Some? then withDesc["mimeType" := Str(r.mimeType.value)] else withDesc)
  }

  function DecodeResource(v: Value): (r: Option<Resource>)
    ensures r.Some? ==> GetStr(v, "uri") == Some(r.value.uri)
  {
    match (GetStr(v, "uri"), GetStr(v, "name"))
    case (Some(u), Some(n)) =>
      (match (OptStrField(v.fields, "description"), OptStrField(v.fields, "mimeType"))
      case (Some(d), Some(m)) => Some(Resource(u, n, d, m))
      case _ => None)
    case _ => None
  }

  lemma ResourcesRoundTrip(rs: seq<Resource>)
    ensures DecodeArray(EncodeArray(rs, EncodeResource), DecodeResource) == Some(rs)
  {
    forall i | 0 <= i < |rs| ensures DecodeResource(EncodeResource(rs[i])) == Some(rs[i]) {
      var r := rs[i];
      var v := EncodeResource(r);
      assert OptStrField(v.fields, "description") == Some(r.description);
      assert OptStrField(v.fields, "mimeType") == Some(r.mimeType);
    }
    ArrayRoundTrip(rs, EncodeResource, DecodeResource);
  }

  function EncodePrompt(p: Prompt): Value {
    var base := map["name" := Str(p.name)];
    Object(if p.description.Some? then base["description" := Str(p.description.value)] else base)
  }

  function DecodePrompt(v: Value): (r: Option<Prompt>)
    ensures r.Some? ==> GetStr(v, "name") == Some(r.value.name)
  {
    match GetStr(v, "name")
    case Some(n) =>
      (match OptStrField(v.fields, "description")
      case Some(d) => Some(Prompt(n, d))
      case None => None)
    case None => None
  }

  lemma PromptsRoundTrip(ps: seq<Prompt>)
    ensures DecodeArray(EncodeArray(ps, EncodePrompt), DecodePrompt) == Some(ps)
  {
    forall i | 0 <= i < |ps| ensures DecodePrompt(EncodePrompt(ps[i])) == Some(ps[i]) {
      var v := EncodePrompt(ps[i]);
      assert OptStrField(v.fields, "description") == Some(ps[i].description);
    }
    ArrayRoundTrip(ps, EncodePrompt, DecodePrompt);
  }

  // ---------------------------------------------------------------------------
  // Tool results
  // ---------------------------------------------------------------------------

  /** `ResultContent` is tagged by its `type` field. */
  function EncodeContent(c: ResultContent): Value {
    match c
    case TextContent(t) => Object(map["type" := Str("text"), "text" := Str(t)])
    case ImageContent(d, m) => Object(map["type" := Str("image"), "data" := Str(d), "mimeType" := Str(m)])
  }

  function DecodeContent(v: Value): Option<ResultContent> {
    match GetStr(v, "type")
    case Some(tag) =>
      if tag == "text" then
        (match GetStr(v, "text")
        case Some(t) => Some(TextContent(t))
        case None => None)
      else if tag == "image" then
        (match (GetStr(v, "data"), GetStr(v, "mimeType"))
        case (Some(d), Some(m)) => Some(ImageContent(d, m))
        case _ => None)
      else None
    case None => None
  }

  /** A tool result's JSON form: `id` and `isError` are omitted when `None`. */
  function EncodeToolResult(t: ToolResult): (v: Value)
    ensures v.Object? && "content" in v.fields
    ensures "id" in v.fields <==> t.id.Some?
    ensures "isError" in v.fields <==> t.isError.Some?
  {
    var base := map["content" := EncodeArray(t.content, EncodeContent)];
    var withId := if t.id.Some? then base["id" := Str(t.id.value)] else base;
    Object(if t.isError.Some? then withId["isError" := Bool(t.isError.value)] else withId)
  }

  function DecodeToolResult(v: Value): (r: Option<ToolResult>)
    ensures r.Some? ==> v.Object? && "content" in v.fields
  {
    match Get(v, "content")
    case Some(cs) =>
      (match (DecodeArray(cs, DecodeContent), OptStrField(v.fields, "id"), OptBoolField(v.fields, "isError"))
      case (Some(content), Some(id), Some(isError)) => Some(ToolResult(id, content, isError))
      case _ => None)
    case None => None
  }

  /** A tool result survives writing and reading unchanged. */
  lemma ToolResultRoundTrip(t: ToolResult)
    ensures DecodeToolResult(EncodeToolResult(t)) == Some(t)
  {
    forall i | 0 <= i < |t.content| ensures DecodeContent(EncodeContent(t.content[i])) == Some(t.content[i]) {
    }
    ArrayRoundTrip(t.content, EncodeContent, DecodeContent);
    var v := EncodeToolResult(t);
    assert OptStrField(v.fields, "id") == Some(t.id);
    assert OptBoolField(v.fields, "isError") == Some(t.isError);
  }

  /** The text items of a tool result's content, in order; images are skipped. */
  function TextsOf(content: seq<ResultContent>): (r: seq<string>)
    ensures |r| <= |content|
    ensures forall i :: 0 <= i < |r| ==> TextContent(r[i]) in content
    ensures forall i :: 0 <= i < |content| && content[i].TextContent? ==> content[i].text in r
    ensures (forall i :: 0 <= i < |content| ==> content[i].TextContent?) ==>
      |r| == |content| && forall i :: 0 <= i < |content| ==> r[i] == content[i].text
  {
    if content == [] then []
    else
      var rest := TextsOf(content[1..]);
      assert forall i :: 1 <= i < |content| ==> content[i] == content[1..][i - 1];
      (if content[0].TextContent? then [content[0].text] else []) + rest
  }

  /** The texts of two runs of content are the texts of each, in order. */
  lemma {:induction false} TextsOfAppend(a: seq<ResultContent>, b: seq<ResultContent>)
    ensures TextsOf(a + b) == TextsOf(a) + TextsOf(b)
    decreases |a|
  {
    if a != [] {
      assert (a + b)[0] == a[0];
      assert (a + b)[1..] == a[1..] + b;
      TextsOfAppend(a[1..], b);
    } else {
      assert a + b == b;
    }
  }

  // ---------------------------------------------------------------------------
  // Messages
  // ---------------------------------------------------------------------------

  /** `Message::user`: one text block from the user. */
  function UserMessage(text: string): (m: Message)
    ensures m.role == User && m.content == [Text(text)]
  {
    Message(User, [Text(text)])
  }

  /** `Message::assistant`: one text block from the assistant. */
  function AssistantMessage(text: string): (m: Message)
    ensures m.role == Assistant && m.content == [Text(text)]
  {
    Message(Assistant, [Text(text)])
  }
}
