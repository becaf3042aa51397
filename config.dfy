/**
 * Per-server configuration: a display name, a locator (a URL, or a command
 * with arguments and environment for a subprocess) and an auto-connect flag.
 */
module Config {
  import opened Wrappers
  import opened Json
  import opened Strings

  datatype MCPServerConfig = MCPServerConfig(
    name: string,
    url: Option<string>,
    command: Option<string>,
    args: Option<seq<string>>,
    env: Option<map<string, string>>,
    headers: Option<map<string, string>>,
    autoConnect: bool)

  /** `default_true`: the value `auto_connect` takes when the field is missing. */
  function DefaultTrue(): bool {
    true
  }

  /** `MCPServerConfig::http`: an HTTP(S) endpoint and nothing else. */
  function Http(name: string, url: string): (c: MCPServerConfig)
    ensures c.name == name && c.url == Some(url)
    ensures c.command.None? && c.args.None? && c.env.None? && c.headers.None?
    ensures c.autoConnect
  {
    MCPServerConfig(name, Some(url), None, None, None, None, true)
  }

  /** `MCPServerConfig::stdio`: a subprocess endpoint with the given command and arguments. */
  function Stdio(name: string, command: string, args: seq<string>): (c: MCPServerConfig)
    ensures c.name == name && c.url.None?
    ensures c.command == Some(command) && c.args == Some(args)
    ensures c.env.None? && c.headers.None? && c.autoConnect
  {
    MCPServerConfig(name, None, Some(command), Some(args), None, None, true)
  }

  /**
   * `MCPServerConfig::from_command`: the first whitespace-separated token is
   * the command and the remaining tokens, in order, the arguments; a string
   * without tokens gives neither.
   */
  function FromCommand(name: string, commandLine: string): (c: MCPServerConfig)
    ensures c.name == name && c.url.None? && c.env.None? && c.headers.None? && c.autoConnect
    ensures c.command.None? <==> c.args.None?
    ensures c.command.Some? ==> IsToken(c.command.value)
    ensures c.args.Some? ==> forall i :: 0 <= i < |c.args.value| ==> IsToken(c.args.value[i])
    ensures c.command.None? <==> SplitWhitespace(commandLine) == []
    ensures c.command.Some? ==> [c.command.value] + c.args.value == SplitWhitespace(commandLine)
  {
    var parts := SplitWhitespace(commandLine);
    if parts == [] then MCPServerConfig(name, None, None, None, None, None, true)
    else MCPServerConfig(name, None, Some(parts[0]), Some(parts[1..]), None, None, true)
  }

  /** A command line made of a command and arguments joined by spaces is the matching stdio config. */
  lemma FromCommandOfTokens(name: string, command: string, args: seq<string>)
    requires IsToken(command)
    requires forall i :: 0 <= i < |args| ==> IsToken(args[i])
    ensures FromCommand(name, Join([command] + args, " ")) == Stdio(name, command, args)
  {
    var tokens := [command] + args;
    assert forall i :: 0 <= i < |tokens| ==> IsToken(tokens[i]);
    SplitJoin(tokens);
    assert tokens[1..] == args;
  }

  /**
   * A command line whose command and arguments are separated by any runs of
   * whitespace, with any whitespace before and after, is the matching stdio config.
   */
  lemma FromCommandOfLine(name: string, ws: seq<string>, command: string, args: seq<string>)
    requires |ws| == |args| + 2
    requires forall i :: 0 <= i < |ws| ==> IsBlank(ws[i])
    requires forall i :: 0 < i < |args| + 1 ==> ws[i] != []
    requires IsToken(command)
    requires forall i :: 0 <= i < |args| ==> IsToken(args[i])
    ensures FromCommand(name, Interleave(ws, [command] + args)) == Stdio(name, command, args)
  {
    var tokens := [command] + args;
    assert forall i :: 0 < i < |tokens| ==> tokens[i] == args[i - 1];
    SplitInterleave(ws, tokens);
    assert tokens[1..] == args;
  }

  /** An empty or all-whitespace command line configures neither a command nor arguments. */
  lemma FromCommandBlank(name: string, commandLine: string)
    requires forall i :: 0 <= i < |commandLine| ==> IsWhitespace(commandLine[i])
    ensures FromCommand(name, commandLine).command.None?
    ensures FromCommand(name, commandLine).args.None?
  {
    SplitEmptyIff(commandLine);
  }

  // ---------------------------------------------------------------------------
  // JSON form (serde with `#[serde(default)]` on the optional fields)
  // ---------------------------------------------------------------------------

  function EncodeStrMap(m: map<string, string>): Value {
    Object(map k | k in m :: Str(m[k]))
  }

  function DecodeStrMap(v: Value): (r: Option<map<string, string>>)
    ensures r.Some? ==> v == EncodeStrMap(r.value)
  {
    if v.Object? && forall k :: k in v.fields ==> v.fields[k].Str? then
      var m := map k | k in v.fields :: v.fields[k].s;
      assert v.fields == EncodeStrMap(m).fields;
      Some(m)
    else None
  }

  lemma StrMapRoundTrip(m: map<string, string>)
    ensures DecodeStrMap(EncodeStrMap(m)) == Some(m)
  {
    var v := EncodeStrMap(m);
    assert forall k :: k in v.fields ==> v.fields[k] == Str(m[k]);
    var r := DecodeStrMap(v);
    assert r.Some?;
    assert EncodeStrMap(r.value) == v;
    assert r.value.Keys == m.Keys;
    forall k | k in m ensures r.value[k] == m[k] {
      assert EncodeStrMap(r.value).fields[k] == Str(r.value[k]);
    }
    assert r.value == m;
  }

  function EncodeOpt<T>(o: Option<T>, encode: T -> Value): Value {
    match o
    case Some(x) => encode(x)
    case None => Null
  }

  /** A `#[serde(default)]` optional field: absent or `null` is `None`. */
  function DecodeOpt<T>(fields: map<string, Value>, key: string, decode: Value -> Option<T>): (r: Option<Option<T>>)
    ensures key !in fields ==> r == Some(None)
  {
    if key !in fields || fields[key] == Null then Some(None)
    else match decode(fields[key])
      case Some(x) => Some(Some(x))
      case None => None
  }

  function EncodeConfig(c: MCPServerConfig): Value {
    Object(map[
      "name" := Str(c.name),
      "url" := EncodeOpt(c.url, s => Str(s)),
      "command" := EncodeOpt(c.command, s => Str(s)),
      "args" := EncodeOpt(c.args, StrArray),
      "env" := EncodeOpt(c.env, EncodeStrMap),
      "headers" := EncodeOpt(c.headers, EncodeStrMap),
      "auto_connect" := Bool(c.autoConnect)])
  }

  /** The `auto_connect` field: missing is `default_true`, otherwise it must be a boolean. */
  function DecodeAutoConnect(fields: map<string, Value>): (r: Option<bool>)
    ensures "auto_connect" !in fields ==> r == Some(true)
  {
    if "auto_connect" !in fields then Some(DefaultTrue())
    else if fields["auto_connect"].Bool? then Some(fields["auto_connect"].b)
    else None
  }

  /** Serde's reading of a config; a missing `auto_connect` takes `default_true`. */
  function DecodeConfig(v: Value): (r: Option<MCPServerConfig>)
    ensures r.Some? ==> v.Object? && GetStr(v, "name") == Some(r.value.name)
    ensures r.Some? && "auto_connect" !in v.fields ==> r.value.autoConnect
  {
    var name := GetStr(v, "name");
    if name.None? then None
    else
      var f := v.fields;
      var url := DecodeOpt(f, "url", AsStr);
      var command := DecodeOpt(f, "command", AsStr);
      var args := DecodeOpt(f, "args", StrArrayOf);
      var env := DecodeOpt(f, "env", DecodeStrMap);
      var headers := DecodeOpt(f, "headers", DecodeStrMap);
      var autoConnect := DecodeAutoConnect(f);
      if url.Some? && command.Some? && args.Some? && env.Some? && headers.Some? && autoConnect.Some? then
        Some(MCPServerConfig(name.value, url.value, command.value, args.value, env.value, headers.value, autoConnect.value))
      else None
  }

  /** An optional field written with `encode` reads back with `decode` when every present value round-trips and none is `null`. */
  lemma OptRoundTrip<T>(fields: map<string, Value>, key: string, o: Option<T>, encode: T -> Value, decode: Value -> Option<T>)
    requires key in fields && fields[key] == EncodeOpt(o, encode)
    requires o.Some? ==> encode(o.value) != Null && decode(encode(o.value)) == Some(o.value)
    ensures DecodeOpt(fields, key, decode) == Some(o)
  {
  }

  /** Where each field of a config is written. */
  lemma EncodeConfigFields(c: MCPServerConfig)
    ensures var f := EncodeConfig(c).fields;
      "url" in f && f["url"] == EncodeOpt(c.url, s => Str(s))
      && "command" in f && f["command"] == EncodeOpt(c.command, s => Str(s))
      && "args" in f && f["args"] == EncodeOpt(c.args, StrArray)
      && "env" in f && f["env"] == EncodeOpt(c.env, EncodeStrMap)
      && "headers" in f && f["headers"] == EncodeOpt(c.headers, EncodeStrMap)
      && "auto_connect" in f && f["auto_connect"] == Bool(c.autoConnect)
      && GetStr(EncodeConfig(c), "name") == Some(c.name)
  {
  }

  /** A JSON object whose fields each read back as the matching field of `c` reads as `c`. */
  lemma DecodeConfigOf(v: Value, c: MCPServerConfig)
    requires GetStr(v, "name") == Some(c.name)
    requires DecodeOpt(v.fields, "url", AsStr) == Some(c.url)
    requires DecodeOpt(v.fields, "command", AsStr) == Some(c.command)
    requires DecodeOpt(v.fields, "args", StrArrayOf) == Some(c.args)
    requires DecodeOpt(v.fields, "env", DecodeStrMap) == Some(c.env)
    requires DecodeOpt(v.fields, "headers", DecodeStrMap) == Some(c.headers)
    requires "auto_connect" in v.fields && v.fields["auto_connect"] == Bool(c.autoConnect)
    ensures DecodeConfig(v) == Some(c)
  {
  }

  /** A config survives writing and reading unchanged. */
  lemma ConfigRoundTrip(c: MCPServerConfig)
    ensures DecodeConfig(EncodeConfig(c)) == Some(c)
  {
    var f := EncodeConfig(c).fields;
    EncodeConfigFields(c);
    OptRoundTrip(f, "url", c.url, s => Str(s), AsStr);
    OptRoundTrip(f, "command", c.command, s => Str(s), AsStr);
    if c.args.Some? { StrArrayRoundTrip(c.args.value); }
    OptRoundTrip(f, "args", c.args, StrArray, StrArrayOf);
    if c.env.Some? { StrMapRoundTrip(c.env.value); }
    OptRoundTrip(f, "env", c.env, EncodeStrMap, DecodeStrMap);
    if c.headers.Some? { StrMapRoundTrip(c.headers.value); }
    OptRoundTrip(f, "headers", c.headers, EncodeStrMap, DecodeStrMap);
    DecodeConfigOf(EncodeConfig(c), c);
  }
}
