/**
 * A small model of `serde_json::Value`. Objects are finite maps from keys to
 * values (key order is not observable anywhere in the modelled core) and
 * numbers are integers; floating point is not part of this model.
 */
module Json {
  import opened Wrappers

  datatype Value =
    | Null
    | Bool(b: bool)
    | Number(n: int)
    | Str(s: string)
    | Array(items: seq<Value>)
    | Object(fields: map<string, Value>)

  /** The empty object `{}`. */
  const EmptyObject: Value := Object(map[])

  /** `Value::get(key)`: the field of an object, `None` for a missing key or a non-object. */
  function Get(v: Value, key: string): (r: Option<Value>)
    ensures r.Some? <==> v.Object? && key in v.fields
    ensures r.Some? ==> r.value == v.fields[key]
  {
    if v.Object? && key in v.fields then Some(v.fields[key]) else None
  }

  /** `Value::as_str()`. */
  function AsStr(v: Value): (r: Option<string>)
    ensures r.Some? <==> v.Str?
    ensures r.Some? ==> v == Str(r.value)
  {
    if v.Str? then Some(v.s) else None
  }

  /** `Value::as_array()`. */
  function AsArray(v: Value): (r: Option<seq<Value>>)
    ensures r.Some? <==> v.Array?
    ensures r.Some? ==> v == Array(r.value)
  {
    if v.Array? then Some(v.items) else None
  }

  /** `obj.get(key).and_then(|v| v.as_str())`, the idiom used for every string field. */
  function GetStr(v: Value, key: string): (r: Option<string>)
    ensures r.Some? <==> v.Object? && key in v.fields && v.fields[key].Str?
    ensures r.Some? ==> v.fields[key] == Str(r.value)
  {
    match Get(v, key)
    case Some(f) => AsStr(f)
    case None => None
  }

  /** Serde's reading of an `Option<String>` field: absent or `null` is `None`. */
  function OptStrField(fields: map<string, Value>, key: string): (r: Option<Option<string>>)
    ensures r == Some(None) <==> key !in fields || fields[key] == Null
    ensures forall s :: r == Some(Some(s)) <==> key in fields && fields[key] == Str(s)
  {
    if key !in fields || fields[key] == Null then Some(None)
    else if fields[key].Str? then Some(Some(fields[key].s))
    else None
  }

  /** Serde's reading of an `Option<bool>` field: absent or `null` is `None`. */
  function OptBoolField(fields: map<string, Value>, key: string): (r: Option<Option<bool>>)
    ensures r == Some(None) <==> key !in fields || fields[key] == Null
    ensures forall b :: r == Some(Some(b)) <==> key in fields && fields[key] == Bool(b)
  {
    if key !in fields || fields[key] == Null then Some(None)
    else if fields[key].Bool? then Some(Some(fields[key].b))
    else None
  }

  /** Serialisation of an `Option<String>` field that is not skipped: `None` becomes `null`. */
  function OptStrValue(o: Option<string>): (v: Value)
    ensures OptStrField(map["k" := v], "k") == Some(o)
  {
    match o
    case Some(s) => Str(s)
    case None => Null
  }

  /** A sequence of strings as a JSON array of strings. */
  function StrArray(ss: seq<string>): (v: Value)
    ensures v.Array? && |v.items| == |ss|
    ensures forall i :: 0 <= i < |ss| ==> v.items[i] == Str(ss[i])
  {
    Array(seq(|ss|, i requires 0 <= i < |ss| => Str(ss[i])))
  }

  /** Serde's reading of a `Vec<String>`: an array whose every element is a string. */
  function StrArrayOf(v: Value): (r: Option<seq<string>>)
    ensures r.Some? <==> v.Array? && forall i :: 0 <= i < |v.items| ==> v.items[i].Str?
    ensures r.Some? ==> v == StrArray(r.value)
  {
    if v.Array? && forall i :: 0 <= i < |v.items| ==> v.items[i].Str? then
      var ss := seq(|v.items|, i requires 0 <= i < |v.items| => v.items[i].s);
      assert v.items == StrArray(ss).items;
      Some(ss)
    else None
  }

  /** A sequence of strings survives writing as an array and reading back. */
  lemma StrArrayRoundTrip(ss: seq<string>)
    ensures StrArrayOf(StrArray(ss)) == Some(ss)
  {
    var v := StrArray(ss);
    var r := StrArrayOf(v);
    assert r.Some?;
    assert v == StrArray(r.value);
    assert |r.value| == |ss|;
    forall i | 0 <= i < |ss| ensures r.value[i] == ss[i] {
      assert v.items[i] == Str(ss[i]) == Str(r.value[i]);
    }
    assert r.value == ss;
  }
}
