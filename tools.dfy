/**
 * The bridge between strongly typed tools and the untyped JSON the server
 * receives: the default `def()` built from a tool's generated JSON schema,
 * and `call_boxed`, which deserialises the arguments and delegates.
 */
module Tools {
  import opened Wrappers
  import opened Json
  import opened Schema

  /**
   * Errors a tool call can end in. `Custom` is the variant the fetch tool
   * raises from its robots.txt and content stages.
   */
  datatype ToolError =
    | ArgumentParse(message: string)
    | Execution(message: string)
    | ResultSerialize(message: string)
    | Custom(message: string)

  /** The string entries of a JSON array, in order; other entries are dropped. */
  function StringsOf(items: seq<Json>): (r: seq<string>)
    ensures |r| <= |items|
    ensures forall s :: s in r <==> Str(s) in items
  {
    if items == [] then []
    else
      var rest := StringsOf(items[1..]);
      assert items == [items[0]] + items[1..];
      if items[0].Str? then [items[0].s] + rest else rest
  }

  /** Filtering distributes over concatenation, so the kept strings stay in their original order. */
  lemma {:induction false} StringsOfAppend(a: seq<Json>, b: seq<Json>)
    ensures StringsOf(a + b) == StringsOf(a) + StringsOf(b)
  {
    if a == [] {
      assert a + b == b;
    } else {
      assert (a + b)[1..] == a[1..] + b;
      StringsOfAppend(a[1..], b);
    }
  }

  /** A single entry is kept exactly when it is a string. */
  lemma StringsOfSingle(v: Json)
    ensures StringsOf([v]) == (if v.Str? then [v.s] else [])
  {
  }

  /** The generated schema's property values are objects (the `unwrap` in `def` relies on it). */
  predicate PropertiesAreObjects(schema: Json) {
    var props := Get(schema, "properties");
    props.Obj? ==> forall k :: k in props.fields ==> props.fields[k].Obj?
  }

  /** The `inputSchema` that the default `def()` derives from a tool's generated JSON schema. */
  function InputSchemaOf(schema: Json): (r: ToolInputSchema)
    requires PropertiesAreObjects(schema)
    ensures Get(schema, "type").Str? ==> r.typeTag == Get(schema, "type").s
    ensures !Get(schema, "type").Str? ==> r.typeTag == "object"
    ensures r.properties.Some? <==> Get(schema, "properties").Obj?
    ensures r.properties.Some? ==>
      && r.properties.value.Keys == Get(schema, "properties").fields.Keys
      && forall k :: k in r.properties.value ==> Obj(r.properties.value[k]) == Get(schema, "properties").fields[k]
    ensures r.required.Some? <==> Get(schema, "required").Arr?
    ensures r.required.Some? ==> forall s :: s in r.required.value <==> Str(s) in Get(schema, "required").items
  {
    var typeValue := Get(schema, "type");
    var props := Get(schema, "properties");
    var req := Get(schema, "required");
    ToolInputSchema(
      if typeValue.Str? then typeValue.s else "object",
      if props.Obj? then Some(map k | k in props.fields :: props.fields[k].fields) else None,
      if req.Arr? then Some(StringsOf(req.items)) else None)
  }

  /** Reading the strings back out of a JSON array of strings gives the original list. */
  lemma {:induction false} StringsOfStrs(names: seq<string>)
    ensures StringsOf(Strs(names).items) == names
  {
    if names != [] {
      assert Strs(names).items == [Str(names[0])] + Strs(names[1..]).items;
      StringsOfAppend([Str(names[0])], Strs(names[1..]).items);
      StringsOfStrs(names[1..]);
    }
  }

  /** The derivation inverts serialisation: an input schema written out as JSON derives back to itself. */
  lemma InputSchemaRoundTrip(s: ToolInputSchema)
    ensures PropertiesAreObjects(InputSchemaValue(s))
    ensures InputSchemaOf(InputSchemaValue(s)) == s
  {
    var v := InputSchemaValue(s);
    var r := InputSchemaOf(v);
    if s.properties.Some? {
      var props := s.properties.value;
      assert Get(v, "properties") == PropertiesValue(props);
      assert r.properties.value == props;
    }
    if s.required.Some? {
      assert Get(v, "required") == Strs(s.required.value);
      StringsOfStrs(s.required.value);
    }
  }

  /** The default `ToolDef::def()`: the tool's constant name and description and the derived input schema. */
  function DefaultDef(name: string, description: string, schema: Json): (t: Tool)
    requires PropertiesAreObjects(schema)
    ensures t.name == name && t.description == Some(description)
    ensures t.inputSchema == InputSchemaOf(schema)
  {
    Tool(name, Some(description), InputSchemaOf(schema))
  }

  /** The value `call_boxed` deserialises: null without arguments, the argument object otherwise. */
  function ArgumentsValue(args: Option<map<string, Json>>): (v: Json)
    ensures args.None? <==> v == Null
    ensures args.Some? ==> v == Obj(args.value)
  {
    if args.Some? then Obj(args.value) else Null
  }

  /**
   * `call_boxed`: deserialise the arguments with the tool's `parse`; a failure
   * is an `ArgumentParse` error and the tool is not called; otherwise the
   * tool's own outcome is returned unchanged.
   */
  function CallBoxed<P>(
    args: Option<map<string, Json>>,
    parse: Json -> Result<P, string>,
    call: P -> Result<CallToolResult, ToolError>): (r: Result<CallToolResult, ToolError>)
    ensures parse(ArgumentsValue(args)).Failure? ==> r == Failure(ArgumentParse(parse(ArgumentsValue(args)).error))
    ensures parse(ArgumentsValue(args)).Success? ==> r == call(parse(ArgumentsValue(args)).value)
  {
    match parse(ArgumentsValue(args))
    case Failure(e) => Failure(ArgumentParse(e))
    case Success(properties) => call(properties)
  }

  predicate IsArgumentParse(r: Result<CallToolResult, ToolError>) {
    r.Failure? && r.error.ArgumentParse?
  }

  /** An `ArgumentParse` error is produced only by the bridge, so it means the arguments did not deserialise. */
  lemma ArgumentParseOnlyFromBridge<P(!new)>(
    args: Option<map<string, Json>>,
    parse: Json -> Result<P, string>,
    call: P -> Result<CallToolResult, ToolError>)
    requires forall p :: !IsArgumentParse(call(p))
    ensures IsArgumentParse(CallBoxed(args, parse, call)) <==> parse(ArgumentsValue(args)).Failure?
  {
    var parsed := parse(ArgumentsValue(args));
    if parsed.Success? {
      assert !IsArgumentParse(call(parsed.value));
    }
  }

  /**
   * The error's display text. `Custom` is not part of the enum's declaration,
   * so its text is taken to be its message alone.
   */
  function Display(e: ToolError): (r: string)
    ensures |e.message| <= |r| && r[|r| - |e.message|..] == e.message
    ensures e.Custom? <==> r == e.message
  {
    match e
    case ArgumentParse(m) => "Failed to parse tool arguments: " + m
    case Execution(m) => "Tool execution failed: " + m
    case ResultSerialize(m) => "Failed to serialize tool result: " + m
    case Custom(m) => m
  }

  // -------------------------------------------------- serde derive helpers

  /** An optional string field: missing or null is `None`, a string is `Some`, anything else fails. */
  function OptionalString(fields: map<string, Json>, key: string): Result<Option<string>, string> {
    if key !in fields || fields[key] == Null then Success(None)
    else if fields[key].Str? then Success(Some(fields[key].s))
    else Failure("invalid type for field `" + key + "`, expected a string")
  }

  /** An optional boolean field. */
  function OptionalBool(fields: map<string, Json>, key: string): Result<Option<bool>, string> {
    if key !in fields || fields[key] == Null then Success(None)
    else if fields[key].Bool? then Success(Some(fields[key].b))
    else Failure("invalid type for field `" + key + "`, expected a boolean")
  }

  /** The bound of `usize` on a 64-bit target. */
  const UsizeLimit: int := 0x1_0000_0000_0000_0000

  /** An optional `usize` field: a non-negative integer below 2^64. */
  function OptionalUsize(fields: map<string, Json>, key: string): Result<Option<nat>, string> {
    if key !in fields || fields[key] == Null then Success(None)
    else if fields[key].Num? && 0 <= fields[key].n < UsizeLimit then Success(Some(fields[key].n as nat))
    else Failure("invalid value for field `" + key + "`, expected usize")
  }

  /** A required string field. */
  function RequiredString(fields: map<string, Json>, key: string): Result<string, string> {
    if key !in fields then Failure("missing field `" + key + "`")
    else if fields[key].Str? then Success(fields[key].s)
    else Failure("invalid type for field `" + key + "`, expected a string")
  }
}
