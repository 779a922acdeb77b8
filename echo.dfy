/** The echo tool: answers with the message it was given, as one text item. */
module Echo {
  import opened Wrappers
  import opened Json
  import opened Schema
  import opened Tools

  const Name: string := "echo"
  const Description: string := "Echoes back the input message"

  /** The tool's typed arguments. */
  datatype EchoProperties = EchoProperties(message: string)

  function MessageFragment(): map<string, Json> {
    map["description" := Str("The message to echo"), "type" := Str("string")]
  }

  /** The tool's schema text, `ECHO_SCHEMA`, as a JSON value. */
  function SchemaValue(): Json {
    Obj(map["type" := Str("object"),
            "properties" := Obj(map["message" := Obj(MessageFragment())]),
            "required" := Arr([Str("message")])])
  }

  /** `ECHO_SCHEMA` deserialised as an input schema. */
  function InputSchema(): ToolInputSchema {
    ToolInputSchema("object", Some(map["message" := MessageFragment()]), Some(["message"]))
  }

  /** The tool's own `def()`, which overrides the default one. */
  function Def(): (t: Tool)
    ensures t.name == "echo" && t.description == Some("Echoes back the input message")
    ensures t.inputSchema.properties.Some? && "message" in t.inputSchema.properties.value
    ensures t.inputSchema.required == Some(["message"])
  {
    Tool(Name, Some(Description), InputSchema())
  }

  /** The override describes the same schema the default derivation builds from `ECHO_SCHEMA`. */
  lemma DefAgreesWithDerivation()
    ensures PropertiesAreObjects(SchemaValue())
    ensures Def() == DefaultDef(Name, Description, SchemaValue())
    ensures Def().inputSchema.typeTag == "object"
    ensures Def().inputSchema.properties.Some? && "message" in Def().inputSchema.properties.value
    ensures Def().inputSchema.required == Some(["message"])
  {
    var props := Get(SchemaValue(), "properties");
    assert props == Obj(map["message" := Obj(MessageFragment())]);
    var derived := InputSchemaOf(SchemaValue());
    assert derived.properties.value.Keys == {"message"};
    assert derived.properties.value == map["message" := MessageFragment()];
    assert StringsOf([Str("message")]) == ["message"];
  }

  /** Deserialises the arguments: an object whose `message` is a string (other fields are ignored). */
  function Parse(v: Json): (r: Result<EchoProperties, string>)
    ensures r.Success? <==> v.Obj? && "message" in v.fields && v.fields["message"].Str?
    ensures r.Success? ==> r.value.message == v.fields["message"].s
  {
    if !v.Obj? then Failure("invalid type, expected struct EchoProperties")
    else
      match RequiredString(v.fields, "message")
      case Failure(e) => Failure(e)
      case Success(m) => Success(EchoProperties(m))
  }

  /** `call`: one text item carrying the message, not an error, no metadata. */
  function Call(p: EchoProperties): (r: Result<CallToolResult, ToolError>)
    ensures r.Success? && |r.value.content| == 1 && TextOf(r.value.content[0]) == Some(p.message)
    ensures r.Success? && r.value.isError == Some(false) && r.value.meta.None?
  {
    Success(CallToolResult([TextContentValue(p.message)], Some(false), None))
  }

  /** Through the bridge: the text of the answer is the message that was sent. */
  lemma EchoesMessage(m: string)
    ensures var r := CallBoxed(Some(map["message" := Str(m)]), Parse, Call);
            r.Success? && |r.value.content| == 1 && TextOf(r.value.content[0]) == Some(m)
  {
  }

  /** Without a string `message` argument the call fails to deserialise: the required field is enforced. */
  lemma MissingMessageIsArgumentError(args: Option<map<string, Json>>)
    requires args.None? || "message" !in args.value || !args.value["message"].Str?
    ensures CallBoxed(args, Parse, Call).Failure? && CallBoxed(args, Parse, Call).error.ArgumentParse?
  {
  }
}
