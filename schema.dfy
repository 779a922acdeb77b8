/**
 * The protocol records the server builds and answers with, and the JSON
 * object each one serialises to (`serde_json::to_value` with the field
 * renames of the protocol schema; a field holding `None` is skipped).
 */
module Schema {
  import opened Wrappers
  import opened Json

  /** `TextContent { type_: "text", text, annotations: None }` as a JSON value. */
  function TextContentValue(text: string): Json {
    Obj(map["type" := Str("text"), "text" := Str(text)])
  }

  /** The text of a content item that is a text content value. */
  function TextOf(item: Json): Option<string> {
    if Get(item, "type") == Str("text") && Get(item, "text").Str? then Some(Get(item, "text").s) else None
  }

  /** What a tool call produced: content items, the error flag and metadata. */
  datatype CallToolResult = CallToolResult(
    content: seq<Json>,
    isError: Option<bool>,
    meta: Option<map<string, Json>>)

  /** The `inputSchema` of a tool: a type tag, property fragments, required names. */
  datatype ToolInputSchema = ToolInputSchema(
    typeTag: string,
    properties: Option<map<string, map<string, Json>>>,
    required: Option<seq<string>>)

  datatype Tool = Tool(name: string, description: Option<string>, inputSchema: ToolInputSchema)

  datatype CallToolRequestParams = CallToolRequestParams(name: string, arguments: Option<map<string, Json>>)

  datatype Implementation = Implementation(name: string, version: string)

  datatype PromptsCapability = PromptsCapability(listChanged: Option<bool>)
  datatype ResourcesCapability = ResourcesCapability(listChanged: Option<bool>, subscribe: Option<bool>)
  datatype ToolsCapability = ToolsCapability(listChanged: Option<bool>)

  datatype ServerCapabilities = ServerCapabilities(
    experimental: Option<map<string, map<string, Json>>>,
    logging: Option<map<string, Json>>,
    prompts: Option<PromptsCapability>,
    resources: Option<ResourcesCapability>,
    tools: Option<ToolsCapability>)

  datatype InitializeResult = InitializeResult(
    capabilities: ServerCapabilities,
    protocolVersion: string,
    serverInfo: Implementation,
    instructions: Option<string>,
    meta: Option<map<string, Json>>)

  /** The `error` member of a JSON-RPC error response. */
  datatype JsonrpcerrorError = JsonrpcerrorError(code: int, message: string, data: Option<Json>)

  datatype Resource = Resource(name: string, uri: string, description: Option<string>, mimeType: Option<string>)

  datatype PromptArgument = PromptArgument(name: string, description: Option<string>, required: Option<bool>)

  datatype Prompt = Prompt(name: string, description: Option<string>, arguments: Option<seq<PromptArgument>>)

  datatype ListToolsResult = ListToolsResult(tools: seq<Tool>, nextCursor: Option<string>, meta: Option<map<string, Json>>)

  datatype ListResourcesResult = ListResourcesResult(
    resources: seq<Resource>,
    nextCursor: Option<string>,
    meta: Option<map<string, Json>>)

  datatype ListPromptsResult = ListPromptsResult(prompts: seq<Prompt>, nextCursor: Option<string>, meta: Option<map<string, Json>>)

  // ---------------------------------------------------------------- to_value

  /** Adds `key` to an object's fields when the value is present (`skip_serializing_if = "Option::is_none"`). */
  function With(fields: map<string, Json>, key: string, value: Option<Json>): map<string, Json> {
    if value.Some? then fields[key := value.value] else fields
  }

  function StrValue(o: Option<string>): Option<Json> {
    if o.Some? then Some(Str(o.value)) else None
  }

  function BoolValue(o: Option<bool>): Option<Json> {
    if o.Some? then Some(Bool(o.value)) else None
  }

  function ObjValue(o: Option<map<string, Json>>): Option<Json> {
    if o.Some? then Some(Obj(o.value)) else None
  }

  function CallToolResultValue(r: CallToolResult): Json {
    Obj(With(With(map["content" := Arr(r.content)], "isError", BoolValue(r.isError)), "_meta", ObjValue(r.meta)))
  }

  function PropertiesValue(props: map<string, map<string, Json>>): Json {
    Obj(map k | k in props :: Obj(props[k]))
  }

  function InputSchemaValue(s: ToolInputSchema): Json {
    var props := if s.properties.Some? then Some(PropertiesValue(s.properties.value)) else None;
    var req := if s.required.Some? then Some(Strs(s.required.value)) else None;
    Obj(With(With(map["type" := Str(s.typeTag)], "properties", props), "required", req))
  }

  function ToolValue(t: Tool): Json {
    Obj(With(map["name" := Str(t.name), "inputSchema" := InputSchemaValue(t.inputSchema)], "description", StrValue(t.description)))
  }

  function ListToolsValue(r: ListToolsResult): Json {
    var tools := seq(|r.tools|, i requires 0 <= i < |r.tools| => ToolValue(r.tools[i]));
    Obj(With(With(map["tools" := Arr(tools)], "nextCursor", StrValue(r.nextCursor)), "_meta", ObjValue(r.meta)))
  }

  function ResourceValue(r: Resource): Json {
    Obj(With(With(map["name" := Str(r.name), "uri" := Str(r.uri)], "description", StrValue(r.description)), "mimeType", StrValue(r.mimeType)))
  }

  function ListResourcesValue(r: ListResourcesResult): Json {
    var items := seq(|r.resources|, i requires 0 <= i < |r.resources| => ResourceValue(r.resources[i]));
    Obj(With(With(map["resources" := Arr(items)], "nextCursor", StrValue(r.nextCursor)), "_meta", ObjValue(r.meta)))
  }

  function PromptArgumentValue(a: PromptArgument): Json {
    Obj(With(With(map["name" := Str(a.name)], "description", StrValue(a.description)), "required", BoolValue(a.required)))
  }

  function PromptValue(p: Prompt): Json {
    var args := if p.arguments.Some? then
      var xs := p.arguments.value; Some(Arr(seq(|xs|, i requires 0 <= i < |xs| => PromptArgumentValue(xs[i]))))
    else None;
    Obj(With(With(map["name" := Str(p.name)], "description", StrValue(p.description)), "arguments", args))
  }

  function ListPromptsValue(r: ListPromptsResult): Json {
    var items := seq(|r.prompts|, i requires 0 <= i < |r.prompts| => PromptValue(r.prompts[i]));
    Obj(With(With(map["prompts" := Arr(items)], "nextCursor", StrValue(r.nextCursor)), "_meta", ObjValue(r.meta)))
  }

  function CapabilitiesValue(c: ServerCapabilities): Json {
    var experimental := if c.experimental.Some? then Some(PropertiesValue(c.experimental.value)) else None;
    var prompts := if c.prompts.Some? then Some(Obj(With(map[], "listChanged", BoolValue(c.prompts.value.listChanged)))) else None;
    var resources := if c.resources.Some? then
      Some(Obj(With(With(map[], "listChanged", BoolValue(c.resources.value.listChanged)), "subscribe", BoolValue(c.resources.value.subscribe))))
    else None;
    var tools := if c.tools.Some? then Some(Obj(With(map[], "listChanged", BoolValue(c.tools.value.listChanged)))) else None;
    Obj(With(With(With(With(With(map[], "experimental", experimental), "logging", ObjValue(c.logging)), "prompts", prompts), "resources", resources), "tools", tools))
  }

  function ImplementationValue(i: Implementation): Json {
    Obj(map["name" := Str(i.name), "version" := Str(i.version)])
  }

  function InitializeResultValue(r: InitializeResult): Json {
    var base := map["capabilities" := CapabilitiesValue(r.capabilities), "protocolVersion" := Str(r.protocolVersion),
                    "serverInfo" := ImplementationValue(r.serverInfo)];
    Obj(With(With(base, "instructions", StrValue(r.instructions)), "_meta", ObjValue(r.meta)))
  }
}
