/**
 * The server: the JSON-RPC methods registered in `start_server`, the
 * handling of a message that gets no response, and the loop that handles
 * the queued messages one at a time and sends each non-empty response.
 * Envelope parsing and encoding by the JSON-RPC library are the parameters
 * `classify` and `encode` of `Env`.
 */
module Server {
  import opened Wrappers
  import opened Strings
  import opened Json
  import opened Schema
  import opened Tools
  import opened Transport
  import Echo
  import Memory
  import Fetch

  // ---------------------------------------------------------------- server

  /** The tools the server can register. */
  datatype ToolKind = EchoTool | MemoryTool | FetchTool

  /** A tool's constant `NAME`. */
  function ToolName(kind: ToolKind): string {
    match kind
    case EchoTool => Echo.Name
    case MemoryTool => Memory.Name
    case FetchTool => Fetch.Name
  }

  /** A tool's constant `DESCRIPTION`. */
  function ToolDescription(kind: ToolKind): string {
    match kind
    case EchoTool => Echo.Description
    case MemoryTool => Memory.Description
    case FetchTool => Fetch.Description
  }

  /** The input schema a tool's `def()` reports. */
  function ToolSchema(kind: ToolKind): ToolInputSchema {
    match kind
    case EchoTool => Echo.InputSchema()
    case MemoryTool => Memory.InputSchema()
    case FetchTool => Fetch.InputSchema()
  }

  /** A registered handler's `def()`, assembled from the tool type's constants and schema. */
  function ToolDef(kind: ToolKind): Tool {
    Tool(ToolName(kind), Some(ToolDescription(kind)), ToolSchema(kind))
  }

  /** The registry reports exactly each tool type's own `def()`. */
  lemma ToolDefIsOwnDef()
    ensures ToolDef(EchoTool) == Echo.Def()
    ensures ToolDef(MemoryTool) == Memory.Def()
    ensures ToolDef(FetchTool) == Fetch.Def()
  {
  }

  /** The three tools' names differ. */
  lemma ToolNamesDistinct(kind: ToolKind, other: ToolKind)
    ensures ToolName(other) == ToolName(kind) ==> other == kind
  {
  }

  /** What the server offers: its tools in registration order, its resources and prompts, its capabilities. */
  datatype McpServer = McpServer(
    tools: seq<ToolKind>,
    resources: seq<Resource>,
    prompts: seq<Prompt>,
    capabilities: ServerCapabilities)

  /** The server the executable builds: echo, memory and fetch, one example resource, one greeting prompt. */
  function DefaultServer(): McpServer {
    McpServer(
      [EchoTool, MemoryTool, FetchTool],
      [Resource("example.txt", "file:///example.txt", Some("An example text file"), Some("text/plain"))],
      [Prompt("greet", Some("A friendly greeting prompt"),
              Some([PromptArgument("name", Some("Name of the person to greet"), Some(true))]))],
      ServerCapabilities(None, None, Some(PromptsCapability(Some(false))),
                         Some(ResourcesCapability(Some(false), Some(false))), Some(ToolsCapability(Some(false)))))
  }

  // -------------------------------------------------------------- envelopes

  /** What the JSON-RPC library makes of one message's text. */
  datatype Envelope =
    | Request(id: Json, name: string, params: Json)
    | Notification(name: string, params: Json)
    | InvalidCall(id: Json)
    | Unparseable

  /** A response object: a result or an error, for the request's id. */
  datatype Output = Response(id: Json, result: Json) | ErrorResponse(id: Json, error: JsonrpcerrorError)

  /**
   * The parts of the world the dispatcher depends on but does not define:
   * the envelope classifier and encoder, pretty JSON rendering, the memory
   * store's key order, and the network the fetch tool uses.
   */
  datatype Env = Env(
    classify: string -> Envelope,
    encode: Output -> string,
    pretty: Json -> string,
    keyOrder: set<string> -> seq<string>,
    net: Fetch.Net)

  // The JSON-RPC 2.0 error objects the dispatcher answers with (section 5.1 of the JSON-RPC 2.0 specification).
  const ParseError := JsonrpcerrorError(-32700, "Parse error", None)
  const InvalidRequest := JsonrpcerrorError(-32600, "Invalid request", None)
  const MethodNotFound := JsonrpcerrorError(-32601, "Method not found", None)
  const InternalError := JsonrpcerrorError(-32603, "Internal error", None)

  function InvalidParams(message: string): JsonrpcerrorError {
    JsonrpcerrorError(-32602, message, None)
  }

  /** The names registered as methods. */
  const Methods: set<string> := {"initialize", "resources/list", "prompts/list", "tools/list", "tools/call"}

  // ------------------------------------------------------------ parameters

  /** An optional field that must be an object when present and not null. */
  predicate OptionalObject(fields: map<string, Json>, key: string) {
    key !in fields || fields[key] == Null || fields[key].Obj?
  }

  /** Whether a value deserialises as the client's capabilities: an object whose known members have their declared shapes. */
  predicate ClientCapabilitiesOk(v: Json) {
    && v.Obj?
    && OptionalObject(v.fields, "experimental")
    && ("experimental" in v.fields && v.fields["experimental"].Obj? ==>
          var e := v.fields["experimental"].fields; forall k :: k in e ==> e[k].Obj?)
    && OptionalObject(v.fields, "roots")
    && ("roots" in v.fields && v.fields["roots"].Obj? ==> OptionalBool(v.fields["roots"].fields, "listChanged").Success?)
    && OptionalObject(v.fields, "sampling")
  }

  /** Deserialises `initialize`'s parameters; the protocol version is the part the handler uses. */
  function ParseInitializeParams(params: Json): (r: Result<string, string>)
    ensures r.Success? <==>
      && params.Obj?
      && "capabilities" in params.fields && ClientCapabilitiesOk(params.fields["capabilities"])
      && "clientInfo" in params.fields && params.fields["clientInfo"].Obj?
      && RequiredString(params.fields["clientInfo"].fields, "name").Success?
      && RequiredString(params.fields["clientInfo"].fields, "version").Success?
      && "protocolVersion" in params.fields && params.fields["protocolVersion"].Str?
    ensures r.Success? ==> r.value == params.fields["protocolVersion"].s
  {
    if !params.Obj? then Failure("invalid type, expected struct InitializeRequestParams")
    else if "capabilities" !in params.fields then Failure("missing field `capabilities`")
    else if !ClientCapabilitiesOk(params.fields["capabilities"]) then Failure("invalid value for field `capabilities`")
    else if "clientInfo" !in params.fields then Failure("missing field `clientInfo`")
    else if !params.fields["clientInfo"].Obj? then Failure("invalid type for field `clientInfo`, expected struct Implementation")
    else
      var info := params.fields["clientInfo"].fields;
      if RequiredString(info, "name").Failure? then Failure(RequiredString(info, "name").error)
      else if RequiredString(info, "version").Failure? then Failure(RequiredString(info, "version").error)
      else RequiredString(params.fields, "protocolVersion")
  }

  /** Deserialises `tools/call`'s parameters: a required `name`, optional object `arguments`. */
  function ParseCallToolParams(params: Json): (r: Result<CallToolRequestParams, string>)
    ensures r.Success? <==>
      && params.Obj? && "name" in params.fields && params.fields["name"].Str?
      && OptionalObject(params.fields, "arguments")
    ensures r.Success? ==> r.value.name == params.fields["name"].s
    ensures r.Success? ==> (r.value.arguments.Some? <==> "arguments" in params.fields && params.fields["arguments"].Obj?)
    ensures r.Success? && r.value.arguments.Some? ==> Obj(r.value.arguments.value) == params.fields["arguments"]
  {
    if !params.Obj? then Failure("invalid type, expected struct CallToolRequestParams")
    else if !OptionalObject(params.fields, "arguments") then Failure("invalid type for field `arguments`, expected a map")
    else
      match RequiredString(params.fields, "name")
      case Failure(e) => Failure(e)
      case Success(name) =>
        var arguments := if "arguments" in params.fields && params.fields["arguments"].Obj?
                         then Some(params.fields["arguments"].fields) else None;
        Success(CallToolRequestParams(name, arguments))
  }

  // -------------------------------------------------------------- handlers

  /** `initialize`: the server's capabilities and identity, and the protocol version the client asked for. */
  function Initialize(server: McpServer, params: Json): (r: Result<Json, JsonrpcerrorError>)
    ensures ParseInitializeParams(params).Failure? ==> r.Failure? && r.error.code == -32602
    ensures ParseInitializeParams(params).Success? ==>
      && r.Success?
      && Get(r.value, "protocolVersion") == Get(params, "protocolVersion")
      && Get(r.value, "serverInfo") == Obj(map["name" := Str("rust-mcp-server"), "version" := Str("0.1.0")])
      && Get(r.value, "instructions") == Str("Basic MCP server with tool support")
      && Get(r.value, "capabilities") == CapabilitiesValue(server.capabilities)
      && "_meta" !in r.value.fields
  {
    match ParseInitializeParams(params)
    case Failure(e) => Failure(InvalidParams(e))
    case Success(version) =>
      Success(InitializeResultValue(InitializeResult(
        server.capabilities, version, Implementation("rust-mcp-server", "0.1.0"),
        Some("Basic MCP server with tool support"), None)))
  }

  /** `tools/list`: every registered tool's definition, in registration order, and no cursor. */
  function ListTools(server: McpServer): (r: Json)
    ensures r.Obj? && r.fields.Keys == {"tools"} && r.fields["tools"].Arr?
    ensures |r.fields["tools"].items| == |server.tools|
    ensures forall i :: 0 <= i < |server.tools| ==> r.fields["tools"].items[i] == ToolValue(ToolDef(server.tools[i]))
  {
    var defs := seq(|server.tools|, i requires 0 <= i < |server.tools| => ToolDef(server.tools[i]));
    ListToolsValue(ListToolsResult(defs, None, None))
  }

  /** `resources/list`: all the stored resources, in order, with no cursor and no metadata. */
  function ListResources(server: McpServer): (r: Json)
    ensures r.Obj? && r.fields.Keys == {"resources"} && r.fields["resources"].Arr?
    ensures |r.fields["resources"].items| == |server.resources|
    ensures forall i :: 0 <= i < |server.resources| ==> r.fields["resources"].items[i] == ResourceValue(server.resources[i])
  {
    ListResourcesValue(ListResourcesResult(server.resources, None, None))
  }

  /** `prompts/list`: all the stored prompts, in order, with no cursor and no metadata. */
  function ListPrompts(server: McpServer): (r: Json)
    ensures r.Obj? && r.fields.Keys == {"prompts"} && r.fields["prompts"].Arr?
    ensures |r.fields["prompts"].items| == |server.prompts|
    ensures forall i :: 0 <= i < |server.prompts| ==> r.fields["prompts"].items[i] == PromptValue(server.prompts[i])
  {
    ListPromptsValue(ListPromptsResult(server.prompts, None, None))
  }

  /** The first registered tool whose definition carries `name`. */
  function FindTool(tools: seq<ToolKind>, name: string): (r: Option<nat>)
    ensures r.Some? ==> r.value < |tools| && ToolName(tools[r.value]) == name
    ensures r.Some? ==> forall j :: 0 <= j < r.value ==> ToolName(tools[j]) != name
    ensures r.None? ==> forall j :: 0 <= j < |tools| ==> ToolName(tools[j]) != name
  {
    if tools == [] then None
    else if ToolName(tools[0]) == name then Some(0)
    else
      match FindTool(tools[1..], name)
      case None => None
      case Some(i) => Some(i + 1)
  }

  /**
   * One tool's `call_boxed` with the given arguments: the store afterwards
   * and the outcome. Only the memory tool changes the store.
   */
  function CallTool(env: Env, kind: ToolKind, entries: map<string, Json>, args: Option<map<string, Json>>)
    : (r: (map<string, Json>, Result<CallToolResult, ToolError>))
    ensures kind != MemoryTool ==> r.0 == entries
    ensures kind == MemoryTool && Memory.Parse(ArgumentsValue(args)).Failure? ==> r.0 == entries && r.1.Failure?
  {
    match kind
    case EchoTool => (entries, CallBoxed(args, Echo.Parse, Echo.Call))
    case MemoryTool =>
      var parsed := Memory.Parse(ArgumentsValue(args));
      var after := if parsed.Success? then Memory.Step(entries, parsed.value, env.pretty, env.keyOrder).0 else entries;
      (after, CallBoxed(args, Memory.Parse, p => Success(Memory.Step(entries, p, env.pretty, env.keyOrder).1)))
    case FetchTool => (entries, CallBoxed(args, Fetch.Parse, p => Fetch.Call(env.net, p)))
  }

  /** `tools/call`: find the tool, run it, and map its outcome onto the response. */
  function ToolsCall(env: Env, server: McpServer, entries: map<string, Json>, params: Json)
    : (map<string, Json>, Result<Json, JsonrpcerrorError>)
  {
    match ParseCallToolParams(params)
    case Failure(e) => (entries, Failure(InvalidParams(e)))
    case Success(call) =>
      match FindTool(server.tools, call.name)
      case None => (entries, Failure(MethodNotFound))
      case Some(i) =>
        var (after, outcome) := CallTool(env, server.tools[i], entries, call.arguments);
        (after, if outcome.Failure? then Failure(InternalError) else Success(CallToolResultValue(outcome.value)))
  }

  /**
   * The outcomes of `tools/call`: unparseable parameters are invalid params,
   * an unknown name is method-not-found, a tool error is the generic internal
   * error, and any result (an error result included) is passed on. Only a
   * call of the memory tool can change the store.
   */
  lemma ToolsCallOutcomes(env: Env, server: McpServer, entries: map<string, Json>, params: Json)
    ensures var (after, r) := ToolsCall(env, server, entries, params);
            var call := ParseCallToolParams(params);
            && (call.Failure? ==> after == entries && r.Failure? && r.error.code == -32602)
            && (call.Success? && FindTool(server.tools, call.value.name).None? ==> after == entries && r == Failure(MethodNotFound))
            && (call.Success? && FindTool(server.tools, call.value.name).Some? ==>
                  var kind := server.tools[FindTool(server.tools, call.value.name).value];
                  var (toolAfter, outcome) := CallTool(env, kind, entries, call.value.arguments);
                  && after == toolAfter
                  && (kind != MemoryTool ==> after == entries)
                  && (outcome.Failure? ==> r == Failure(InternalError))
                  && (outcome.Success? ==> r == Success(CallToolResultValue(outcome.value))))
  {
  }

  /** Which registered handler, if any, answers a message, and with what; only a `tools/call` of the memory tool changes the store. */
  function Dispatch(env: Env, server: McpServer, entries: map<string, Json>, envelope: Envelope)
    : (map<string, Json>, Option<Output>)
  {
    match envelope
    case Unparseable => (entries, Some(ErrorResponse(Null, ParseError)))
    case InvalidCall(id) => (entries, Some(ErrorResponse(id, InvalidRequest)))
    case Notification(_, _) => (entries, None)
    case Request(id, name, params) =>
      var (after, r) :=
        if name == "tools/call" then ToolsCall(env, server, entries, params)
        else if name == "initialize" then (entries, Initialize(server, params))
        else if name == "resources/list" then (entries, Success(ListResources(server)))
        else if name == "prompts/list" then (entries, Success(ListPrompts(server)))
        else if name == "tools/list" then (entries, Success(ListTools(server)))
        else (entries, Failure(MethodNotFound));
      (after, Some(if r.Success? then Response(id, r.value) else ErrorResponse(id, r.error)))
  }

  /**
   * Every request gets a response carrying its own id, an unregistered method
   * (a notification name included) gets method-not-found, and notifications,
   * registered or not, get none and change nothing.
   */
  lemma DispatchShape(env: Env, server: McpServer, entries: map<string, Json>, envelope: Envelope)
    ensures var (after, out) := Dispatch(env, server, entries, envelope);
            && (out.None? <==> envelope.Notification?)
            && (envelope.Notification? ==> after == entries)
            && (envelope.Request? ==> out.value.id == envelope.id)
            && (envelope.Request? && envelope.name !in Methods ==>
                  after == entries && out == Some(ErrorResponse(envelope.id, MethodNotFound)))
            && (envelope.Request? && envelope.name != "tools/call" ==> after == entries)
  {
  }

  /** A `tools/call` request is answered by `ToolsCall` alone, with the request's id. */
  lemma ToolsCallDispatch(env: Env, server: McpServer, entries: map<string, Json>, id: Json, params: Json)
    ensures var (after, r) := ToolsCall(env, server, entries, params);
            Dispatch(env, server, entries, Request(id, "tools/call", params))
              == (after, Some(if r.Success? then Response(id, r.value) else ErrorResponse(id, r.error)))
  {
  }

  /** A `cancelled` notification is only logged, whether or not its parameters parse. */
  lemma CancelledOnlyLogs(env: Env, server: McpServer, entries: map<string, Json>, params: Json)
    ensures Dispatch(env, server, entries, Notification("cancelled", params)) == (entries, None)
  {
  }

  // --------------------------------------------------------- no response

  /** The fixed envelope sent when the library produced no response and the message does not look like a notification. */
  const InternalErrorEnvelope: string := "{\"jsonrpc\": \"2.0\", \"error\": {\"code\": -32603, \"message\": \"Internal error\"}, \"id\": null}"

  const NotificationsMarker: string := "\"method\":\"notifications/"
  const CancelledMarker: string := "\"method\":\"cancelled"

  /** The no-response fallback as written: silence exactly when the raw text holds one of two method markers, spelled without spaces. */
  function FallbackAsWritten(text: string): (out: string)
    ensures out == [] <==> Contains(text, NotificationsMarker) || Contains(text, CancelledMarker)
    ensures out != [] ==> out == InternalErrorEnvelope
  {
    if !Contains(text, NotificationsMarker) && !Contains(text, CancelledMarker) then InternalErrorEnvelope else ""
  }

  /** A notification in the usual spaced JSON style. */
  const SpacedCancelled: string := "{\"jsonrpc\": \"2.0\", \"method\": \"cancelled\"}"

  /** Neither marker occurs in the spaced text: every colon in it is followed by a space. */
  lemma MarkersAbsent()
    ensures !Contains(SpacedCancelled, NotificationsMarker) && !Contains(SpacedCancelled, CancelledMarker)
  {
    var t := SpacedCancelled;
    assert |t| == 41;
    forall i | 0 <= i < |t| - 1 && t[i] == ':' ensures t[i + 1] == ' ' {
    }
    assert !Contains(t, NotificationsMarker) by {
      forall i | 0 <= i <= |t| - |NotificationsMarker| ensures !OccursAt(t, NotificationsMarker, i) {
        assert t[i..i + |NotificationsMarker|][8] == t[i + 8] && t[i..i + |NotificationsMarker|][9] == t[i + 9];
      }
    }
    assert !Contains(t, CancelledMarker) by {
      forall i | 0 <= i <= |t| - |CancelledMarker| ensures !OccursAt(t, CancelledMarker, i) {
        assert t[i..i + |CancelledMarker|][8] == t[i + 8] && t[i..i + |CancelledMarker|][9] == t[i + 9];
      }
    }
  }

  /** The no-response fallback as the protocol intends it: silence for a notification, the fixed envelope otherwise. */
  function Fallback(envelope: Envelope): (out: string)
    ensures envelope.Notification? <==> out == []
  {
    if envelope.Notification? then "" else InternalErrorEnvelope
  }

  /**
   * Which fallback a message that gets no response meets: the substring test
   * the server applies (`AsWritten`), or the protocol's rule (`Corrected`).
   */
  datatype NoResponseRule = AsWritten | Corrected

  /**
   * One message in: the store afterwards and the text to send back (empty for
   * nothing). A request, and a message the library cannot take as a call, is
   * answered with its encoded response; a notification gets no response from
   * the handlers, changes nothing, and meets the fallback `rule` names.
   */
  function Answer(env: Env, server: McpServer, rule: NoResponseRule, entries: map<string, Json>, text: string)
    : (r: (map<string, Json>, string))
    ensures var envelope := env.classify(text);
            var (after, out) := Dispatch(env, server, entries, envelope);
            && r.0 == after
            && (envelope.Notification? ==>
                  && after == entries
                  && r.1 == if rule == AsWritten then FallbackAsWritten(text) else "")
            && (!envelope.Notification? ==> out.Some? && r.1 == env.encode(out.value))
  {
    var envelope := env.classify(text);
    var (after, out) := Dispatch(env, server, entries, envelope);
    (after, if out.Some? then env.encode(out.value)
            else if rule == AsWritten then FallbackAsWritten(text) else Fallback(envelope))
  }

  // ----------------------------------------------------------------- loop

  /** A message handler: from the store and a message's text to the store afterwards and the text to send back. */
  type Handler = (map<string, Json>, string) -> (map<string, Json>, string)

  /** The server's own handler, with the given no-response rule. */
  function Step(env: Env, server: McpServer, rule: NoResponseRule): (step: Handler)
    ensures forall entries, text :: step(entries, text) == Answer(env, server, rule, entries, text)
  {
    (entries, text) => Answer(env, server, rule, entries, text)
  }

  /** `step` behaves as the server's handler on every store and message. */
  ghost predicate Handles(step: Handler, env: Env, server: McpServer, rule: NoResponseRule) {
    forall entries, text {:trigger Answer(env, server, rule, entries, text)} :: step(entries, text) == Answer(env, server, rule, entries, text)
  }

  /** The messages handled in arrival order, each against the store the previous ones left: the final store and every response. */
  function Run(step: Handler, entries: map<string, Json>, requests: seq<string>): (r: (map<string, Json>, seq<string>))
    ensures |r.1| == |requests|
    decreases |requests|
  {
    if requests == [] then (entries, [])
    else
      var (after, response) := step(entries, requests[0]);
      var (final, responses) := Run(step, after, requests[1..]);
      (final, [response] + responses)
  }

  /** Handling a prefix of the messages gives a prefix of the responses. */
  lemma {:induction false} RunPrefix(step: Handler, entries: map<string, Json>, requests: seq<string>, n: nat)
    requires n <= |requests|
    ensures Run(step, entries, requests[..n]).1 == Run(step, entries, requests).1[..n]
    decreases n
  {
    if n > 0 {
      var after := step(entries, requests[0]).0;
      assert requests[..n][0] == requests[0];
      assert requests[..n][1..] == requests[1..][..n - 1];
      RunPrefix(step, after, requests[1..], n - 1);
    }
  }

  /** What the transport puts on the wire for one response: the response when it is non-empty and the link delivers. */
  function Sent(link: Link, response: string): (out: seq<string>)
    ensures out != [] <==> response != [] && link == Delivers
    ensures out == [] || out == [response]
  {
    if response != [] && link == Delivers then [response] else []
  }

  /**
   * The dispatch loop over a link that stays in one state: the final store,
   * what went out on the wire, and the loop's result. A non-empty response
   * on a failing link ends the loop with an error after that message.
   */
  function Serving(step: Handler, link: Link, entries: map<string, Json>, requests: seq<string>)
    : (map<string, Json>, seq<string>, Result<(), string>)
    decreases |requests|
  {
    if requests == [] then (entries, [], Success(()))
    else
      var (after, response) := step(entries, requests[0]);
      if response != [] && link == Fails then (after, [], Failure("Failed to send response"))
      else
        var (final, wire, result) := Serving(step, link, after, requests[1..]);
        (final, Sent(link, response) + wire, result)
  }

  /** On a link that does not fail, every message is handled and the wire carries the non-empty responses exactly when it delivers. */
  lemma {:induction false} ServingWithoutFailure(step: Handler, link: Link, entries: map<string, Json>, requests: seq<string>)
    requires link != Fails
    ensures var (final, responses) := Run(step, entries, requests);
            Serving(step, link, entries, requests)
              == (final, if link == Delivers then NonEmpty(responses) else [], Success(()))
    decreases |requests|
  {
    if requests != [] {
      var (after, response) := step(entries, requests[0]);
      var rest := Run(step, after, requests[1..]).1;
      ServingWithoutFailure(step, link, after, requests[1..]);
      assert ([response] + rest)[1..] == rest;
      assert ([response] + rest)[0] == response;
      if link == Delivers {
        assert NonEmpty([response] + rest) == Sent(link, response) + NonEmpty(rest);
      } else {
        assert Sent(link, response) + [] == [];
      }
    }
  }

  /** The index of the first non-empty response, or their count when every one is empty. */
  function FirstNonEmpty(responses: seq<string>): (k: nat)
    ensures k <= |responses|
    ensures k < |responses| ==> responses[k] != []
    ensures forall j :: 0 <= j < k ==> responses[j] == []
  {
    if responses == [] || responses[0] != [] then 0
    else 1 + FirstNonEmpty(responses[1..])
  }

  /**
   * On a failing link nothing goes out; the loop ends `Ok` with every message
   * handled exactly when no response is non-empty, and otherwise fails right
   * after the first message that has one.
   */
  lemma {:induction false} ServingOnFailingLink(step: Handler, entries: map<string, Json>, requests: seq<string>)
    ensures var (final, wire, result) := Serving(step, Fails, entries, requests);
            var k := FirstNonEmpty(Run(step, entries, requests).1);
            && wire == []
            && (result.Success? <==> k == |requests|)
            && (result.Success? ==> final == Run(step, entries, requests).0)
            && (result.Failure? ==>
                  result == Failure("Failed to send response") && final == Run(step, entries, requests[..k + 1]).0)
    decreases |requests|
  {
    if requests != [] {
      var (after, response) := step(entries, requests[0]);
      var tail := requests[1..];
      var rest := Run(step, after, tail);
      assert Run(step, entries, requests) == (rest.0, [response] + rest.1);
      assert ([response] + rest.1)[1..] == rest.1;
      if response == [] {
        ServingOnFailingLink(step, after, tail);
        var k := FirstNonEmpty(rest.1);
        assert FirstNonEmpty([response] + rest.1) == k + 1;
        var next := Serving(step, Fails, after, tail);
        assert Sent(Fails, response) + next.1 == next.1;
        assert Serving(step, Fails, entries, requests) == next;
        if k < |rest.1| {
          assert requests[..k + 2][0] == requests[0];
          assert requests[..k + 2][1..] == tail[..k + 1];
          assert Run(step, entries, requests[..k + 2]).0 == Run(step, after, tail[..k + 1]).0;
        }
      } else {
        assert FirstNonEmpty([response] + rest.1) == 0;
        assert requests[..1][0] == requests[0] && requests[..1][1..] == [];
        assert Run(step, entries, requests[..1]).0 == after;
      }
    }
  }

  /** One turn of the loop: the message at `i` is handled, then the loop either stops on a failed send or goes on. */
  lemma ServingStep(step: Handler, link: Link, entries: map<string, Json>, requests: seq<string>, i: nat)
    requires i < |requests|
    ensures var (after, response) := step(entries, requests[i]);
            var next := Serving(step, link, after, requests[i + 1..]);
            Serving(step, link, entries, requests[i..])
              == if response != [] && link == Fails then (after, [], Failure("Failed to send response"))
                 else (next.0, Sent(link, response) + next.1, next.2)
  {
    assert requests[i..][0] == requests[i] && requests[i..][1..] == requests[i + 1..];
  }

  /**
   * With the corrected rule, notifications are never answered: a run of them,
   * however their text is spaced, sends nothing, changes nothing and ends `Ok`.
   */
  lemma {:induction false} NotificationsAreNeverAnswered(env: Env, server: McpServer, link: Link,
                                                         entries: map<string, Json>, requests: seq<string>)
    requires forall i :: 0 <= i < |requests| ==> env.classify(requests[i]).Notification?
    ensures Serving(Step(env, server, Corrected), link, entries, requests) == (entries, [], Success(()))
    decreases |requests|
  {
    if requests != [] {
      assert env.classify(requests[0]).Notification?;
      assert Step(env, server, Corrected)(entries, requests[0]) == (entries, "");
      assert forall i :: 0 <= i < |requests[1..]| ==> env.classify(requests[1..][i]).Notification? by {
        forall i | 0 <= i < |requests[1..]| ensures env.classify(requests[1..][i]).Notification? {
          assert requests[1..][i] == requests[i + 1];
        }
      }
      NotificationsAreNeverAnswered(env, server, link, entries, requests[1..]);
      assert Sent(link, "") + [] == [];
    }
  }

  /**
   * As written, the loop answers a notification whose text puts a space after
   * the colon with the internal-error envelope, although a notification must
   * never be answered; with the corrected rule it sends nothing.
   */
  lemma SpacedNotificationIsAnswered(env: Env, server: McpServer, entries: map<string, Json>)
    requires env.classify(SpacedCancelled) == Notification("cancelled", Null)
    ensures FallbackAsWritten(SpacedCancelled) == InternalErrorEnvelope
    ensures Serving(Step(env, server, AsWritten), Delivers, entries, [SpacedCancelled])
         == (entries, [InternalErrorEnvelope], Success(()))
    ensures Serving(Step(env, server, Corrected), Delivers, entries, [SpacedCancelled]) == (entries, [], Success(()))
  {
    MarkersAbsent();
    assert Step(env, server, AsWritten)(entries, SpacedCancelled) == (entries, InternalErrorEnvelope);
    assert Step(env, server, Corrected)(entries, SpacedCancelled) == (entries, "");
    assert [SpacedCancelled][0] == SpacedCancelled && [SpacedCancelled][1..] == [];
    var asWritten := Step(env, server, AsWritten);
    assert Serving(asWritten, Delivers, entries, []) == (entries, [], Success(()));
    assert Sent(Delivers, InternalErrorEnvelope) + [] == [InternalErrorEnvelope];
    var corrected := Step(env, server, Corrected);
    assert Serving(corrected, Delivers, entries, []) == (entries, [], Success(()));
    assert Sent(Delivers, "") + [] == [];
  }

  /** Handles one message, running the memory tool on the store object; the result is `Answer`. */
  method HandleMessage(env: Env, server: McpServer, rule: NoResponseRule, store: Memory.MemoryStore, text: string)
    returns (response: string)
    modifies store
    ensures (store.entries, response) == Answer(env, server, rule, old(store.entries), text)
  {
    var envelope := env.classify(text);
    if envelope.Request? && envelope.name == "tools/call" {
      var params := ParseCallToolParams(envelope.params);
      if params.Success? {
        var found := FindTool(server.tools, params.value.name);
        if found.Some? && server.tools[found.value] == MemoryTool {
          var parsed := Memory.Parse(ArgumentsValue(params.value.arguments));
          if parsed.Success? {
            var outcome := store.Call(parsed.value, env.pretty, env.keyOrder);
            response := env.encode(Response(envelope.id, CallToolResultValue(outcome.value)));
            return;
          }
        }
      }
    }
    var answer := Answer(env, server, rule, store.entries, text);
    response := answer.1;
  }

  /** Handles one message and sends its response when there is one; the send's outcome is passed back. */
  method HandleAndSend(env: Env, server: McpServer, rule: NoResponseRule, ghost step: Handler,
                       store: Memory.MemoryStore, t: TransportType, text: string)
    returns (response: string, r: Result<(), string>)
    requires Handles(step, env, server, rule)
    requires t.Valid()
    modifies store, t.Repr()
    ensures (store.entries, response) == step(old(store.entries), text)
    ensures t.Valid() && LinkOf(t) == old(LinkOf(t))
    ensures r.Failure? <==> response != [] && old(LinkOf(t)) == Fails
    ensures Delivered(t) == old(Delivered(t)) + Sent(old(LinkOf(t)), response)
  {
    response := HandleMessage(env, server, rule, store, text);
    r := Success(());
    if response != [] {
      r := SendResponse(t, response);
    }
  }

  lemma AppendAssoc(a: seq<string>, b: seq<string>, c: seq<string>)
    ensures a + (b + c) == (a + b) + c
  {
  }

  /**
   * The dispatch loop: handles the queued messages one at a time in arrival
   * order and sends each non-empty response; a failed send ends the loop
   * with an error, and the loop ends with `Ok` when the queue is drained.
   * `step` is the server's handler (`Step`), passed as a ghost. With the rule
   * `AsWritten` this is the server's loop; with `Corrected`, the loop with
   * the protocol's fallback.
   */
  method Serve(env: Env, server: McpServer, rule: NoResponseRule, ghost step: Handler,
               store: Memory.MemoryStore, t: TransportType, requests: seq<string>)
    returns (r: Result<(), string>)
    requires Handles(step, env, server, rule)
    requires t.Valid()
    modifies store, t.Repr()
    ensures t.Valid() && LinkOf(t) == old(LinkOf(t))
    ensures var outcome := Serving(step, old(LinkOf(t)), old(store.entries), requests);
            store.entries == outcome.0 && Delivered(t) == old(Delivered(t)) + outcome.1 && r == outcome.2
  {
    ghost var link := LinkOf(t);
    ghost var delivered := Delivered(t);
    ghost var total := Serving(step, link, store.entries, requests);
    ghost var wire: seq<string> := [];
    var i := 0;
    assert requests[i..] == requests;
    assert wire + total.1 == total.1;
    while i < |requests|
      invariant 0 <= i <= |requests|
      invariant t.Valid() && LinkOf(t) == link
      invariant Delivered(t) == delivered + wire
      invariant var rest := Serving(step, link, store.entries, requests[i..]);
                total == (rest.0, wire + rest.1, rest.2)
    {
      ghost var before := store.entries;
      ServingStep(step, link, before, requests, i);
      var response, sent := HandleAndSend(env, server, rule, step, store, t, requests[i]);
      assert step(before, requests[i]) == (store.entries, response);
      if sent.Failure? {
        assert wire + [] == wire;
        return Failure("Failed to send response");
      }
      ghost var next := Serving(step, link, store.entries, requests[i + 1..]);
      AppendAssoc(wire, Sent(link, response), next.1);
      AppendAssoc(delivered, wire, Sent(link, response));
      wire := wire + Sent(link, response);
      i := i + 1;
    }
    return Success(());
  }

  // ------------------------------------------------------ whole exchanges

  /** The default server's tool names are distinct, so every listed tool is the one a call by its name reaches. */
  lemma ListedToolsAreCallable(i: nat)
    requires i < |DefaultServer().tools|
    ensures FindTool(DefaultServer().tools, ToolName(DefaultServer().tools[i])) == Some(i)
  {
    var tools := DefaultServer().tools;
    assert ToolName(tools[0]) == "echo" && ToolName(tools[1]) == "memory" && ToolName(tools[2]) == "fetch";
  }

  /** A `tools/call` of "echo" on the default server answers with one text item holding the message. */
  lemma EchoThroughServer(env: Env, rule: NoResponseRule, entries: map<string, Json>, text: string, id: Json, message: string)
    requires env.classify(text) == Request(id, "tools/call",
      Obj(map["name" := Str("echo"), "arguments" := Obj(map["message" := Str(message)])]))
    ensures Answer(env, DefaultServer(), rule, entries, text)
         == (entries, env.encode(Response(id, CallToolResultValue(CallToolResult([TextContentValue(message)], Some(false), None)))))
  {
    var envelope := env.classify(text);
    var args := map["message" := Str(message)];
    ToolsCallDispatch(env, DefaultServer(), entries, id, envelope.params);
    ListedToolsAreCallable(0);
    assert ParseCallToolParams(envelope.params) == Success(CallToolRequestParams("echo", Some(args)));
    assert CallTool(env, EchoTool, entries, Some(args)).1 == Success(CallToolResult([TextContentValue(message)], Some(false), None));
  }

  /** A `tools/call` naming no registered tool answers method-not-found for the same id and changes nothing. */
  lemma UnknownToolIsMethodNotFound(env: Env, server: McpServer, rule: NoResponseRule, entries: map<string, Json>, text: string, id: Json, name: string)
    requires env.classify(text) == Request(id, "tools/call", Obj(map["name" := Str(name)]))
    requires forall j :: 0 <= j < |server.tools| ==> ToolName(server.tools[j]) != name
    ensures Answer(env, server, rule, entries, text) == (entries, env.encode(ErrorResponse(id, MethodNotFound)))
  {
    ToolsCallDispatch(env, server, entries, id, env.classify(text).params);
  }

  /**
   * On the default server, arguments that do not deserialise reach the
   * client as the generic internal error, not as invalid params: the bridge's
   * `ArgumentParse` is a tool error like any other.
   */
  lemma BadArgumentsAreInternalErrors(env: Env, rule: NoResponseRule, entries: map<string, Json>, text: string, id: Json)
    requires env.classify(text) == Request(id, "tools/call", Obj(map["name" := Str("echo"), "arguments" := Obj(map[])]))
    ensures Answer(env, DefaultServer(), rule, entries, text) == (entries, env.encode(ErrorResponse(id, InternalError)))
  {
    var envelope := env.classify(text);
    ToolsCallDispatch(env, DefaultServer(), entries, id, envelope.params);
    ListedToolsAreCallable(0);
    assert ParseCallToolParams(envelope.params) == Success(CallToolRequestParams("echo", Some(map[])));
    assert CallTool(env, EchoTool, entries, Some(map[])).1.Failure?;
  }

  /** A `tools/call` of "memory" on the default server runs one store step and answers with its result. */
  lemma MemoryThroughServer(env: Env, rule: NoResponseRule, entries: map<string, Json>, text: string, id: Json,
                            args: map<string, Json>, p: Memory.MemoryProperties)
    requires env.classify(text) == Request(id, "tools/call", Obj(map["name" := Str("memory"), "arguments" := Obj(args)]))
    requires Memory.Parse(Obj(args)) == Success(p)
    ensures var (after, result) := Memory.Step(entries, p, env.pretty, env.keyOrder);
            Answer(env, DefaultServer(), rule, entries, text) == (after, env.encode(Response(id, CallToolResultValue(result))))
  {
    MemoryCallDispatch(env, entries, env.classify(text), id, args, p);
  }

  /** The dispatch half of `MemoryThroughServer`: the memory tool's step is what `tools/call` hands back. */
  lemma MemoryCallDispatch(env: Env, entries: map<string, Json>, envelope: Envelope, id: Json,
                           args: map<string, Json>, p: Memory.MemoryProperties)
    requires envelope == Request(id, "tools/call", Obj(map["name" := Str("memory"), "arguments" := Obj(args)]))
    requires Memory.Parse(Obj(args)) == Success(p)
    ensures var (after, result) := Memory.Step(entries, p, env.pretty, env.keyOrder);
            Dispatch(env, DefaultServer(), entries, envelope) == (after, Some(Response(id, CallToolResultValue(result))))
  {
    ToolsCallDispatch(env, DefaultServer(), entries, id, envelope.params);
    ListedToolsAreCallable(1);
    assert ParseCallToolParams(envelope.params) == Success(CallToolRequestParams("memory", Some(args)));
    var (after, result) := Memory.Step(entries, p, env.pretty, env.keyOrder);
    assert CallTool(env, MemoryTool, entries, Some(args)) == (after, Success(result));
  }

  /** Two messages in a row: the second is handled against the store the first left. */
  lemma RunTwo(step: Handler, entries: map<string, Json>, first: string, second: string)
    ensures var (middle, r1) := step(entries, first);
            var (after, r2) := step(middle, second);
            Run(step, entries, [first, second]) == (after, [r1, r2])
  {
    var (middle, r1) := step(entries, first);
    var (after, r2) := step(middle, second);
    assert [first, second][1..] == [second];
    assert [second][1..] == [];
    assert Run(step, after, []) == (after, []);
    assert [r2] + [] == [r2];
    assert Run(step, middle, [second]) == (after, [r2]);
    assert [r1] + [r2] == [r1, r2];
  }

  /** The arguments of a store call deserialise to a store with that key and value. */
  lemma ParseStore(key: string, value: Json)
    requires value != Null
    ensures Memory.Parse(Obj(map["action" := Str("store"), "key" := Str(key), "value" := value]))
         == Success(Memory.MemoryProperties(Memory.Store, Some(key), Some(value)))
  {
  }

  /** The arguments of a retrieve call deserialise to a retrieve of that key. */
  lemma ParseRetrieve(key: string)
    ensures Memory.Parse(Obj(map["action" := Str("retrieve"), "key" := Str(key)]))
         == Success(Memory.MemoryProperties(Memory.Retrieve, Some(key), None))
  {
  }

  /** Storing through the server and then retrieving the same key answers with the stored value's rendering. */
  lemma StoreThenRetrieveThroughServer(env: Env, rule: NoResponseRule, entries: map<string, Json>, store: string, retrieve: string,
                                       id1: Json, id2: Json, key: string, value: Json)
    requires env.classify(store) == Request(id1, "tools/call", Obj(map["name" := Str("memory"),
      "arguments" := Obj(map["action" := Str("store"), "key" := Str(key), "value" := value])]))
    requires env.classify(retrieve) == Request(id2, "tools/call", Obj(map["name" := Str("memory"),
      "arguments" := Obj(map["action" := Str("retrieve"), "key" := Str(key)])]))
    requires value != Null
    ensures var (after, responses) := Run(Step(env, DefaultServer(), rule), entries, [store, retrieve]);
            && after == entries[key := value]
            && responses[1] == env.encode(Response(id2, CallToolResultValue(Memory.SuccessResult(env.pretty(value)))))
  {
    var args1 := map["action" := Str("store"), "key" := Str(key), "value" := value];
    ParseStore(key, value);
    MemoryThroughServer(env, rule, entries, store, id1, args1, Memory.MemoryProperties(Memory.Store, Some(key), Some(value)));
    var args2 := map["action" := Str("retrieve"), "key" := Str(key)];
    ParseRetrieve(key);
    MemoryThroughServer(env, rule, entries[key := value], retrieve, id2, args2, Memory.MemoryProperties(Memory.Retrieve, Some(key), None));
    RunTwo(Step(env, DefaultServer(), rule), entries, store, retrieve);
  }
}
