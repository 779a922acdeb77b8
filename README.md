# bioma-tool MCP server, modelled in Dafny

bioma-tool is a small Model Context Protocol server. It reads JSON-RPC
messages from standard input, one per line, or from a WebSocket
connection. It answers `initialize`, `resources/list`, `prompts/list`,
`tools/list` and `tools/call`, and it runs three tools:

- `echo` answers with its message.
- `memory` is a process-wide key/value store of JSON values.
- `fetch` downloads a page, honours robots.txt, turns HTML into markdown,
  and returns a window of the text.

The model has ten modules, one per file:

- `Wrappers` (`wrappers.dfy`): `Option` and `Result`.
- `Strings` (`strings.dfy`): prefix, substring and trimming predicates.
- `Json` (`json.dfy`): JSON values.
- `Schema` (`schema.dfy`): the protocol records the server sends, and the
  JSON object each one serialises to.
- `Tools` (`tools.dfy`): the bridge between typed tools and untyped JSON.
  This is the default `def()` derived from a tool's JSON schema, and
  `call_boxed`.
- `Echo`, `Memory` and `Fetch` (`echo.dfy`, `memory.dfy`, `fetch.dfy`):
  the three tools.
  - The memory store is the class `Memory.MemoryStore`. Its map field is
    updated in place by one method per action.
  - `Memory.Step` is the pure specification of one call.
- `Transport` (`transport.dfy`): the two transports, as classes.
  - The stdio transport's state is the text written to standard output.
  - The WebSocket transport's state is its current writer and what it sent.
  - The channel to the dispatch loop is the class `Queue`.
- `Server` (`server.dfy`): the method handlers, the reply for a message
  that gets no response, and the dispatch loop.
  - The loop is the method `Server.Serve`.
  - It is proved against the pure `Server.Serving`, whose own properties
    are lemmas.

The outside world is passed in as parameters:

- `Server.Env` holds the JSON-RPC library's envelope parser (`classify`),
  its response encoder (`encode`), pretty JSON rendering, and the hash
  map's key order.
- `Fetch.Net` holds URL parsing, HTTP GETs, the robots.txt matcher,
  readability extraction and HTML-to-markdown conversion.

## Model

| member | source | states |
|---|---|---|
| Tools.StringsOf | src/tools/mod.rs:91-95 | the `required` filter keeps a name exactly when the array holds it as a string, and never grows the list |
| Tools.StringsOfAppend | src/tools/mod.rs:91-95 | the filter distributes over concatenation, so the kept names stay in their original order |
| Tools.StringsOfSingle | src/tools/mod.rs:91-95 | one entry is kept exactly when it is a string |
| Tools.InputSchemaOf | src/tools/mod.rs:67-103 | the type tag is the schema's `type` when that is a string and "object" otherwise; the properties are `None` unless `properties` is an object, and otherwise hold each property's field map unchanged under the same names; `required` is `None` unless it is an array, and otherwise holds exactly its string entries |
| Tools.Display | src/tools/mod.rs:13-26 | an error's display text ends with its message, and is the message alone exactly for `Custom` |
| Tools.StringsOfStrs | src/tools/mod.rs:91-95 | filtering an array made only of strings gives back the original list |
| Tools.InputSchemaRoundTrip | src/tools/mod.rs:67-103 | deriving an input schema from its own serialised JSON gives back the same input schema (the derivation inverts serialisation) |
| Tools.DefaultDef | src/tools/mod.rs:98-102 | the default `def()` has name `NAME`, description `Some(DESCRIPTION)` and the derived input schema |
| Tools.ArgumentsValue | src/tools/mod.rs:128-131 | no arguments deserialise from `null`, and a map of arguments from the object built from it |
| Tools.CallBoxed | src/tools/mod.rs:122-138 | a failed deserialisation gives `Err(ArgumentParse)` carrying the parser's message, and the tool is not called; otherwise the tool's own outcome comes back unchanged |
| Tools.ArgumentParseOnlyFromBridge | src/tools/mod.rs:133-136 | for a tool that never raises `ArgumentParse` itself, the bridge reports `ArgumentParse` exactly when the arguments do not deserialise |
| Strings.TrimStart | src/tools/fetch.rs:205 | trimming the front leaves a suffix of the text that does not start with whitespace, and every character removed is whitespace |
| Strings.TrimEnd | src/tools/fetch.rs:205 | trimming the end leaves a prefix of the text that does not end with whitespace, and every character removed is whitespace |
| Echo.Def | src/tools/echo.rs:27-38 | the echo tool is named "echo", with description "Echoes back the input message", a `message` property, and `message` required |
| Echo.DefAgreesWithDerivation | src/tools/echo.rs:6-15 | the overriding `def()` equals the default derivation from `ECHO_SCHEMA`: type "object", a `message` property, and `required` exactly `["message"]` |
| Echo.Parse | src/tools/echo.rs:17-21 | the arguments deserialise exactly when they are an object whose `message` is a string, and the message is that string |
| Echo.Call | src/tools/echo.rs:40-51 | the result is one text item holding the message, not an error, with no metadata |
| Echo.EchoesMessage | src/tools/echo.rs:59-70 | through the bridge, the one text item of the answer is the message that was sent |
| Echo.MissingMessageIsArgumentError | src/tools/echo.rs:17-21 | without a string `message` argument, the call fails with `ArgumentParse` |
| Memory.Def | src/tools/memory.rs:68-79 | the memory tool's name is "memory" and its description is the constant one; its properties are exactly `action`, `key` and `value`, and only `action` is required |
| Memory.DefAgreesWithDerivation | src/tools/memory.rs:10-28 | the overriding `def()` equals the default derivation from `MEMORY_SCHEMA`: type "object", exactly the properties `action`, `key` and `value`, and only `action` required |
| Memory.ActionNamed | src/tools/memory.rs:35-43 | a name denotes an action exactly when it is one of the five lower-case action names, and then it is that action's name |
| Memory.UnitVariant | src/tools/memory.rs:35-43 | an object denotes an action exactly when it has one field, an action's name, whose value is null |
| Memory.ParseAction | src/tools/memory.rs:35-43 | an action deserialises exactly when it is one of the five lower-case names, given as a string or as the single key of an object holding null, and then it is the action of that name |
| Memory.Parse | src/tools/memory.rs:45-62 | arguments deserialise exactly when they are an object with a valid `action` and a `key` that is missing, null or a string; the action is that one, the key is present exactly when `key` is a string and is then that string, and a missing or null `value` is `None` |
| Memory.Step | src/tools/memory.rs:81-143 | one call on the store as a value: the specification function the `MemoryStore` methods are proved against; its properties are the lemmas below |
| Memory.ErrorResult | src/tools/memory.rs:147-158 | an error result is one text item holding the message, flagged `is_error: Some(true)`, with no metadata |
| Memory.SuccessResult | src/tools/memory.rs:160-171 | a success result is one text item holding the message, flagged `is_error: Some(false)`, with no metadata |
| Memory.ResultShape | src/tools/memory.rs:88-142 | every call answers with one text item and no metadata, flagged as an error exactly when the call fails validation (a keyed action without a key, or a store without a value) |
| Memory.ReadOnlyActions | src/tools/memory.rs:101-125 | retrieve, list and any call that fails validation leave the store unchanged |
| Memory.OtherKeysUnchanged | src/tools/memory.rs:89-135 | a store or a delete leaves every other key, and its value, as it was |
| Memory.StoreThenRetrieve | src/tools/memory.rs:196-215 | after storing a value under a key, retrieving that key answers with the value's rendering and changes nothing |
| Memory.DeleteThenRetrieve | src/tools/memory.rs:126-135 | after a delete, the key is gone, every other key remains, and retrieving the key reports that no memory is found |
| Memory.ListNamesEveryKey | src/tools/memory.rs:114-125 | when the hash map's key order enumerates every key set, list renders an enumeration of exactly the stored keys, each once, and changes nothing |
| Memory.EnumerationLength | src/tools/memory.rs:114-125 | a list of every key, each once, is as long as the key set |
| Memory.ClearThenList | src/tools/memory.rs:260-267 | clear empties the store with its success message, and a following list renders `[]` when the key order enumerates every key set |
| Memory.MissingActionIsArgumentError | src/tools/memory.rs:45-50 | without an `action` argument, the call fails with `ArgumentParse` |
| Memory.MemoryStore.constructor | src/tools/memory.rs:31-33 | the store starts empty |
| Memory.MemoryStore.Store | src/tools/memory.rs:89-100 | a missing key, then a missing value, is reported with its own error and changes nothing; otherwise the value is stored under the key and the success message names the key |
| Memory.MemoryStore.Retrieve | src/tools/memory.rs:101-113 | a missing key is an error; a present key answers with its value's rendering; an absent one answers "No memory found for key: k" |
| Memory.MemoryStore.List | src/tools/memory.rs:114-125 | the answer renders the stored keys in the store's order |
| Memory.MemoryStore.Delete | src/tools/memory.rs:126-135 | a missing key is an error that changes nothing; otherwise exactly that key is removed, and the message says whether it was there |
| Memory.MemoryStore.Clear | src/tools/memory.rs:136-139 | the store is emptied and the answer is "Successfully cleared all memories" |
| Memory.MemoryStore.Call | src/tools/memory.rs:81-143 | one call leaves the store and the result that `Memory.Step` specifies, and never returns `Err` |
| Fetch.Def | src/tools/fetch.rs:67-80 | the fetch tool's name is "fetch", its description is the constant one, and only `url` is required |
| Fetch.DefAgreesWithDerivation | src/tools/fetch.rs:10-34 | the overriding `def()` equals the default derivation from `FETCH_SCHEMA`: exactly the four properties, `max_length` defaulting to 5000, and only `url` required |
| Fetch.Parse | src/tools/fetch.rs:36-46 | the arguments deserialise exactly when they are an object with a string `url` and well-typed optional fields; the URL is that string, and `max_length`, `start_index` and `raw` are present exactly when the client sent them non-null, with the values sent |
| Fetch.RobotsRule | src/tools/fetch.rs:142-177 | access is allowed exactly when the robots.txt URL can be built and robots.txt is unreachable, answers with a client error, or is readable and permits the agent; a readable robots.txt that refuses the agent gives "Access denied by robots.txt" |
| Fetch.From | src/tools/fetch.rs:230-235 | the content from the start offset on, and nothing when the offset is at or past the end |
| Fetch.Take | src/tools/fetch.rs:237-241 | taking `n` characters gives the prefix of length min(n, length) |
| Fetch.WindowIsSlice | src/tools/fetch.rs:229-241 | the window is empty when the start is past the end; otherwise it is the slice of the content from the start offset (default 0), of length min(max_length or 5000, remaining length) |
| Fetch.WindowsJoin | src/tools/fetch.rs:229-241 | a window of `n1` characters followed by the window that starts right after it, of `n2` characters, is the window of `n1 + n2` characters |
| Fetch.ProcessContent | src/tools/fetch.rs:187-244 | an unreadable body fails with its own message; a raw request or a non-HTML body is windowed as it came; HTML is reduced to its main content, converted to markdown and then windowed, or fails with the extraction error |
| Fetch.Call | src/tools/fetch.rs:82-112 | a call always returns `Ok`: one text item with no metadata |
| Fetch.ErrorResult | src/tools/fetch.rs:116-127 | an error result is one text item holding the message, flagged as an error, with no metadata |
| Fetch.SuccessResult | src/tools/fetch.rs:129-140 | a success result is one text item holding the content, not flagged as an error, with no metadata |
| Fetch.CheckRobots | src/tools/fetch.rs:142-177 | `check_robots_txt` as a function of the network; its rule is stated in `Fetch.RobotsRule` |
| Fetch.IsHtml | src/tools/fetch.rs:205 | a body is HTML when, trimmed, it opens with `<html`, or when the content type names `text/html` |
| Fetch.Window | src/tools/fetch.rs:229-241 | the window `process_content` returns; its shape is stated in `Fetch.WindowIsSlice` and `Fetch.WindowsJoin` |
| Fetch.ErrorIffSomeStageFails | src/tools/fetch.rs:84-111 | the result is flagged as an error exactly when URL parsing, the robots.txt check, the download or content processing fails |
| Fetch.StageMessages | src/tools/fetch.rs:84-109 | each failing stage is reported with its own prefix ("Invalid URL: ", "Access denied by robots.txt: ", "Failed to fetch URL: ", "Failed to process content: "), and a success carries the processed content |
| Fetch.SuccessIsBounded | src/tools/fetch.rs:229-241 | a successful result is one text item of at most `max_length` characters (5000 by default) |
| Fetch.LengthLimitExamples | src/tools/fetch.rs:350-376 | the plain-text body "1234567890" gives "12345" with `max_length` 5 and "67890" with `start_index` 5 |
| Fetch.RawKeepsMarkup | src/tools/fetch.rs:205-208 | a raw request keeps an HTML body as it came |
| Fetch.StatusIsNeverChecked | src/tools/fetch.rs:92-111 | as written, a page whose body can be processed is a success result whatever its status, a 404 or 500 included |
| Fetch.NotFoundIsSuccess | src/tools/fetch.rs:382-401 | as written, the source test's empty 404 page comes back as a success result holding "", where the test expects an error result |
| Fetch.EmptyPageIsEmpty | src/tools/fetch.rs:192-241 | a readable empty page with no content type is not HTML and processes to the empty text, whatever its status |
| Fetch.FetchChecked | src/tools/fetch.rs:178-184 | corrected: the download succeeds exactly when the GET succeeds with a status outside 400-599, and is then that response; an error status fails with reqwest's status error |
| Fetch.CallChecked | src/tools/fetch.rs:82-112 | corrected: the call with the status checked always returns `Ok` with one text item and no metadata |
| Fetch.ErrorStatusIsError | src/tools/fetch.rs:382-401 | corrected: a page with an error status is an error result reported by the fetch stage, and on every other page the checked call is the written one |
| Fetch.CheckedDiffersOnlyOnErrorStatus | src/tools/fetch.rs:82-112 | the checked call differs from the written one only on a fetched page with an error status, and then reports an error |
| Transport.Queue.constructor | src/lib.rs:188 | the channel starts empty, with the receiver's remaining capacity given |
| Transport.Queue.Send | src/transport.rs:49-52 | a send appends the message while the receiver takes more; otherwise it fails and changes nothing |
| Transport.Prefix | src/transport.rs:47-53 | the first `n` messages, or all of them when there are fewer |
| Transport.PrefixCons | src/transport.rs:47-53 | offering one message and then the rest to a receiver that takes `n` more is taking the message, then `n - 1` of the rest |
| Transport.LinesBeforeStop | src/transport.rs:47 | the lines read before the stop are never more than the reads |
| Transport.LinesBeforeStopSpec | src/transport.rs:47 | the lines read are the texts of the leading line reads, and the read right after them is the end of input or an error |
| Transport.Framed | src/transport.rs:64-75 | an empty response writes nothing; any other writes the response followed by exactly one newline |
| Transport.FrameAll | src/transport.rs:64-75 | everything written to standard output for a sequence of responses; stated in `Transport.FrameAllAppend` and `Transport.FramingRoundTrip` |
| Transport.SplitLines | src/transport.rs:64-75 | how a peer reads standard output back into lines; stated in `Transport.SplitFramed` and `Transport.FramingRoundTrip` |
| Transport.FrameAllAppend | src/transport.rs:64-75 | writing one more response appends its framing to standard output |
| Transport.NonEmpty | src/lib.rs:212 | the responses kept are exactly the non-empty ones, never more than were given |
| Transport.NonEmptyAppend | src/lib.rs:212 | keeping the non-empty responses distributes over appending one more |
| Transport.LineEnd | src/transport.rs:72 | the offset of the first newline, or the length when there is none |
| Transport.FramingRoundTrip | src/transport.rs:64-75 | a peer that splits standard output into lines recovers exactly the non-empty responses, in order, when no response holds a newline |
| Transport.SplitFramed | src/transport.rs:64-75 | a framed non-empty response is read back as one line, and reading goes on right after its newline |
| Transport.LineEndAt | src/transport.rs:72 | the line ends at the first newline |
| Transport.StdioTransport.constructor | src/transport.rs:31-35 | nothing has been written yet |
| Transport.StdioTransport.SendResponse | src/transport.rs:58-79 | an empty response writes nothing and succeeds; any other appends the response and one newline, or fails without writing when standard output is not writable; standard output always holds the framed responses sent |
| Transport.StdioTransport.Start | src/transport.rs:39-56 | every line read before the end of input or the first read error goes into the queue in order, up to what the receiver takes; the result is always `Ok` |
| Transport.Texts | src/transport.rs:125-131 | there are never more texts than frames |
| Transport.ReadFrames | src/transport.rs:123-144 | reading one connection's frames; stated in `Transport.TextsForwardedInOrder`, `Transport.WriterKeptOrCleared` and `Transport.StopClearsWriter` |
| Transport.AcceptAll | src/transport.rs:114-146 | the accept loop over connections; stated in `Transport.AcceptedConnectionOwnsWriter` and `Transport.HandshakeFailureEndsStart` |
| Transport.TextsForwardedInOrder | src/transport.rs:123-144 | a connection that just ends forwards all its text frames in order, skips every other frame, and keeps the writer |
| Transport.WriterKeptOrCleared | src/transport.rs:123-144 | reading a connection ends with the writer as it was or cleared, and as it was when no Close frame or error comes |
| Transport.StopClearsWriter | src/transport.rs:132-141 | a Close frame or a read error clears the writer after the text before it has been forwarded |
| Transport.AcceptedConnectionOwnsWriter | src/transport.rs:120-121 | after a connection that ends without Close or error, the writer is that connection's |
| Transport.HandshakeFailureEndsStart | src/transport.rs:116-118 | a failed handshake ends `start` with an error before anything is read from that connection |
| Transport.WebSocketTransport.constructor | src/transport.rs:92-97 | the writer starts as `None` and nothing has been sent |
| Transport.WebSocketTransport.ReadConnection | src/transport.rs:123-144 | the writer and the queue after reading one connection are what `ReadFrames` specifies |
| Transport.WebSocketTransport.Start | src/transport.rs:101-148 | a bind failure is an error that changes nothing; otherwise the writer and the queue end as the accept loop `AcceptAll` specifies, and so does the result |
| Transport.WebSocketTransport.SendResponse | src/transport.rs:150-167 | an empty response, or no writer, is a silent `Ok`; otherwise the response goes out as one text frame on the current connection, or the send fails and nothing goes out |
| Transport.LinkOf | src/transport.rs:58-167 | a stdio link delivers exactly when standard output is writable, and never drops; a WebSocket link drops exactly when there is no writer |
| Transport.SentTexts | src/transport.rs:160 | the texts sent, in order |
| Transport.SendResponse | src/transport.rs:187-195 | the wrapped transport sends: an empty response changes nothing; a non-empty one is delivered, dropped or refused as the link's state says; on stdio, the framed response is written exactly when the send succeeds |
| Transport.Start | src/transport.rs:177-185 | the wrapped transport starts: stdio forwards its lines; WebSocket binds, then accepts and reads connections |
| Server.ToolDefIsOwnDef | src/tools/mod.rs:140-142 | a registered handler's `def()` is its tool type's own `def()`, including the overrides |
| Server.ToolDef | src/tools/mod.rs:140-142 | a registered handler's `def()`; stated in `Server.ToolDefIsOwnDef` |
| Server.DefaultServer | src/main.rs:59-84 | the server the executable builds: echo, memory and fetch in that order, one resource, one prompt and the capabilities |
| Server.ToolNamesDistinct | src/main.rs:60-64 | the three tools' names differ |
| Server.ParseInitializeParams | src/lib.rs:49-52 | `initialize`'s parameters deserialise exactly when the capabilities, the client info and the protocol version have their declared shapes, and the version is the client's string |
| Server.ParseCallToolParams | src/lib.rs:158-161 | `tools/call`'s parameters deserialise exactly when `name` is a string and `arguments` is absent, null or an object; the name and the arguments are those given |
| Server.Initialize | src/lib.rs:42-72 | unparseable parameters are invalid params (-32602); otherwise the result echoes the client's protocol version and reports "rust-mcp-server" "0.1.0", the instructions and the server's capabilities, with no metadata |
| Server.ListResources | src/lib.rs:99-113 | `resources/list` returns every stored resource, in order, with no cursor and no metadata |
| Server.ListPrompts | src/lib.rs:115-129 | `prompts/list` returns every stored prompt, in order, with no cursor and no metadata |
| Server.ListTools | src/lib.rs:131-151 | `tools/list` returns every registered tool's definition, in registration order, with no cursor |
| Server.FindTool | src/lib.rs:164-165 | the found index is the first registered tool with that name; no index means no tool has it |
| Server.CallTool | src/tools/mod.rs:122-138 | one tool's `call_boxed`: a tool other than memory never changes the store, and memory arguments that do not deserialise change nothing and fail |
| Server.ToolsCall | src/lib.rs:153-186 | `tools/call` as a function; its outcomes are stated in `Server.ToolsCallOutcomes` |
| Server.ToolsCallOutcomes | src/lib.rs:153-186 | unparseable parameters are invalid params; an unknown name is method-not-found; a tool error is the generic internal error; any `Ok` result, an error result included, is a success response; the store afterwards is the one the found tool's call leaves, and a tool other than memory leaves it unchanged |
| Server.Dispatch | src/lib.rs:42-186 | which handler answers a message and with what; its shape is stated in `Server.DispatchShape` |
| Server.DispatchShape | src/lib.rs:42-186 | exactly the notifications get no response, and they change nothing; every response carries the request's id; an unregistered method is method-not-found; only `tools/call` can change the store |
| Server.ToolsCallDispatch | src/lib.rs:153-186 | a `tools/call` request is answered by the `tools/call` handler alone, with the request's id: its result as a response, its error as an error response, and the store it leaves |
| Server.CancelledOnlyLogs | src/lib.rs:81-97 | a `cancelled` notification gets no response and changes nothing, whether or not its parameters parse |
| Server.FallbackAsWritten | src/lib.rs:203-210 | as written, a message that gets no response is answered with silence exactly when its text holds one of the two unspaced method markers, and otherwise with the fixed -32603 envelope |
| Server.MarkersAbsent | src/lib.rs:204-205 | neither marker occurs in a notification written with a space after each colon |
| Server.Fallback | src/lib.rs:203-210 | corrected: a message that gets no response is answered with silence exactly when it is a notification |
| Server.Answer | src/lib.rs:199-210 | one message in: a request (or a message the library cannot take as a call) leaves the store its handler leaves and is answered with its encoded response; a notification changes nothing and gets the fallback of the rule given: the as-written substring test or silence |
| Server.Run | src/lib.rs:199-218 | handling messages in arrival order gives one response per message |
| Server.RunPrefix | src/lib.rs:199-218 | handling a prefix of the messages gives the same prefix of the responses |
| Server.Sent | src/lib.rs:212-217 | a response goes on the wire exactly when it is non-empty and the link delivers, and then only that response |
| Server.ServingWithoutFailure | src/lib.rs:199-220 | on a link that does not fail, every message is handled, the loop ends `Ok`, and the wire carries the non-empty responses in order exactly when the link delivers |
| Server.FirstNonEmpty | src/lib.rs:212 | the index of the first non-empty response, or their count when every one is empty |
| Server.ServingOnFailingLink | src/lib.rs:212-220 | on a failing link nothing goes out; the loop ends `Ok` exactly when every response is empty, and otherwise fails with "Failed to send response" right after the first message that has one |
| Server.ServingStep | src/lib.rs:199-218 | one turn of the loop handles the next message and either stops on a failed send or goes on with the rest |
| Server.Serving | src/lib.rs:198-220 | the dispatch loop over a link in one state; stated in `Server.ServingWithoutFailure`, `Server.ServingOnFailingLink` and `Server.ServingStep` |
| Server.NotificationsAreNeverAnswered | src/lib.rs:199-220 | with the corrected rule, a run of notifications, however their text is spaced, sends nothing, changes nothing and ends `Ok` |
| Server.SpacedNotificationIsAnswered | src/lib.rs:199-220 | a spaced `cancelled` notification gets no response from the handlers, yet the loop as written sends the -32603 envelope for it; with the corrected rule it sends nothing |
| Server.HandleMessage | src/lib.rs:200-210 | running the memory tool on the store object gives the store and the response that `Answer` specifies for the rule given |
| Server.HandleAndSend | src/lib.rs:200-217 | one message is handled; its response is sent only when non-empty; the send fails exactly when the response is non-empty and the link fails; the wire gains what `Sent` says |
| Server.Serve | src/lib.rs:198-220 | the loop leaves the store, the responses on the wire and the result that `Serving` specifies for the link's state; with the rule `AsWritten` it is the server's own loop |
| Server.ListedToolsAreCallable | src/main.rs:60-64 | on the default server, a call by a listed tool's name reaches that tool |
| Server.EchoThroughServer | src/lib.rs:153-186 | a `tools/call` of "echo" answers with one text item holding the message |
| Server.UnknownToolIsMethodNotFound | src/lib.rs:180-183 | a `tools/call` naming no registered tool answers method-not-found for the same id and changes nothing |
| Server.BadArgumentsAreInternalErrors | src/lib.rs:169-172 | arguments that do not deserialise reach the client as the generic internal error |
| Server.MemoryThroughServer | src/lib.rs:153-186 | a `tools/call` of "memory" performs one store step and answers with its result |
| Server.MemoryCallDispatch | src/lib.rs:153-186 | on the default server, a `tools/call` of "memory" with arguments that deserialise is answered with one store step's result and leaves that step's store |
| Server.RunTwo | src/lib.rs:199-218 | the second of two messages is handled against the store the first left |
| Server.ParseStore | src/tools/memory.rs:45-62 | the arguments of a store call deserialise to a store with that key and value |
| Server.ParseRetrieve | src/tools/memory.rs:45-62 | the arguments of a retrieve call deserialise to a retrieve of that key |
| Server.StoreThenRetrieveThroughServer | src/tools/memory.rs:196-215 | storing through the server and then retrieving the same key leaves the value stored and answers with its rendering |

## Left out

- Concurrency: the tokio tasks, the `Arc<Mutex<…>>` locks, and the interleaving of the reading task with the dispatch loop are not modelled.
  - Each operation is atomic.
  - The reading side fills the queue (`Transport.Start`) and the loop drains it (`Server.Serve`) as two separate runs.
- Memory: the poisoned-lock path (src/tools/memory.rs:82-86) needs a panic in another thread, so it is not modelled.
- The channel's capacity of 32 is not modelled. A send blocks rather than fails when the channel is full; the model's `remaining` only counts what the receiver still takes before it hangs up.
- Memory.MemoryStore.Retrieve: serialisation of the value cannot fail in the model. Rendering is the total function `pretty`, so the `ResultSerialize` error and list's "Failed to serialize keys" error are not modelled.
- Echo.Call: the `ResultSerialize` error path (src/tools/echo.rs:47) is not modelled. Serialising a text item cannot fail, and serde is outside the model.
- serde and text rendering are abstract. Each record's JSON layout is written out, but JSON text, pretty printing and the JSON-RPC envelope encoder are functions the model is given. No serde round trip is claimed.
- `jsonrpc_core` is abstract: envelope parsing is `Env.classify`.
  - Server.InvalidParams: only the code -32602 is modelled. The message is the deserialiser's text alone; the wording `Error::invalid_params` and `params.parse()` wrap around it is not modelled.
  - The invalid-params errors for a result that fails to serialise (src/lib.rs:66-69, 175-178) are not modelled, because serialisation cannot fail in the model.
  - Batches and positional parameters are not modelled.
  - serde also accepts a record written as an array of its fields in declaration order. Server.ParseInitializeParams and Server.ParseCallToolParams accept only the object form.
  - The library's error texts are written as constants.
- Server.Env: `keyOrder` is a function of the key set alone. A `HashMap`'s iteration order also depends on insertion history and the hasher's random seed, so two stores with the same keys may list them in different orders; no lemma relies on the order beyond `Memory.EnumeratesKeys`.
- Fetch: the network, `Url::parse`, the robots.txt matcher, readability and html2md are parameters (`Fetch.Net`). The 30-second timeout and the user agent header are not modelled.
- Fetch.From: the source slices by bytes (src/tools/fetch.rs:232) and takes characters (src/tools/fetch.rs:238). The model counts characters in both places, so the panic off a character boundary is not modelled.
- Fetch: a 404 or other error status on the page itself is not checked by the source (see "## Findings"). `Server.CallTool` uses the call as written (`Fetch.Call`); the corrected `Fetch.CallChecked` stands beside it.
- Tools.InputSchemaOf: requires `PropertiesAreObjects`. The source unwraps each property's conversion to an object (src/tools/mod.rs:83) and panics on one that is not. It relies on the derived schema having object properties only, so that panic is not modelled.
- Tools.Display: `ToolError::Custom` is used by the fetch tool but is not declared in the enum in src/tools/mod.rs. Its display text is taken to be its message alone.
- Argument errors: the protocol's design asks that arguments that do not match a tool's shape get invalid params (-32602). The code maps every tool error, `ArgumentParse` included, to internal error (-32603). The model follows the code (see `Server.BadArgumentsAreInternalErrors`).
- Transport.StdioTransport.SendResponse: the three failure points (writing the response, writing the newline, flushing) are one failure that writes nothing. A partial write is not modelled.
- Transport.WebSocketTransport.SendResponse: only whether the current connection accepts a frame is modelled. A send error does not clear the writer in the source either.
- Transport.StdioTransport.Start: reading standard input is the given sequence of line reads. Reading is not interleaved with the receiver.
- Server.Serve: the handler is passed as a ghost `step` that must behave as `Server.Step` for the rule given; the server's loop is the rule `AsWritten`, and the rule `Corrected` is the fixed loop of the finding below. The loop runs over the queued messages and a link that stays in one state, so a WebSocket connection that changes while the loop runs is not modelled.
- src/main.rs is not part of this model beyond its tool order, resource, prompt and capabilities (`Server.DefaultServer`). This leaves out the command line, logging and the log-file appender.
- src/tools/browse.rs and src/tools/web_browser.rs are not part of this model. They are not registered by the server.
- src/schema.rs is mirrored only for the records the core builds. Floating-point fields are not modelled.
- Logging (`tracing` and `log` calls) is not modelled.

## Findings

| source | as written | input that shows it | evidently intended | confidence | as-written member | corrected member |
|---|---|---|---|---|---|---|
| src/lib.rs:203-210 | when the handlers give no response, the text is searched for `"method":"notifications/` or `"method":"cancelled` without spaces, and any other text is answered with the -32603 envelope | `{"jsonrpc": "2.0", "method": "cancelled"}`: a notification, so the handlers give no response, but the spaced text holds neither marker, so it is answered with an error although notifications must never be answered | silence for every notification, whatever its spacing (the handlers give no response only for notifications) | medium, not executed | Server.SpacedNotificationIsAnswered (over Server.FallbackAsWritten and the loop with rule `AsWritten`) | Server.Fallback, used by the rule `Corrected` (proved in Server.NotificationsAreNeverAnswered) |
| src/tools/fetch.rs:178-184 | `fetch_url` only sends the request; a response with an error status is passed on to content processing like any other | the source test `test_fetch_error_cases` (src/tools/fetch.rs:382-401): an empty page answered with 404 and no content type is returned as a success result holding "", while the test expects `is_error == Some(true)` | an error status (400-599) fails the fetch stage, as reqwest's `error_for_status` would, giving an error result | medium, not executed | Fetch.NotFoundIsSuccess (and Fetch.StatusIsNeverChecked, over Fetch.Call) | Fetch.CallChecked over Fetch.FetchChecked (proved in Fetch.ErrorStatusIsError and Fetch.CheckedDiffersOnlyOnErrorStatus) |
