/**
 * The fetch tool: checks robots.txt, downloads a page, turns HTML into
 * markdown unless raw content is asked for, and returns a window of the
 * result. Every failure stage becomes an error result, never a failed call.
 * The network, the robots.txt matcher, URL handling and the HTML libraries
 * are the parameter `net`.
 */
module Fetch {
  import opened Wrappers
  import opened Strings
  import opened Json
  import opened Schema
  import opened Tools

  const Name: string := "fetch"
  const Description: string := "Fetches a URL from the internet and extracts its contents as markdown"
  const UserAgent: string := "Bioma/1.0 (+https://github.com/BiomaAI/bioma)"
  /** The window length used when `max_length` is not given. */
  const DefaultMaxLength: nat := 5000

  /** The tool's typed arguments. */
  datatype FetchProperties = FetchProperties(url: string, maxLength: Option<nat>, startIndex: Option<nat>, raw: Option<bool>)

  /** What a GET returns: the status, the `Content-Type` header when it is readable text, and the body or the error reading it. */
  datatype HttpResponse = HttpResponse(status: int, contentType: Option<string>, body: Result<string, string>)

  /**
   * The outside world, as the tool sees it:
   * - `parseUrl`: `Url::parse`, the parsed URL or the parse error;
   * - `joinRobots`: joining "/robots.txt" onto a URL;
   * - `get`: a GET request sent with `UserAgent`, the response or the request error;
   * - `allowed`: the robots.txt matcher's verdict for (robots.txt text, agent, URL);
   * - `extract`: readability's main-content extraction for (URL, HTML);
   * - `toMarkdown`: the HTML to markdown conversion;
   * - `statusError`: the text of reqwest's `error_for_status` error for (URL, status).
   */
  datatype Net = Net(
    parseUrl: string -> Result<string, string>,
    joinRobots: string -> Result<string, string>,
    get: string -> Result<HttpResponse, string>,
    allowed: (string, string, string) -> bool,
    extract: (string, string) -> Result<string, string>,
    toMarkdown: string -> string,
    statusError: (string, int) -> string)

  // ------------------------------------------------------------ definition

  /** A property's schema fragment: its description, its type and, when it has one, its default. */
  function Field(description: string, typeTag: string, default: Option<Json>): map<string, Json> {
    var base := map["description" := Str(description), "type" := Str(typeTag)];
    if default.Some? then base["default" := default.value] else base
  }

  /** The schema fragment of one of the tool's properties: `url`, `max_length`, `start_index` or `raw`. */
  function Fragment(property: string): map<string, Json> {
    if property == "url" then Field("URL to fetch", "string", None)
    else if property == "max_length" then Field("Maximum number of characters to return", "integer", Some(Num(5000)))
    else if property == "start_index" then Field("Start content from this character index", "integer", Some(Num(0)))
    else Field("Get raw content without markdown conversion", "boolean", Some(Bool(false)))
  }

  /** `FETCH_SCHEMA` deserialised as an input schema, which is what the tool's `def()` does with it. */
  function InputSchema(): ToolInputSchema {
    ToolInputSchema(
      "object",
      Some(map property | property in {"url", "max_length", "start_index", "raw"} :: Fragment(property)),
      Some(["url"]))
  }

  /** The tool's schema text, `FETCH_SCHEMA`, as a JSON value: an object with `type`, `properties` and `required`. */
  function SchemaValue(): Json {
    InputSchemaValue(InputSchema())
  }

  /** The tool's own `def()`, which overrides the default one. */
  function Def(): (t: Tool)
    ensures t.name == "fetch"
    ensures t.description == Some("Fetches a URL from the internet and extracts its contents as markdown")
    ensures t.inputSchema.required == Some(["url"])
  {
    Tool(Name, Some(Description), InputSchema())
  }

  /** The override describes the same schema the default derivation builds; `url` is the only required field. */
  lemma DefAgreesWithDerivation()
    ensures PropertiesAreObjects(SchemaValue())
    ensures Def() == DefaultDef(Name, Description, SchemaValue())
    ensures Def().inputSchema.typeTag == "object"
    ensures Def().inputSchema.properties.Some?
    ensures forall k :: k in Def().inputSchema.properties.value <==> k == "url" || k == "max_length" || k == "start_index" || k == "raw"
    ensures Def().inputSchema.properties.value["max_length"]["default"] == Num(DefaultMaxLength)
    ensures Def().inputSchema.required == Some(["url"])
  {
    InputSchemaRoundTrip(InputSchema());
  }

  /** Deserialises the arguments: `url` is a required string, the others are optional. */
  function Parse(v: Json): (r: Result<FetchProperties, string>)
    ensures r.Success? <==>
      && v.Obj? && RequiredString(v.fields, "url").Success?
      && OptionalUsize(v.fields, "max_length").Success?
      && OptionalUsize(v.fields, "start_index").Success?
      && OptionalBool(v.fields, "raw").Success?
    ensures r.Success? ==> r.value.url == v.fields["url"].s
    ensures r.Success? ==> (r.value.maxLength.Some? <==> "max_length" in v.fields && v.fields["max_length"] != Null)
    ensures r.Success? && r.value.maxLength.Some? ==> v.fields["max_length"] == Num(r.value.maxLength.value)
    ensures r.Success? ==> (r.value.startIndex.Some? <==> "start_index" in v.fields && v.fields["start_index"] != Null)
    ensures r.Success? && r.value.startIndex.Some? ==> v.fields["start_index"] == Num(r.value.startIndex.value)
    ensures r.Success? ==> (r.value.raw.Some? <==> "raw" in v.fields && v.fields["raw"] != Null)
    ensures r.Success? && r.value.raw.Some? ==> v.fields["raw"] == Bool(r.value.raw.value)
  {
    if !v.Obj? then Failure("invalid type, expected struct FetchProperties")
    else
      var url := RequiredString(v.fields, "url");
      var maxLength := OptionalUsize(v.fields, "max_length");
      var startIndex := OptionalUsize(v.fields, "start_index");
      var raw := OptionalBool(v.fields, "raw");
      if url.Failure? then Failure(url.error)
      else if maxLength.Failure? then Failure(maxLength.error)
      else if startIndex.Failure? then Failure(startIndex.error)
      else if raw.Failure? then Failure(raw.error)
      else Success(FetchProperties(url.value, maxLength.value, startIndex.value, raw.value))
  }

  // ------------------------------------------------------------ robots.txt

  /** `StatusCode::is_client_error` */
  predicate IsClientError(status: int) {
    400 <= status < 500
  }

  /**
   * `check_robots_txt`: the message of the `Custom` error it ends in, if any.
   * An unreachable robots.txt or a client-error status means access is allowed.
   */
  function CheckRobots(net: Net, url: string): Result<(), string> {
    match net.joinRobots(url)
    case Failure(e) => Failure("Failed to construct robots.txt URL: " + e)
    case Success(robotsUrl) =>
      match net.get(robotsUrl)
      case Failure(_) => Success(())
      case Success(resp) =>
        if IsClientError(resp.status) then Success(())
        else if resp.body.Failure? then Failure("Failed to read robots.txt: " + resp.body.error)
        else if !net.allowed(resp.body.value, UserAgent, url) then Failure("Access denied by robots.txt")
        else Success(())
  }

  /** Access is allowed exactly when the robots.txt URL can be built and robots.txt is unreachable, missing, or permits the agent. */
  lemma RobotsRule(net: Net, url: string)
    ensures CheckRobots(net, url).Success? <==>
      && net.joinRobots(url).Success?
      && var got := net.get(net.joinRobots(url).value);
         || got.Failure?
         || IsClientError(got.value.status)
         || (got.value.body.Success? && net.allowed(got.value.body.value, UserAgent, url))
    ensures net.joinRobots(url).Success? && net.get(net.joinRobots(url).value).Success? ==>
      var resp := net.get(net.joinRobots(url).value).value;
      !IsClientError(resp.status) && resp.body.Success? && !net.allowed(resp.body.value, UserAgent, url) ==>
        CheckRobots(net, url) == Failure("Access denied by robots.txt")
  {
  }

  // --------------------------------------------------------------- content

  /** A body is treated as HTML when, trimmed, it opens with `<html`, or when the content type names `text/html`. */
  predicate IsHtml(body: string, contentType: string) {
    StartsWith(Trim(body), "<html") || Contains(contentType, "text/html")
  }

  /** The content from `start` on, and nothing when `start` is at or past the end. */
  function From(content: string, start: nat): (r: string)
    ensures start < |content| ==> r == content[start..]
    ensures start >= |content| ==> r == []
  {
    if start < |content| then content[start..] else []
  }

  /** `chars().take(n)`: the first `n` characters, or all of them when there are fewer. */
  function Take(s: string, n: nat): (r: string)
    ensures |r| == Min(n, |s|)
    ensures r == s[..|r|]
  {
    if n < |s| then s[..n] else s
  }

  /** The window `process_content` returns: from `start_index` (default 0), at most `max_length` (default 5000) characters. */
  function Window(content: string, startIndex: Option<nat>, maxLength: Option<nat>): string {
    Take(From(content, startIndex.GetOr(0)), maxLength.GetOr(DefaultMaxLength))
  }

  /** The window is the slice of the content that begins at the start offset and is as long as the bound allows. */
  lemma WindowIsSlice(content: string, startIndex: Option<nat>, maxLength: Option<nat>)
    ensures var start := startIndex.GetOr(0);
            var bound := maxLength.GetOr(DefaultMaxLength);
            var w := Window(content, startIndex, maxLength);
            && |w| <= bound
            && (start >= |content| ==> w == [])
            && (start < |content| ==> |w| == Min(bound, |content| - start) && w == content[start..start + |w|])
  {
  }

  /** Consecutive windows join up: reading `n1` then `n2` characters is reading `n1 + n2` characters. */
  lemma {:induction false} WindowsJoin(content: string, start: nat, n1: nat, n2: nat)
    ensures Window(content, Some(start), Some(n1)) + Window(content, Some(start + n1), Some(n2))
         == Window(content, Some(start), Some(n1 + n2))
  {
    var w1 := Window(content, Some(start), Some(n1));
    var w2 := Window(content, Some(start + n1), Some(n2));
    var w := Window(content, Some(start), Some(n1 + n2));
    WindowIsSlice(content, Some(start), Some(n1));
    WindowIsSlice(content, Some(start + n1), Some(n2));
    WindowIsSlice(content, Some(start), Some(n1 + n2));
    if start < |content| {
      if start + n1 < |content| {
        assert w1 == content[start..start + n1];
        assert w2 == content[start + n1..start + n1 + |w2|];
        assert w == content[start..start + n1 + |w2|];
        assert w1 + w2 == content[start..start + n1 + |w2|];
      } else {
        assert w2 == [];
        assert w1 == content[start..];
        assert w == content[start..];
      }
    }
  }

  /**
   * `process_content`: the windowed content, or the message of the `Custom`
   * error it ends in. Raw requests and non-HTML bodies are passed through;
   * HTML is reduced to its main content and converted to markdown.
   */
  function ProcessContent(net: Net, url: string, resp: HttpResponse, p: FetchProperties): (r: Result<string, string>)
    ensures resp.body.Failure? ==> r == Failure("Failed to get response text: " + resp.body.error)
    ensures resp.body.Success? && (p.raw.GetOr(false) || !IsHtml(resp.body.value, resp.contentType.GetOr(""))) ==>
      r == Success(Window(resp.body.value, p.startIndex, p.maxLength))
    ensures resp.body.Success? && !p.raw.GetOr(false) && IsHtml(resp.body.value, resp.contentType.GetOr("")) ==>
      var readable := net.extract(url, resp.body.value);
      && (readable.Failure? ==> r == Failure("Failed to extract content: " + readable.error))
      && (readable.Success? ==> r == Success(Window(net.toMarkdown(readable.value), p.startIndex, p.maxLength)))
  {
    var contentType := resp.contentType.GetOr("");
    if resp.body.Failure? then Failure("Failed to get response text: " + resp.body.error)
    else
      var html := resp.body.value;
      var converted :=
        if p.raw.GetOr(false) || !IsHtml(html, contentType) then Success(html)
        else
          match net.extract(url, html)
          case Failure(e) => Failure("Failed to extract content: " + e)
          case Success(readable) => Success(net.toMarkdown(readable));
      if converted.Failure? then Failure(converted.error)
      else Success(Window(converted.value, p.startIndex, p.maxLength))
  }

  // ------------------------------------------------------------------ call

  /** `Fetch::error`: one text item holding the message, flagged as an error. */
  function ErrorResult(message: string): (r: CallToolResult)
    ensures |r.content| == 1 && TextOf(r.content[0]) == Some(message)
    ensures r.isError == Some(true) && r.meta.None?
  {
    CallToolResult([TextContentValue(message)], Some(true), None)
  }

  /** `Fetch::success`: one text item holding the message, not an error. */
  function SuccessResult(message: string): (r: CallToolResult)
    ensures |r.content| == 1 && TextOf(r.content[0]) == Some(message)
    ensures r.isError == Some(false) && r.meta.None?
  {
    CallToolResult([TextContentValue(message)], Some(false), None)
  }

  /** `call`: each failing stage gives an error result with its own prefix; a fetched page gives its window. */
  function Call(net: Net, p: FetchProperties): (r: Result<CallToolResult, ToolError>)
    ensures r.Success? && |r.value.content| == 1 && r.value.meta.None?
  {
    match net.parseUrl(p.url)
    case Failure(e) => Success(ErrorResult("Invalid URL: " + e))
    case Success(url) =>
      match CheckRobots(net, url)
      case Failure(e) => Success(ErrorResult("Access denied by robots.txt: " + Display(Custom(e))))
      case Success(_) =>
        match net.get(url)
        case Failure(e) => Success(ErrorResult("Failed to fetch URL: " + e))
        case Success(resp) =>
          match ProcessContent(net, url, resp, p)
          case Failure(e) => Success(ErrorResult("Failed to process content: " + Display(Custom(e))))
          case Success(content) => Success(SuccessResult(content))
  }

  /** The call reports an error exactly when one of its four stages fails. */
  lemma ErrorIffSomeStageFails(net: Net, p: FetchProperties)
    ensures var r := Call(net, p).value;
            r.isError == Some(true) <==>
              || net.parseUrl(p.url).Failure?
              || CheckRobots(net, net.parseUrl(p.url).value).Failure?
              || net.get(net.parseUrl(p.url).value).Failure?
              || ProcessContent(net, net.parseUrl(p.url).value, net.get(net.parseUrl(p.url).value).value, p).Failure?
    ensures Call(net, p).value.isError == Some(false) || Call(net, p).value.isError == Some(true)
  {
  }

  /** Each failing stage is named by the prefix of the error text. */
  lemma StageMessages(net: Net, p: FetchProperties)
    ensures net.parseUrl(p.url).Failure? ==>
      TextOf(Call(net, p).value.content[0]) == Some("Invalid URL: " + net.parseUrl(p.url).error)
    ensures net.parseUrl(p.url).Success? ==>
      var url := net.parseUrl(p.url).value;
      && (CheckRobots(net, url).Failure? ==>
            TextOf(Call(net, p).value.content[0]) == Some("Access denied by robots.txt: " + CheckRobots(net, url).error))
      && (CheckRobots(net, url).Success? && net.get(url).Failure? ==>
            TextOf(Call(net, p).value.content[0]) == Some("Failed to fetch URL: " + net.get(url).error))
      && (CheckRobots(net, url).Success? && net.get(url).Success? ==>
            var processed := ProcessContent(net, url, net.get(url).value, p);
            && (processed.Failure? ==> TextOf(Call(net, p).value.content[0]) == Some("Failed to process content: " + processed.error))
            && (processed.Success? ==> TextOf(Call(net, p).value.content[0]) == Some(processed.value)))
  {
  }

  /** A successful call returns at most `max_length` (default 5000) characters of the page. */
  lemma SuccessIsBounded(net: Net, p: FetchProperties)
    requires Call(net, p).value.isError == Some(false)
    ensures var text := TextOf(Call(net, p).value.content[0]);
            text.Some? && |text.value| <= p.maxLength.GetOr(DefaultMaxLength)
  {
    var url := net.parseUrl(p.url).value;
    var resp := net.get(url).value;
    var processed := ProcessContent(net, url, resp, p);
    var content := if p.raw.GetOr(false) || !IsHtml(resp.body.value, resp.contentType.GetOr("")) then resp.body.value
                   else net.toMarkdown(net.extract(url, resp.body.value).value);
    assert processed.value == Window(content, p.startIndex, p.maxLength);
    WindowIsSlice(content, p.startIndex, p.maxLength);
  }

  /** Raw plain text "1234567890": a `max_length` of 5 gives "12345", a `start_index` of 5 gives "67890". */
  lemma LengthLimitExamples(net: Net, url: string)
    ensures var resp := HttpResponse(200, Some("text/plain"), Success("1234567890"));
            && ProcessContent(net, url, resp, FetchProperties(url, Some(5), None, Some(true))) == Success("12345")
            && ProcessContent(net, url, resp, FetchProperties(url, None, Some(5), Some(true))) == Success("67890")
  {
    var body := "1234567890";
    assert From(body, 0) == body;
    assert body[..5] == "12345";
  }

  /** Raw requests keep the HTML markup as it came. */
  lemma RawKeepsMarkup(net: Net, url: string, body: string)
    requires |body| <= DefaultMaxLength
    ensures ProcessContent(net, url, HttpResponse(200, Some("text/html"), Success(body)), FetchProperties(url, None, None, Some(true)))
         == Success(body)
  {
  }

  // ------------------------------------------------------ error statuses

  /** The statuses reqwest's `error_for_status` turns into an error: client and server errors. */
  predicate IsErrorStatus(status: int) {
    400 <= status < 600
  }

  /**
   * As written, the page's own status is never looked at: a page of any
   * status, 404 or 500 included, whose body can be processed comes back as a
   * success result.
   */
  lemma StatusIsNeverChecked(net: Net, p: FetchProperties)
    requires net.parseUrl(p.url).Success?
    requires CheckRobots(net, net.parseUrl(p.url).value).Success?
    requires net.get(net.parseUrl(p.url).value).Success?
    requires var url := net.parseUrl(p.url).value;
             ProcessContent(net, url, net.get(url).value, p).Success?
    ensures Call(net, p).value.isError == Some(false)
  {
  }

  /** The source's own 404 case: an empty page answered with status 404 is reported as a success holding "". */
  lemma NotFoundIsSuccess(net: Net, p: FetchProperties)
    requires net.parseUrl(p.url).Success?
    requires CheckRobots(net, net.parseUrl(p.url).value).Success?
    requires net.get(net.parseUrl(p.url).value) == Success(HttpResponse(404, None, Success("")))
    ensures Call(net, p).value == SuccessResult("")
  {
    EmptyPageIsEmpty(net, net.parseUrl(p.url).value, HttpResponse(404, None, Success("")), p);
  }

  /** A readable empty page with no content type processes to the empty text, whatever its status. */
  lemma EmptyPageIsEmpty(net: Net, url: string, resp: HttpResponse, p: FetchProperties)
    requires resp.contentType.None? && resp.body == Success("")
    ensures ProcessContent(net, url, resp, p) == Success("")
  {
    assert !IsHtml("", "") by {
      assert Trim("") == "";
      assert !StartsWith("", "<html");
    }
    assert Window("", p.startIndex, p.maxLength) == "";
  }

  /** The download with its status checked: an error status fails the fetch stage. */
  function FetchChecked(net: Net, url: string): (r: Result<HttpResponse, string>)
    ensures r.Success? <==> net.get(url).Success? && !IsErrorStatus(net.get(url).value.status)
    ensures r.Success? ==> r.value == net.get(url).value
    ensures net.get(url).Failure? ==> r == Failure(net.get(url).error)
    ensures net.get(url).Success? && IsErrorStatus(net.get(url).value.status) ==>
      r == Failure(net.statusError(url, net.get(url).value.status))
  {
    match net.get(url)
    case Failure(e) => Failure(e)
    case Success(resp) =>
      if IsErrorStatus(resp.status) then Failure(net.statusError(url, resp.status)) else Success(resp)
  }

  /** `call` with the page's status checked, as the source's own test expects. */
  function CallChecked(net: Net, p: FetchProperties): (r: Result<CallToolResult, ToolError>)
    ensures r.Success? && |r.value.content| == 1 && r.value.meta.None?
  {
    match net.parseUrl(p.url)
    case Failure(e) => Success(ErrorResult("Invalid URL: " + e))
    case Success(url) =>
      match CheckRobots(net, url)
      case Failure(e) => Success(ErrorResult("Access denied by robots.txt: " + Display(Custom(e))))
      case Success(_) =>
        match FetchChecked(net, url)
        case Failure(e) => Success(ErrorResult("Failed to fetch URL: " + e))
        case Success(resp) =>
          match ProcessContent(net, url, resp, p)
          case Failure(e) => Success(ErrorResult("Failed to process content: " + Display(Custom(e))))
          case Success(content) => Success(SuccessResult(content))
  }

  /**
   * With the status checked, an error status is an error result naming the
   * fetch stage, and on every other page the call is the one written.
   */
  lemma ErrorStatusIsError(net: Net, p: FetchProperties)
    requires net.parseUrl(p.url).Success?
    requires CheckRobots(net, net.parseUrl(p.url).value).Success?
    ensures var url := net.parseUrl(p.url).value;
            net.get(url).Success? && IsErrorStatus(net.get(url).value.status) ==>
              && CallChecked(net, p).value.isError == Some(true)
              && TextOf(CallChecked(net, p).value.content[0])
                 == Some("Failed to fetch URL: " + net.statusError(url, net.get(url).value.status))
    ensures var url := net.parseUrl(p.url).value;
            !(net.get(url).Success? && IsErrorStatus(net.get(url).value.status)) ==> CallChecked(net, p) == Call(net, p)
  {
  }

  /** The checked call agrees with the written one except on pages with an error status, which it reports as errors. */
  lemma CheckedDiffersOnlyOnErrorStatus(net: Net, p: FetchProperties)
    ensures CallChecked(net, p) != Call(net, p) ==>
      && net.parseUrl(p.url).Success?
      && net.get(net.parseUrl(p.url).value).Success?
      && IsErrorStatus(net.get(net.parseUrl(p.url).value).value.status)
      && CallChecked(net, p).value.isError == Some(true)
  {
  }
}
