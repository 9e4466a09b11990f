/**
 * The Gemini adapter: translation of a conversation into Gemini's two-role
 * `contents` payload, extraction of the first candidate's text, the
 * connectivity probe, and decoding of the `data: ` framed stream.
 */
module GeminiClient {
  import opened Wrappers
  import opened Text
  import opened Contract
  import opened Transport

  const ApiEndpoint := "https://generativelanguage.googleapis.com/v1beta/models/gemini-pro:generateContent"
  const StreamApiEndpoint := "https://generativelanguage.googleapis.com/v1beta/models/gemini-pro:streamGenerateContent"
  const DefaultModel := "gemini-pro"
  const DefaultMaxTokens := 2048
  const DefaultTemperature: real := 0.7
  const KeyNotSet := "Gemini API key is not set"

  /** `getTokenLimit()` */
  const TokenLimit := 30720

  /** `getModelName()` */
  function ModelName(model: string): string {
    "Google " + model
  }

  // ---------------------------------------------------------------------------
  // Request

  datatype GeminiRole = UserRole | ModelRole
  datatype TextPart = TextPart(text: string)
  datatype GeminiMessage = GeminiMessage(role: GeminiRole, parts: seq<TextPart>)

  datatype GenerationConfig = GenerationConfig(
    temperature: Option<real>,
    maxOutputTokens: Option<int>,
    topP: Option<real>,
    stopSequences: Option<seq<string>>)

  datatype Request = Request(contents: seq<GeminiMessage>, generationConfig: GenerationConfig)

  /** Gemini has two roles: an assistant turn is the model's, every other turn (system included) is the user's. */
  function MapRole(role: Role): GeminiRole {
    if role == Assistant then ModelRole else UserRole
  }

  function Translate(m: Message): GeminiMessage {
    GeminiMessage(MapRole(m.role), [TextPart(m.content)])
  }

  /**
   * The generation settings sent with every request: temperature and output
   * budget always present, the caller's value when given and the defaults
   * 0.7 and 2048 otherwise (`??`, so only an absent value is replaced);
   * nucleus sampling and stop sequences exactly as the caller gave them.
   */
  function GenerationConfigFor(options: Options): (g: GenerationConfig)
    ensures g.temperature.Some? && g.maxOutputTokens.Some?
    ensures options.temperature.Some? ==> g.temperature == options.temperature
    ensures options.temperature.None? ==> g.temperature == Some(DefaultTemperature)
    ensures options.maxTokens.Some? ==> g.maxOutputTokens == options.maxTokens
    ensures options.maxTokens.None? ==> g.maxOutputTokens == Some(DefaultMaxTokens)
    ensures g.topP == options.topP && g.stopSequences == options.stopSequences
  {
    GenerationConfig(
      Some(options.temperature.GetOr(DefaultTemperature)),
      Some(options.maxTokens.GetOr(DefaultMaxTokens)),
      options.topP,
      options.stopSequences)
  }

  /** The request `createRequest` builds: one Gemini message per turn, in order. */
  function RequestFor(messages: seq<Message>, options: Options): Request {
    Request(seq(|messages|, i requires 0 <= i < |messages| => Translate(messages[i])), GenerationConfigFor(options))
  }

  /** `createRequest`: pushes one translated message per turn. */
  method CreateRequest(messages: seq<Message>, options: Options) returns (req: Request)
    ensures req == RequestFor(messages, options)
  {
    var geminiMessages: seq<GeminiMessage> := [];
    for i := 0 to |messages|
      invariant |geminiMessages| == i
      invariant forall j :: 0 <= j < i ==> geminiMessages[j] == Translate(messages[j])
    {
      var msg := messages[i];
      var role := if msg.role == Assistant then ModelRole else UserRole;
      geminiMessages := geminiMessages + [GeminiMessage(role, [TextPart(msg.content)])];
    }
    req := Request(geminiMessages, GenerationConfig(
      Some(options.temperature.GetOr(DefaultTemperature)),
      Some(options.maxTokens.GetOr(DefaultMaxTokens)),
      options.topP,
      options.stopSequences));
  }

  /** Reads a conversation back out of a request: the inverse of the translation up to the folding of roles. */
  function Conversation(req: Request): seq<Message> {
    seq(|req.contents|, i requires 0 <= i < |req.contents| =>
      var g := req.contents[i];
      Message(if g.role == ModelRole then Assistant else User, if |g.parts| > 0 then g.parts[0].text else ""))
  }

  /**
   * Translation keeps every turn, its position and its text; the only thing
   * it loses is the difference between a system turn and a user turn.
   */
  lemma ConversationRecovered(messages: seq<Message>, options: Options)
    ensures |Conversation(RequestFor(messages, options))| == |messages|
    ensures forall i :: 0 <= i < |messages| ==>
      Conversation(RequestFor(messages, options))[i] ==
        Message(if messages[i].role == System then User else messages[i].role, messages[i].content)
  {
  }

  /** Without system turns the translation loses nothing. */
  lemma RoundTripWithoutSystem(messages: seq<Message>, options: Options)
    requires forall i :: 0 <= i < |messages| ==> messages[i].role != System
    ensures Conversation(RequestFor(messages, options)) == messages
  {
    ConversationRecovered(messages, options);
    var c := Conversation(RequestFor(messages, options));
    assert forall i :: 0 <= i < |messages| ==> c[i] == messages[i] by {
      forall i | 0 <= i < |messages| ensures c[i] == messages[i] {
        assert messages[i] == Message(messages[i].role, messages[i].content);
      }
    }
  }

  /** A system turn and a user turn with the same text translate to the same Gemini message. */
  lemma SystemFoldsIntoUser(content: string)
    ensures Translate(Message(System, content)) == Translate(Message(User, content))
    ensures Translate(Message(Assistant, content)) != Translate(Message(User, content))
  {
  }

  // ---------------------------------------------------------------------------
  // Response

  /** `candidates?.[0]?.content?.parts?.[0]?.text` */
  function FirstText(b: Body): Option<string> {
    match b.candidates
    case None => None
    case Some(cs) =>
      if |cs| == 0 then None
      else match cs[0].content
        case None => None
        case Some(c) =>
          match c.parts
          case None => None
          case Some(ps) => if |ps| == 0 then None else ps[0].text
  }

  /** The usage record built from `usageMetadata`, each count missing when the vendor omitted it. */
  function UsageOf(b: Body): Usage {
    match b.usageMetadata
    case Some(u) => Usage(u.promptTokens, u.completionTokens, u.totalTokens)
    case None => Usage(None, None, None)
  }

  const ParseFailure := Thrown(Some("invalid_response"), Some("Failed to parse Gemini API response"))

  /**
   * `parseResponse`: the first candidate's first part text, or the empty
   * string without any error when that path is missing; only a `null` body,
   * on which the property access raises, becomes an `invalid_response` error.
   */
  function ParseResponse(json: Option<Body>, model: string): (r: Response)
    ensures json.None? ==> r == CreateErrorResponse(ParseFailure)
    ensures json.Some? ==> r.error.None? && r.metadata.model == Some(model) && r.metadata.usage.Some?
    ensures json.Some? && Truthy(FirstText(json.value)) ==> r.content == FirstText(json.value).value
    ensures json.Some? && !Truthy(FirstText(json.value)) ==> r.content == ""
  {
    match json
    case None => CreateErrorResponse(ParseFailure)
    case Some(b) => Response(OrElse(FirstText(b), ""), None, Metadata(Some(model), Some(UsageOf(b))))
  }

  /** The result a completed request yields, given how the server answered. */
  function ReplyResponse(reply: Reply, model: string, fallback: string): Response {
    match reply
    case Failed(e) => CreateErrorResponse(e)
    case NotOk(m) => CreateErrorResponse(ErrorOf(OrElse(m, fallback)))
    case Delivered(json) => ParseResponse(json, model)
  }

  // ---------------------------------------------------------------------------
  // Connectivity probe

  /** The cheapest real request: one user turn `Hello`, an output budget of 5 tokens. */
  function ProbeRequest(): Request {
    Request([GeminiMessage(UserRole, [TextPart("Hello")])], GenerationConfig(None, Some(5), None, None))
  }

  /**
   * `testConnection`: false without a request when no key is set; otherwise
   * one probe request carrying the key in the URL, and true exactly when the
   * server answers with an ok status. It never raises.
   */
  method TestConnection(apiKey: Option<string>, reply: ProbeReply) returns (sent: Option<Exchange<Request>>, ok: bool)
    ensures sent.None? <==> !Truthy(apiKey)
    ensures sent.Some? ==> sent.value == Exchange(ApiEndpoint + "?key=" + apiKey.value, JsonHeaders, ProbeRequest())
    ensures ok <==> Truthy(apiKey) && reply == ProbeAnswered(true)
  {
    if !Truthy(apiKey) {
      return None, false;
    }
    sent := Some(Exchange(ApiEndpoint + "?key=" + apiKey.value, JsonHeaders, ProbeRequest()));
    match reply
    case ProbeFailed(_) => ok := false;
    case ProbeAnswered(status) => ok := status;
  }

  // ---------------------------------------------------------------------------
  // Completion

  /**
   * What `complete` does: nothing is sent and an error is raised when the
   * preconditions fail; otherwise one request carrying the key in the URL
   * and a result that is never raised.
   */
  function CompleteCall(messages: seq<Message>, options: Options, apiKey: Option<string>, model: string, reply: Reply)
    : Call<Exchange<Request>>
  {
    match Preconditions(messages, apiKey, KeyNotSet)
    case Some(e) => Call(None, Failure(e))
    case None =>
      Call(Some(Exchange(ApiEndpoint + "?key=" + apiKey.value, JsonHeaders, RequestFor(messages, options))),
           Success(ReplyResponse(reply, model, "Failed to generate completion")))
  }

  /** `complete` */
  method Complete(messages: seq<Message>, options: Options, apiKey: Option<string>, model: string, reply: Reply)
    returns (sent: Option<Exchange<Request>>, r: Result<Response, Thrown>)
    ensures Call(sent, r) == CompleteCall(messages, options, apiKey, model, reply)
  {
    var check := ValidateMessages(messages);
    if check.Fail? {
      return None, Failure(check.error);
    }
    if !Truthy(apiKey) {
      return None, Failure(ErrorOf(KeyNotSet));
    }
    var body := CreateRequest(messages, options);
    sent := Some(Exchange(ApiEndpoint + "?key=" + apiKey.value, JsonHeaders, body));
    r := Success(ReplyResponse(reply, model, "Failed to generate completion"));
  }

  // ---------------------------------------------------------------------------
  // Streaming

  /**
   * The text one data line hands to `onData`: the payload is decoded by
   * `parse` (`None` when `JSON.parse` raises or yields `null`; the frame is
   * then skipped), and only a non-empty first-candidate text is delivered.
   */
  function FrameText(line: string, parse: string -> Option<Body>): Option<string> {
    if !StartsWith(line, DataPrefix) then None
    else match parse(Payload(line))
      case None => None
      case Some(data) => if Truthy(FirstText(data)) then FirstText(data) else None
  }

  function Emit(parse: string -> Option<Body>): string -> Option<string> {
    line => FrameText(line, parse)
  }

  /** What a streaming request yields once the preconditions hold: the delivered texts and the result. */
  function StreamOutcome(reply: StreamReply, model: string, parse: string -> Option<Body>): (seq<string>, Response) {
    match reply
    case StreamFailed(e) => ([], CreateErrorResponse(e))
    case StreamNotOk(m) => ([], CreateErrorResponse(ErrorOf(OrElse(m, "Failed to stream completion"))))
    case NoBody => ([], CreateErrorResponse(ErrorOf("No response body received")))
    case Streamed(chunks, interruption) =>
      var delivered := Deliveries(chunks, Emit(parse));
      (delivered,
       match interruption
       case Some(e) => CreateErrorResponse(e)
       case None => Response(Concat(delivered), None, Metadata(Some(model), None)))
  }

  /** What `streamComplete` does: the same preconditions as `complete`, then one request to the streaming endpoint. */
  function StreamCallFor(messages: seq<Message>, options: Options, apiKey: Option<string>, model: string,
                         reply: StreamReply, parse: string -> Option<Body>): StreamCall<Exchange<Request>>
  {
    match Preconditions(messages, apiKey, KeyNotSet)
    case Some(e) => StreamCall(None, [], Failure(e))
    case None =>
      var (delivered, response) := StreamOutcome(reply, model, parse);
      StreamCall(Some(Exchange(StreamApiEndpoint + "?alt=sse&key=" + apiKey.value, JsonHeaders, RequestFor(messages, options))),
                 delivered, Success(response))
  }

  /** The frame rule spelled out for one data line: decode, then deliver a non-empty text. */
  lemma FrameTextOfDataLine(line: string, parse: string -> Option<Body>)
    requires StartsWith(line, DataPrefix)
    ensures Emit(parse)(line) ==
      (var data := parse(Payload(line)); if data.Some? && Truthy(FirstText(data.value)) then FirstText(data.value) else None)
  {
  }

  /**
   * The loop over the data lines of one chunk: each line is decoded, and each
   * non-empty text is appended to the accumulated text and handed to `onData`
   * (recorded in `delivered`).
   */
  method DecodeLines(lines: seq<string>, parse: string -> Option<Body>, fullText0: string, delivered0: seq<string>)
    returns (fullText: string, delivered: seq<string>)
    requires forall i :: 0 <= i < |lines| ==> StartsWith(lines[i], DataPrefix)
    requires fullText0 == Concat(delivered0)
    ensures delivered == delivered0 + Harvest(lines, Emit(parse))
    ensures fullText == Concat(delivered)
  {
    fullText, delivered := fullText0, delivered0;
    var j := 0;
    while j < |lines|
      invariant 0 <= j <= |lines|
      invariant delivered == delivered0 + Harvest(lines[..j], Emit(parse))
      invariant fullText == Concat(delivered)
    {
      var line := lines[j];
      FrameTextOfDataLine(line, parse);
      HarvestExtend(lines, j, Emit(parse), delivered0, delivered);
      var data := parse(Payload(line));
      if data.Some? && Truthy(FirstText(data.value)) {
        var text := FirstText(data.value).value;
        AppendText(delivered, text);
        fullText := fullText + text;
        delivered := delivered + [text];
      }
      j := j + 1;
    }
    assert lines[..j] == lines;
  }

  /**
   * The read loop of `streamComplete`: every chunk is split into lines on its
   * own and its data lines are decoded in order; the accumulated text is the
   * concatenation of everything handed to `onData`.
   */
  method DecodeStream(chunks: seq<string>, parse: string -> Option<Body>) returns (fullText: string, delivered: seq<string>)
    ensures delivered == Deliveries(chunks, Emit(parse))
    ensures fullText == Concat(delivered)
  {
    fullText, delivered := "", [];
    var k := 0;
    while k < |chunks|
      invariant 0 <= k <= |chunks|
      invariant delivered == Deliveries(chunks[..k], Emit(parse))
      invariant fullText == Concat(delivered)
    {
      var lines := DataLines(chunks[k]);
      fullText, delivered := DecodeLines(lines, parse, fullText, delivered);
      DeliveriesStep(chunks, k, Emit(parse));
      k := k + 1;
    }
    assert chunks[..k] == chunks;
  }

  /** `streamComplete` */
  method StreamComplete(messages: seq<Message>, options: Options, apiKey: Option<string>, model: string,
                        reply: StreamReply, parse: string -> Option<Body>)
    returns (sent: Option<Exchange<Request>>, delivered: seq<string>, r: Result<Response, Thrown>)
    ensures StreamCall(sent, delivered, r) == StreamCallFor(messages, options, apiKey, model, reply, parse)
  {
    var check := ValidateMessages(messages);
    if check.Fail? {
      return None, [], Failure(check.error);
    }
    if !Truthy(apiKey) {
      return None, [], Failure(ErrorOf(KeyNotSet));
    }
    var body := CreateRequest(messages, options);
    sent := Some(Exchange(StreamApiEndpoint + "?alt=sse&key=" + apiKey.value, JsonHeaders, body));
    match reply {
      case StreamFailed(e) =>
        delivered, r := [], Success(CreateErrorResponse(e));
      case StreamNotOk(m) =>
        delivered, r := [], Success(CreateErrorResponse(ErrorOf(OrElse(m, "Failed to stream completion"))));
      case NoBody =>
        delivered, r := [], Success(CreateErrorResponse(ErrorOf("No response body received")));
      case Streamed(chunks, interruption) =>
        var fullText;
        fullText, delivered := DecodeStream(chunks, parse);
        match interruption {
          case Some(e) => r := Success(CreateErrorResponse(e));
          case None => r := Success(Response(fullText, None, Metadata(Some(model), None)));
        }
    }
  }

  // ---------------------------------------------------------------------------
  // Properties of the stream decoding

  /** `onData` is never called with the empty string. */
  lemma DeliveredTextsNonEmpty(chunks: seq<string>, parse: string -> Option<Body>)
    ensures "" !in Deliveries(chunks, Emit(parse))
  {
    DeliveriesAvoid(chunks, Emit(parse), "");
  }

  /**
   * A stream that ends normally yields exactly the in-order concatenation of
   * the texts handed to `onData`, with no error; one interrupted by a failing
   * read keeps its deliveries but yields an error result.
   */
  lemma StreamContentIsDeliveries(messages: seq<Message>, options: Options, apiKey: Option<string>, model: string,
                                  chunks: seq<string>, interruption: Option<Thrown>, parse: string -> Option<Body>)
    requires WellFormed(messages) && Truthy(apiKey)
    ensures var c := StreamCallFor(messages, options, apiKey, model, Streamed(chunks, interruption), parse);
      c.sent.Some? && c.result.Success? && c.delivered == Deliveries(chunks, Emit(parse)) &&
      (interruption.None? ==> c.result.value.content == Concat(c.delivered) && c.result.value.error.None?) &&
      (interruption.Some? ==> IsErrorResponse(c.result.value))
  {
  }

  /**
   * The streaming and the non-streaming paths read the same field: a single
   * frame carrying a body with a non-empty first-candidate text delivers
   * exactly the content `parseResponse` extracts from that body.
   */
  lemma StreamAgreesWithParse(payload: string, b: Body, model: string, parse: string -> Option<Body>)
    requires '\n' !in payload && parse(payload) == Some(b)
    requires Truthy(FirstText(b))
    ensures Deliveries([DataPrefix + payload], Emit(parse)) == [ParseResponse(Some(b), model).content]
  {
    var line := DataPrefix + payload;
    assert '\n' !in line by {
      assert forall i :: 0 <= i < |line| ==> line[i] == (if i < 6 then DataPrefix[i] else payload[i - 6]);
    }
    SplitPlain(line);
    assert StartsWith(line, DataPrefix) by { assert line[..6] == DataPrefix; }
    assert Payload(line) == payload;
    assert KeepData([line]) == [line] by { assert [line][1..] == []; }
    assert DataLines(line) == [line];
    FrameTextOfDataLine(line, parse);
    assert Emit(parse)(line) == FirstText(b);
    assert [line][..0] == [];
    assert Harvest([line], Emit(parse)) == [FirstText(b).value];
    assert Deliveries([line], Emit(parse)) == Deliveries([], Emit(parse)) + Harvest([line], Emit(parse));
  }
}
