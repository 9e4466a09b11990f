/**
 * The Groq adapter: an OpenAI-style chat payload that keeps every turn as it
 * is, bearer-token headers, extraction of the first choice's message, the
 * connectivity probe, and decoding of the `data: ` framed stream with its
 * `data: [DONE]` sentinel.
 */
module GroqClient {
  import opened Wrappers
  import opened Text
  import opened Contract
  import opened Transport

  const ApiEndpoint := "https://api.groq.com/openai/v1/chat/completions"
  const DefaultModel := "mixtral-8x7b-32768"
  const DefaultMaxTokens := 32768
  const KeyNotSet := "Groq API key is not set"

  /** `getTokenLimit()`: the 32K default for every model. */
  const TokenLimit := DefaultMaxTokens

  /** `getModelName()` */
  function ModelName(model: string): string {
    "Groq " + model
  }

  // ---------------------------------------------------------------------------
  // Request

  /** A chat turn on the wire: Groq keeps all three roles. */
  datatype ChatTurn = ChatTurn(role: Role, content: string)

  /** The request body, with the vendor's field names. */
  datatype Request = Request(
    messages: seq<ChatTurn>,
    model: string,
    temperature: Option<real>,
    max_tokens: Option<int>,
    top_p: Option<real>,
    stop: Option<seq<string>>,
    stream: Option<bool>)

  /** `createRequest`: turns mapped one to one, option fields renamed without defaults, the client's model. */
  function RequestFor(messages: seq<Message>, options: Options, stream: Option<bool>, model: string): Request {
    Request(
      seq(|messages|, i requires 0 <= i < |messages| => ChatTurn(messages[i].role, messages[i].content)),
      model, options.temperature, options.maxTokens, options.topP, options.stopSequences, stream)
  }

  /** Reads the conversation back out of a request. */
  function Turns(req: Request): seq<Message> {
    seq(|req.messages|, i requires 0 <= i < |req.messages| => Message(req.messages[i].role, req.messages[i].content))
  }

  /** Reads the completion options back out of a request, undoing the renaming. */
  function OptionsOf(req: Request): Options {
    Options(req.temperature, req.max_tokens, req.top_p, req.stop)
  }

  /**
   * Nothing is lost or invented in translation: the turns (order, role and
   * text) and the options come back unchanged, the model is the client's and
   * the stream flag is the one the caller of `createRequest` chose.
   */
  lemma RequestRoundTrip(messages: seq<Message>, options: Options, stream: Option<bool>, model: string)
    ensures Turns(RequestFor(messages, options, stream, model)) == messages
    ensures OptionsOf(RequestFor(messages, options, stream, model)) == options
    ensures RequestFor(messages, options, stream, model).model == model
    ensures RequestFor(messages, options, stream, model).stream == stream
  {
    var t := Turns(RequestFor(messages, options, stream, model));
    assert |t| == |messages|;
    forall i | 0 <= i < |messages| ensures t[i] == messages[i] {
      assert messages[i] == Message(messages[i].role, messages[i].content);
    }
  }

  /** `Bearer ${this._apiKey}`: a template literal spells an unset key as `undefined`. */
  function Bearer(apiKey: Option<string>): string {
    "Bearer " + (match apiKey case Some(k) => k case None => "undefined")
  }

  /** `getHeaders`: exactly the JSON content type and the bearer authorization. */
  function GetHeaders(apiKey: Option<string>): (h: map<string, string>)
    ensures h.Keys == {"Content-Type", "Authorization"}
    ensures h["Content-Type"] == "application/json"
    ensures h["Authorization"] == Bearer(apiKey)
  {
    map["Content-Type" := "application/json", "Authorization" := Bearer(apiKey)]
  }

  /** The key can be read back from the authorization header: it follows the seven characters of `Bearer `. */
  lemma BearerCarriesKey(key: string)
    ensures StartsWith(GetHeaders(Some(key))["Authorization"], "Bearer ")
    ensures GetHeaders(Some(key))["Authorization"][7..] == key
  {
    var a := GetHeaders(Some(key))["Authorization"];
    assert a == "Bearer " + key;
    assert a[..7] == "Bearer ";
  }

  // ---------------------------------------------------------------------------
  // Response

  /** `choices?.[0]?.message` */
  function FirstMessage(b: Body): Option<ChoiceMessage> {
    match b.choices
    case None => None
    case Some(cs) => if |cs| == 0 then None else cs[0].message
  }

  /** `choices?.[0]?.delta?.content` */
  function DeltaContent(b: Body): Option<string> {
    match b.choices
    case None => None
    case Some(cs) =>
      if |cs| == 0 then None
      else match cs[0].delta
        case None => None
        case Some(d) => d.content
  }

  const ParseFailure := Thrown(Some("invalid_response"), Some("Failed to parse Groq API response"))

  /**
   * `parseResponse`: the first choice's message text, or an
   * `invalid_response` error result when the message or its text is missing
   * or empty (or the body is `null`).
   */
  function ParseResponse(json: Option<Body>, model: string): (r: Response)
    ensures r.error.None? <==> json.Some? && FirstMessage(json.value).Some? && Truthy(FirstMessage(json.value).value.content)
    ensures r.error.None? ==> r.content == FirstMessage(json.value).value.content.value && r.content != ""
    ensures r.error.None? ==> r.metadata == Metadata(Some(model), json.value.usage)
    ensures r.error.Some? ==> r == CreateErrorResponse(ParseFailure)
  {
    match json
    case None => CreateErrorResponse(ParseFailure)
    case Some(b) =>
      match FirstMessage(b)
      case Some(m) =>
        if Truthy(m.content) then Response(m.content.value, None, Metadata(Some(model), b.usage))
        else CreateErrorResponse(ParseFailure)
      case None => CreateErrorResponse(ParseFailure)
  }

  /** Every `invalid_response` result is an error result carrying that code and no content. */
  lemma InvalidResponseShape(json: Option<Body>, model: string)
    requires ParseResponse(json, model).error.Some?
    ensures ParseResponse(json, model).content == ""
    ensures ParseResponse(json, model).error.value.code == "invalid_response"
  {
  }

  /** The result a completed request yields, given how the server answered. */
  function ReplyResponse(reply: Reply, model: string, fallback: string): Response {
    match reply
    case Failed(e) => CreateErrorResponse(e)
    case NotOk(m) => CreateErrorResponse(ErrorOf(OrElse(m, fallback)))
    case Delivered(json) => ParseResponse(json, model)
  }

  // ---------------------------------------------------------------------------
  // Connectivity probe

  /** The cheapest real request: one user turn `Hello`, an output budget of 5 tokens, no stream flag. */
  function ProbeRequest(model: string): Request {
    Request([ChatTurn(User, "Hello")], model, None, Some(5), None, None, None)
  }

  /**
   * `testConnection`: false without a request when no key is set; otherwise
   * one probe request with the bearer headers, and true exactly when the
   * server answers with an ok status. It never raises.
   */
  method TestConnection(apiKey: Option<string>, model: string, reply: ProbeReply)
    returns (sent: Option<Exchange<Request>>, ok: bool)
    ensures sent.None? <==> !Truthy(apiKey)
    ensures sent.Some? ==> sent.value == Exchange(ApiEndpoint, GetHeaders(apiKey), ProbeRequest(model))
    ensures ok <==> Truthy(apiKey) && reply == ProbeAnswered(true)
  {
    if !Truthy(apiKey) {
      return None, false;
    }
    sent := Some(Exchange(ApiEndpoint, GetHeaders(apiKey), ProbeRequest(model)));
    match reply
    case ProbeFailed(_) => ok := false;
    case ProbeAnswered(status) => ok := status;
  }

  // ---------------------------------------------------------------------------
  // Completion

  /** What `complete` does: the preconditions, then one request with `stream: false`. */
  function CompleteCall(messages: seq<Message>, options: Options, apiKey: Option<string>, model: string, reply: Reply)
    : Call<Exchange<Request>>
  {
    match Preconditions(messages, apiKey, KeyNotSet)
    case Some(e) => Call(None, Failure(e))
    case None =>
      Call(Some(Exchange(ApiEndpoint, GetHeaders(apiKey), RequestFor(messages, options, Some(false), model))),
           Success(ReplyResponse(reply, model, "Failed to generate completion")))
  }

  /** `complete` */
  method Complete(messages: seq<Message>, options: Options, apiKey: Option<string>, model: string, reply: Reply)
    returns (sent: Option<Exchange<Request>>, r: Result<Response, Thrown>)
    ensures Call(sent, r) == CompleteCall(messages, options, apiKey, model, reply)
  {
    var check := ValidateMessages(messages);
    if check.Fail? {
      return None, Failure(check.error);
    }
    if !Truthy(apiKey) {
      return None, Failure(ErrorOf(KeyNotSet));
    }
    sent := Some(Exchange(ApiEndpoint, GetHeaders(apiKey), RequestFor(messages, options, Some(false), model)));
    r := Success(ReplyResponse(reply, model, "Failed to generate completion"));
  }

  // ---------------------------------------------------------------------------
  // Streaming

  const DoneLine := "data: [DONE]"

  /**
   * The text one data line hands to `onData`: the `data: [DONE]` sentinel
   * (after trimming) is skipped without decoding; any other payload is
   * decoded by `parse` (`None` when `JSON.parse` raises or yields `null`: the
   * frame is skipped), and only a non-empty delta text is delivered.
   */
  function FrameText(line: string, parse: string -> Option<Body>): Option<string> {
    if !StartsWith(line, DataPrefix) || Trim(line) == DoneLine then None
    else match parse(Payload(line))
      case None => None
      case Some(data) => if Truthy(DeltaContent(data)) then DeltaContent(data) else None
  }

  function Emit(parse: string -> Option<Body>): string -> Option<string> {
    line => FrameText(line, parse)
  }

  /** What a streaming request yields once the preconditions hold: the delivered texts and the result. */
  function StreamOutcome(reply: StreamReply, model: string, parse: string -> Option<Body>): (seq<string>, Response) {
    match reply
    case StreamFailed(e) => ([], CreateErrorResponse(e))
    case StreamNotOk(m) => ([], CreateErrorResponse(ErrorOf(OrElse(m, "Failed to stream completion"))))
    case NoBody => ([], CreateErrorResponse(ErrorOf("No response body received")))
    case Streamed(chunks, interruption) =>
      var delivered := Deliveries(chunks, Emit(parse));
      (delivered,
       match interruption
       case Some(e) => CreateErrorResponse(e)
       case None => Response(Concat(delivered), None, Metadata(Some(model), None)))
  }

  /** What `streamComplete` does: the preconditions, then one request with `stream: true`. */
  function StreamCallFor(messages: seq<Message>, options: Options, apiKey: Option<string>, model: string,
                         reply: StreamReply, parse: string -> Option<Body>): StreamCall<Exchange<Request>>
  {
    match Preconditions(messages, apiKey, KeyNotSet)
    case Some(e) => StreamCall(None, [], Failure(e))
    case None =>
      var (delivered, response) := StreamOutcome(reply, model, parse);
      StreamCall(Some(Exchange(ApiEndpoint, GetHeaders(apiKey), RequestFor(messages, options, Some(true), model))),
                 delivered, Success(response))
  }

  /** The frame rule spelled out for one data line. */
  lemma FrameTextOfDataLine(line: string, parse: string -> Option<Body>)
    requires StartsWith(line, DataPrefix)
    ensures Emit(parse)(line) ==
      (if Trim(line) == DoneLine then None
       else var data := parse(Payload(line)); if data.Some? && Truthy(DeltaContent(data.value)) then DeltaContent(data.value) else None)
  {
  }

  /**
   * One data line of the inner loop: the sentinel is skipped (`continue`);
   * any other line is decoded, and a non-empty delta is the text to hand on.
   */
  method DecodeFrame(line: string, parse: string -> Option<Body>) returns (content: Option<string>)
    requires StartsWith(line, DataPrefix)
    ensures content == Emit(parse)(line)
  {
    FrameTextOfDataLine(line, parse);
    if Trim(line) == DoneLine {
      return None;
    }
    var data := parse(Payload(line));
    if data.Some? && Truthy(DeltaContent(data.value)) {
      return DeltaContent(data.value);
    }
    return None;
  }

  /**
   * The loop over the data lines of one chunk: each text a line yields is
   * appended to the accumulated text and handed to `onData`.
   */
  method DecodeLines(lines: seq<string>, parse: string -> Option<Body>, fullText0: string, delivered0: seq<string>)
    returns (fullText: string, delivered: seq<string>)
    requires forall i :: 0 <= i < |lines| ==> StartsWith(lines[i], DataPrefix)
    requires fullText0 == Concat(delivered0)
    ensures delivered == delivered0 + Harvest(lines, Emit(parse))
    ensures fullText == Concat(delivered)
  {
    fullText, delivered := fullText0, delivered0;
    var j := 0;
    while j < |lines|
      invariant 0 <= j <= |lines|
      invariant delivered == delivered0 + Harvest(lines[..j], Emit(parse))
      invariant fullText == Concat(delivered)
    {
      var content := DecodeFrame(lines[j], parse);
      HarvestExtend(lines, j, Emit(parse), delivered0, delivered);
      if content.Some? {
        AppendText(delivered, content.value);
        fullText := fullText + content.value;
        delivered := delivered + [content.value];
      }
      j := j + 1;
    }
    assert lines[..j] == lines;
  }

  /** The read loop of `streamComplete`: chunks are split into lines on their own and decoded in order. */
  method DecodeStream(chunks: seq<string>, parse: string -> Option<Body>) returns (fullText: string, delivered: seq<string>)
    ensures delivered == Deliveries(chunks, Emit(parse))
    ensures fullText == Concat(delivered)
  {
    fullText, delivered := "", [];
    var k := 0;
    while k < |chunks|
      invariant 0 <= k <= |chunks|
      invariant delivered == Deliveries(chunks[..k], Emit(parse))
      invariant fullText == Concat(delivered)
    {
      var lines := DataLines(chunks[k]);
      fullText, delivered := DecodeLines(lines, parse, fullText, delivered);
      DeliveriesStep(chunks, k, Emit(parse));
      k := k + 1;
    }
    assert chunks[..k] == chunks;
  }

  /** `streamComplete` */
  method StreamComplete(messages: seq<Message>, options: Options, apiKey: Option<string>, model: string,
                        reply: StreamReply, parse: string -> Option<Body>)
    returns (sent: Option<Exchange<Request>>, delivered: seq<string>, r: Result<Response, Thrown>)
    ensures StreamCall(sent, delivered, r) == StreamCallFor(messages, options, apiKey, model, reply, parse)
  {
    var check := ValidateMessages(messages);
    if check.Fail? {
      return None, [], Failure(check.error);
    }
    if !Truthy(apiKey) {
      return None, [], Failure(ErrorOf(KeyNotSet));
    }
    sent := Some(Exchange(ApiEndpoint, GetHeaders(apiKey), RequestFor(messages, options, Some(true), model)));
    match reply {
      case StreamFailed(e) =>
        delivered, r := [], Success(CreateErrorResponse(e));
      case StreamNotOk(m) =>
        delivered, r := [], Success(CreateErrorResponse(ErrorOf(OrElse(m, "Failed to stream completion"))));
      case NoBody =>
        delivered, r := [], Success(CreateErrorResponse(ErrorOf("No response body received")));
      case Streamed(chunks, interruption) =>
        var fullText;
        fullText, delivered := DecodeStream(chunks, parse);
        match interruption {
          case Some(e) => r := Success(CreateErrorResponse(e));
          case None => r := Success(Response(fullText, None, Metadata(Some(model), None)));
        }
    }
  }

  // ---------------------------------------------------------------------------
  // Properties

  /**
   * `complete` always asks for a whole answer and `streamComplete` always for
   * a stream, whatever options the caller passed, and both authenticate with
   * the bearer header rather than the URL.
   */
  lemma StreamFlags(messages: seq<Message>, options: Options, apiKey: Option<string>, model: string,
                    reply: Reply, streamReply: StreamReply, parse: string -> Option<Body>)
    requires WellFormed(messages) && Truthy(apiKey)
    ensures var c := CompleteCall(messages, options, apiKey, model, reply);
      c.sent.Some? && c.sent.value.body.stream == Some(false) && c.sent.value.url == ApiEndpoint &&
      c.sent.value.headers["Authorization"] == "Bearer " + apiKey.value
    ensures var s := StreamCallFor(messages, options, apiKey, model, streamReply, parse);
      s.sent.Some? && s.sent.value.body.stream == Some(true) && s.sent.value.url == ApiEndpoint &&
      s.sent.value.headers["Authorization"] == "Bearer " + apiKey.value
  {
  }

  /** Any line that trims to the sentinel is skipped, whatever `parse` would make of it. */
  lemma SentinelSkipped(line: string, parse: string -> Option<Body>)
    requires Trim(line) == DoneLine
    ensures Emit(parse)(line) == None
  {
  }

  /** The sentinel is skipped as sent, and with the carriage return of a CRLF line ending. */
  lemma DoneIsSkipped(parse: string -> Option<Body>)
    ensures Emit(parse)(DoneLine) == None
    ensures Emit(parse)(DoneLine + "\r") == None
  {
    TrimPlain(DoneLine);
    SentinelSkipped(DoneLine, parse);
    TrimDropsTrailing(DoneLine, '\r');
    assert DoneLine + "\r" == DoneLine + ['\r'];
    SentinelSkipped(DoneLine + "\r", parse);
  }

  /** `onData` is never called with the empty string. */
  lemma DeliveredTextsNonEmpty(chunks: seq<string>, parse: string -> Option<Body>)
    ensures "" !in Deliveries(chunks, Emit(parse))
  {
    DeliveriesAvoid(chunks, Emit(parse), "");
  }

  /**
   * A stream that ends normally yields exactly the in-order concatenation of
   * the texts handed to `onData`; one interrupted by a failing read keeps its
   * deliveries but yields an error result.
   */
  lemma StreamContentIsDeliveries(messages: seq<Message>, options: Options, apiKey: Option<string>, model: string,
                                  chunks: seq<string>, interruption: Option<Thrown>, parse: string -> Option<Body>)
    requires WellFormed(messages) && Truthy(apiKey)
    ensures var c := StreamCallFor(messages, options, apiKey, model, Streamed(chunks, interruption), parse);
      c.sent.Some? && c.result.Success? && c.delivered == Deliveries(chunks, Emit(parse)) &&
      (interruption.None? ==> c.result.value.content == Concat(c.delivered) && c.result.value.error.None?) &&
      (interruption.Some? ==> IsErrorResponse(c.result.value))
  {
  }

  /** A body whose first choice carries the delta text `t`. */
  function DeltaBody(t: string): Body {
    Body(None, None, Some([Choice(None, Some(ChoiceMessage(Some(t))))]), None)
  }

  /** A data line that neither ends in white space nor is the sentinel is decoded. */
  lemma DecodedFrame(line: string, parse: string -> Option<Body>)
    requires StartsWith(line, DataPrefix) && !IsWhiteSpace(line[|line| - 1]) && line != DoneLine
    ensures Emit(parse)(line) ==
      (var data := parse(Payload(line)); if data.Some? && Truthy(DeltaContent(data.value)) then DeltaContent(data.value) else None)
  {
    TrimPlain(line);
  }

  /** A frame `data: 12` whose payload decodes to the delta `Hi` hands on `Hi`. */
  lemma HiFrame(parse: string -> Option<Body>)
    requires parse("12") == Some(DeltaBody("Hi"))
    ensures Emit(parse)("data: 12") == Some("Hi")
  {
    DecodedFrame("data: 12", parse);
    assert Payload("data: 12") == "12";
  }

  /** Its first half `data: 1`, whose payload does not decode, hands on nothing. */
  lemma HalfFrame(parse: string -> Option<Body>)
    requires parse("1") == None
    ensures Emit(parse)("data: 1") == None
  {
    DecodedFrame("data: 1", parse);
    assert Payload("data: 1") == "1";
  }

  /** That frame, carried whole by one read, delivers its text. */
  lemma WholeFrameDelivered(parse: string -> Option<Body>)
    requires parse("12") == Some(DeltaBody("Hi"))
    ensures Deliveries(["data: 12"], Emit(parse)) == ["Hi"]
  {
    HiFrame(parse);
    OneLineChunk("data: 12", Emit(parse));
    SingleRead("data: 12", Emit(parse));
  }

  /**
   * The frame `data: 12` is delivered when one read carries it whole, and
   * lost when two reads split it after `data: 1`: lines are not reassembled
   * across reads, so the first half is parsed on its own and the second
   * half is not a data line.
   */
  lemma SplitFrameLost(parse: string -> Option<Body>)
    requires parse("12") == Some(DeltaBody("Hi")) && parse("1") == None
    ensures Deliveries(["data: 12"], Emit(parse)) == ["Hi"]
    ensures Deliveries(["data: 1", "2"], Emit(parse)) == []
  {
    WholeFrameDelivered(parse);
    HalfFrame(parse);
    OneLineChunk("data: 1", Emit(parse));
    NoDataLine("2", Emit(parse));
    TwoReads("data: 1", "2", Emit(parse));
  }
}
