/**
 * The client every provider shares: key and availability bookkeeping with
 * its status event, and dispatch of the probe, `complete` and
 * `streamComplete` to the vendor adapter the client was built for.
 */
module Clients {
  import opened Wrappers
  import opened Contract
  import opened Transport
  import GeminiClient
  import GroqClient

  datatype Vendor = Gemini | Groq

  /** The identifier a vendor goes by in configuration and storage keys. */
  function VendorId(v: Vendor): string {
    match v
    case Gemini => "gemini"
    case Groq => "groq"
  }

  /** The model a client of each vendor uses when none is configured. */
  function DefaultModel(v: Vendor): string {
    match v
    case Gemini => GeminiClient.DefaultModel
    case Groq => GroqClient.DefaultModel
  }

  /** `getModelName()` of each vendor's client. */
  function ModelNameOf(v: Vendor, model: string): string {
    match v
    case Gemini => GeminiClient.ModelName(model)
    case Groq => GroqClient.ModelName(model)
  }

  /** `getTokenLimit()` of each vendor's client. */
  function TokenLimitOf(v: Vendor): nat {
    match v
    case Gemini => GeminiClient.TokenLimit
    case Groq => GroqClient.TokenLimit
  }

  /** A request as it leaves a client of either vendor. */
  datatype Outgoing =
    | ToGemini(gemini: Exchange<GeminiClient.Request>)
    | ToGroq(groq: Exchange<GroqClient.Request>)

  function FromGemini(sent: Option<Exchange<GeminiClient.Request>>): Option<Outgoing> {
    match sent
    case None => None
    case Some(x) => Some(ToGemini(x))
  }

  function FromGroq(sent: Option<Exchange<GroqClient.Request>>): Option<Outgoing> {
    match sent
    case None => None
    case Some(x) => Some(ToGroq(x))
  }

  /** The probe request a client sends, if any: none without a key. */
  function ProbeFor(v: Vendor, apiKey: Option<string>, model: string): Option<Outgoing> {
    if !Truthy(apiKey) then None
    else match v
      case Gemini => Some(ToGemini(Exchange(GeminiClient.ApiEndpoint + "?key=" + apiKey.value, JsonHeaders, GeminiClient.ProbeRequest())))
      case Groq => Some(ToGroq(Exchange(GroqClient.ApiEndpoint, GroqClient.GetHeaders(apiKey), GroqClient.ProbeRequest(model))))
  }

  /** `complete` of a client of vendor `v`. */
  function CompleteCall(v: Vendor, messages: seq<Message>, options: Options, apiKey: Option<string>, model: string,
                        reply: Reply): Call<Outgoing>
  {
    match v
    case Gemini =>
      var c := GeminiClient.CompleteCall(messages, options, apiKey, model, reply);
      Call(FromGemini(c.sent), c.result)
    case Groq =>
      var c := GroqClient.CompleteCall(messages, options, apiKey, model, reply);
      Call(FromGroq(c.sent), c.result)
  }

  /** `streamComplete` of a client of vendor `v`. */
  function StreamCallFor(v: Vendor, messages: seq<Message>, options: Options, apiKey: Option<string>, model: string,
                         reply: StreamReply, parse: string -> Option<Body>): StreamCall<Outgoing>
  {
    match v
    case Gemini =>
      var c := GeminiClient.StreamCallFor(messages, options, apiKey, model, reply, parse);
      StreamCall(FromGemini(c.sent), c.delivered, c.result)
    case Groq =>
      var c := GroqClient.StreamCallFor(messages, options, apiKey, model, reply, parse);
      StreamCall(FromGroq(c.sent), c.delivered, c.result)
  }

  /** The error message a client of vendor `v` raises when its key is not set. */
  function KeyNotSet(v: Vendor): string {
    match v
    case Gemini => GeminiClient.KeyNotSet
    case Groq => GroqClient.KeyNotSet
  }

  /**
   * Both vendors check the conversation first and the key second, raise
   * before sending anything, and send exactly one request once both checks
   * pass; a conversation error is the same whichever vendor is asked.
   */
  lemma PreconditionsFirst(v: Vendor, messages: seq<Message>, options: Options, apiKey: Option<string>, model: string,
                           reply: Reply)
    ensures var c := CompleteCall(v, messages, options, apiKey, model, reply);
      (!WellFormed(messages) ==> c == Call(None, Failure(ValidationError(messages).value))) &&
      (WellFormed(messages) && !Truthy(apiKey) ==> c == Call(None, Failure(ErrorOf(KeyNotSet(v))))) &&
      (WellFormed(messages) && Truthy(apiKey) ==> c.sent.Some? && c.result.Success?)
  {
  }

  /** The same order of checks for streaming, which delivers nothing when a check fails. */
  lemma StreamPreconditionsFirst(v: Vendor, messages: seq<Message>, options: Options, apiKey: Option<string>, model: string,
                                 reply: StreamReply, parse: string -> Option<Body>)
    ensures var s := StreamCallFor(v, messages, options, apiKey, model, reply, parse);
      (!WellFormed(messages) ==> s == StreamCall(None, [], Failure(ValidationError(messages).value))) &&
      (WellFormed(messages) && !Truthy(apiKey) ==> s == StreamCall(None, [], Failure(ErrorOf(KeyNotSet(v))))) &&
      (WellFormed(messages) && Truthy(apiKey) ==> s.sent.Some? && s.result.Success?)
  {
  }

  /**
   * A client of one vendor: the key it holds, whether its last connection
   * test succeeded, and the `onDidChangeStatus` events fired so far (each
   * reports the new availability).
   */
  class AIClient {
    const vendor: Vendor
    const model: string
    var apiKey: Option<string>
    var available: bool
    ghost var statusEvents: seq<bool>

    /**
     * Status events report real changes only: they alternate, the first one
     * reports availability (a client starts unavailable), and the last one
     * is the current availability.
     */
    ghost predicate Valid()
      reads this
    {
      (statusEvents == [] ==> !available) &&
      (statusEvents != [] ==> statusEvents[0] && statusEvents[|statusEvents| - 1] == available) &&
      (forall i :: 0 < i < |statusEvents| ==> statusEvents[i] != statusEvents[i - 1])
    }

    /** A new client holds the key it was given when that key is non-empty, and starts unavailable. */
    constructor (vendor: Vendor, apiKey: Option<string>, model: string)
      ensures this.vendor == vendor && this.model == model
      ensures this.apiKey == (if Truthy(apiKey) then apiKey else None)
      ensures !available && statusEvents == []
      ensures Valid()
    {
      this.vendor := vendor;
      this.model := model;
      this.apiKey := if Truthy(apiKey) then apiKey else None;
      this.available := false;
      this.statusEvents := [];
    }

    /** `isAvailable()`: the last test succeeded and a non-empty key is held. */
    function IsAvailable(): bool
      reads this
    {
      available && Truthy(apiKey)
    }

    /** `getApiKey()` */
    function GetApiKey(): Option<string>
      reads this
    {
      apiKey
    }

    /** `getModelName()` */
    function ModelName(): string
      reads this
    {
      ModelNameOf(vendor, model)
    }

    /** `getTokenLimit()` */
    function TokenLimit(): nat
      reads this
    {
      TokenLimitOf(vendor)
    }

    /** `testConnection()`: the vendor's probe with the key the client holds. */
    method TestConnection(reply: ProbeReply) returns (sent: Option<Outgoing>, ok: bool)
      ensures sent == ProbeFor(vendor, apiKey, model)
      ensures ok <==> Truthy(apiKey) && reply == ProbeAnswered(true)
    {
      match vendor {
        case Gemini =>
          var g;
          g, ok := GeminiClient.TestConnection(apiKey, reply);
          sent := FromGemini(g);
        case Groq =>
          var q;
          q, ok := GroqClient.TestConnection(apiKey, model, reply);
          sent := FromGroq(q);
      }
    }

    /**
     * `setApiKey`: stores the key, then runs the connection test with it and
     * records the answer as the availability. A status event carrying the new
     * availability fires only when the availability changed. An empty key is
     * never sent and leaves the client unavailable.
     */
    method SetApiKey(key: string, reply: ProbeReply) returns (sent: Option<Outgoing>, ok: bool)
      requires Valid()
      modifies this
      ensures Valid()
      ensures apiKey == Some(key)
      ensures sent == ProbeFor(vendor, Some(key), model)
      ensures available == ok
      ensures ok <==> key != "" && reply == ProbeAnswered(true)
      ensures statusEvents == old(statusEvents) + (if available != old(available) then [available] else [])
      ensures IsAvailable() <==> ok
    {
      var previous := available;
      apiKey := Some(key);
      sent, ok := TestConnection(reply);
      available := ok;
      if available != previous {
        statusEvents := statusEvents + [available];
      }
    }

    /** `complete`: the vendor's completion with the key and model this client holds. */
    method Complete(messages: seq<Message>, options: Options, reply: Reply) returns (sent: Option<Outgoing>, r: Result<Response, Thrown>)
      ensures Call(sent, r) == CompleteCall(vendor, messages, options, apiKey, model, reply)
    {
      match vendor {
        case Gemini =>
          var g;
          g, r := GeminiClient.Complete(messages, options, apiKey, model, reply);
          sent := FromGemini(g);
        case Groq =>
          var q;
          q, r := GroqClient.Complete(messages, options, apiKey, model, reply);
          sent := FromGroq(q);
      }
    }

    /** `streamComplete`: the vendor's streaming completion with the key and model this client holds. */
    method StreamComplete(messages: seq<Message>, options: Options, reply: StreamReply, parse: string -> Option<Body>)
      returns (sent: Option<Outgoing>, delivered: seq<string>, r: Result<Response, Thrown>)
      ensures StreamCall(sent, delivered, r) == StreamCallFor(vendor, messages, options, apiKey, model, reply, parse)
    {
      match vendor {
        case Gemini =>
          var g;
          g, delivered, r := GeminiClient.StreamComplete(messages, options, apiKey, model, reply, parse);
          sent := FromGemini(g);
        case Groq =>
          var q;
          q, delivered, r := GroqClient.StreamComplete(messages, options, apiKey, model, reply, parse);
          sent := FromGroq(q);
      }
    }
  }
}
