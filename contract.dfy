/**
 * The shared client contract of the completion layer: conversation turns,
 * completion options, completion results, the conversation check every
 * adapter runs before it talks to its vendor, and the normalisation of a
 * caught failure into an error result.
 */
module Contract {
  import opened Wrappers

  datatype Role = User | Assistant | System

  /** The role's wire spelling. */
  function RoleName(role: Role): string {
    match role
    case User => "user"
    case Assistant => "assistant"
    case System => "system"
  }

  /** One turn of a conversation. */
  datatype Message = Message(role: Role, content: string)

  /** Completion tuning knobs; an absent field lets the vendor default apply. */
  datatype Options = Options(
    temperature: Option<real>,
    maxTokens: Option<int>,
    topP: Option<real>,
    stopSequences: Option<seq<string>>)

  /** The empty options object `{}`. */
  const NoOptions := Options(None, None, None, None)

  /** Vendor-reported token counts; each count may be missing. */
  datatype Usage = Usage(promptTokens: Option<int>, completionTokens: Option<int>, totalTokens: Option<int>)

  /** What a result reports besides its text (the timestamp is not modelled). */
  datatype Metadata = Metadata(model: Option<string>, usage: Option<Usage>)

  datatype ErrorInfo = ErrorInfo(code: string, message: string)

  /** A completion result: content, an optional error and metadata. */
  datatype Response = Response(content: string, error: Option<ErrorInfo>, metadata: Metadata)

  /** A raised or caught error value: its `code` and `message` properties, either of which may be missing. */
  datatype Thrown = Thrown(code: Option<string>, message: Option<string>)

  /** `new Error(message)`: an Error object carries a message and no code. */
  function ErrorOf(message: string): Thrown {
    Thrown(None, Some(message))
  }

  /** JavaScript truthiness of an optional string: present and non-empty. */
  predicate Truthy(s: Option<string>) {
    s.Some? && s.value != ""
  }

  /** `s || fallback` on an optional string. */
  function OrElse(s: Option<string>, fallback: string): (r: string)
    ensures Truthy(s) ==> r == s.value
    ensures !Truthy(s) ==> r == fallback
  {
    if Truthy(s) then s.value else fallback
  }

  // ---------------------------------------------------------------------------
  // Conversation check

  const EmptyConversation := "At least one message is required"

  function SameRoleMessage(role: Role): string {
    "Consecutive messages from the same role (" + RoleName(role) + ") are not allowed"
  }

  /** No two adjacent turns share a role; `system` counts like any other role. */
  ghost predicate Alternates(messages: seq<Message>) {
    forall i :: 0 < i < |messages| ==> messages[i].role != messages[i - 1].role
  }

  /** What the adapters accept: a non-empty, alternating conversation. */
  ghost predicate WellFormed(messages: seq<Message>) {
    |messages| > 0 && Alternates(messages)
  }

  /** The first index at or after `from` whose turn repeats the previous turn's role. */
  function FirstRepeat(messages: seq<Message>, from: nat): (r: Option<nat>)
    requires 1 <= from
    ensures r.Some? ==> from <= r.value < |messages| && messages[r.value].role == messages[r.value - 1].role
    ensures r.Some? ==> forall j :: from <= j < r.value ==> messages[j].role != messages[j - 1].role
    ensures r.None? <==> forall j :: from <= j < |messages| ==> messages[j].role != messages[j - 1].role
    decreases |messages| - from
  {
    if from >= |messages| then None
    else if messages[from].role == messages[from - 1].role then Some(from)
    else FirstRepeat(messages, from + 1)
  }

  /**
   * The error the conversation check raises, if any: the empty conversation
   * first, otherwise the first repeated role.
   */
  function ValidationError(messages: seq<Message>): (r: Option<Thrown>)
    ensures r.None? <==> WellFormed(messages)
    ensures |messages| == 0 ==> r == Some(ErrorOf(EmptyConversation))
  {
    if |messages| == 0 then Some(ErrorOf(EmptyConversation))
    else match FirstRepeat(messages, 1)
      case Some(i) => Some(ErrorOf(SameRoleMessage(messages[i].role)))
      case None => None
  }

  /**
   * `validateMessages`: passes exactly the well-formed conversations; otherwise
   * fails with the error for the empty conversation or for the first pair of
   * adjacent turns with the same role.
   */
  method ValidateMessages(messages: seq<Message>) returns (r: Outcome<Thrown>)
    ensures r.Pass? <==> WellFormed(messages)
    ensures r == (match ValidationError(messages) case Some(e) => Fail(e) case None => Pass)
  {
    if |messages| == 0 {
      return Fail(ErrorOf(EmptyConversation));
    }
    var i := 0;
    while i < |messages|
      invariant 0 <= i <= |messages|
      invariant forall j :: 1 <= j < i ==> messages[j].role != messages[j - 1].role
    {
      if i > 0 && messages[i].role == messages[i - 1].role {
        return Fail(ErrorOf(SameRoleMessage(messages[i].role)));
      }
      i := i + 1;
    }
    return Pass;
  }

  /**
   * The checks `complete` and `streamComplete` make before any request, in
   * their order: the conversation check first, then a missing or empty
   * credential, reported with the adapter's own `keyMissing` message.
   */
  function Preconditions(messages: seq<Message>, apiKey: Option<string>, keyMissing: string): (r: Option<Thrown>)
    ensures r.None? <==> WellFormed(messages) && Truthy(apiKey)
    ensures !WellFormed(messages) ==> r == ValidationError(messages)
    ensures WellFormed(messages) && !Truthy(apiKey) ==> r == Some(ErrorOf(keyMissing))
  {
    match ValidationError(messages)
    case Some(e) => Some(e)
    case None => if Truthy(apiKey) then None else Some(ErrorOf(keyMissing))
  }

  // ---------------------------------------------------------------------------
  // Error results

  const UnknownErrorCode := "unknown_error"
  const UnknownErrorMessage := "An unknown error occurred"

  /** Recognises an error result: empty content, error present. */
  predicate IsErrorResponse(r: Response) {
    r.content == "" && r.error.Some?
  }

  /**
   * `createErrorResponse`: an error result with empty content whose code and
   * message are the caught value's when present and non-empty, and fixed
   * non-empty fallbacks otherwise.
   */
  function CreateErrorResponse(e: Thrown): (r: Response)
    ensures IsErrorResponse(r)
    ensures r.error.value.code != "" && r.error.value.message != ""
    ensures Truthy(e.code) ==> r.error.value.code == e.code.value
    ensures !Truthy(e.code) ==> r.error.value.code == UnknownErrorCode
    ensures Truthy(e.message) ==> r.error.value.message == e.message.value
    ensures !Truthy(e.message) ==> r.error.value.message == UnknownErrorMessage
    ensures r.metadata == Metadata(None, None)
  {
    Response("", Some(ErrorInfo(OrElse(e.code, UnknownErrorCode), OrElse(e.message, UnknownErrorMessage))),
             Metadata(None, None))
  }

  /** An error raised with `new Error(m)` always normalises to the unknown code and its own message. */
  lemma ErrorObjectNormalisation(m: string)
    requires m != ""
    ensures CreateErrorResponse(ErrorOf(m)).error == Some(ErrorInfo(UnknownErrorCode, m))
  {
  }
}
