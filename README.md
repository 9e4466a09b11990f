# AI completion layer — a Dafny model

This project models the AI completion layer of the editor (`src/vs/platform/ai/`):

- **The shared client.** The base client (`aiClient.ts`) keeps an API key and an availability flag that the last connection test decides. It fires a status event when that flag changes. Before any request it checks that the conversation is non-empty and alternates roles. It turns any caught failure into an error result.
- **The Gemini adapter** (`geminiClient.ts`) folds the three roles into Gemini's two. It sends the key in the URL. It reads the first candidate's text, and decodes `data: ` framed streams.
- **The Groq adapter** (`groqClient.ts`) keeps all three roles and authenticates with a bearer header. It reads the first choice's message. Its stream decoder skips the `data: [DONE]` sentinel.
- **The provider service** (`common/aiProviderService.ts`):
  - It caches one client per vendor.
  - It keeps an active client in step with the `ascode.ai.activeModel` setting.
  - It forwards completions to that client, filling in the configured temperature and token limit.
  - It keeps API keys in application storage.
- **The model service** (`aiService.ts`):
  - It lists the selectable models and tracks the active model.
  - It checks an API key's format.
  - It saves or deletes the key in an external key store.

The outside world enters as inputs:

- how an HTTP request ends (`Reply`, `StreamReply`, `ProbeReply`);
- the decoded text chunks of a stream, and the read failure that may cut it short;
- the JSON decoder of one stream frame (`parse`);
- how a key-store call or a configuration write ended.

Requests are recorded as values (`Exchange`: URL, headers, body). The arguments passed to `onData` are recorded in order. Events are ghost fields: the status events carry their availability, and the void events are counters.

The vendor adapters extend one abstract base class. Here that is one class, `Clients.AIClient`, whose `vendor` field selects the vendor's functions. Each vendor module states its behaviour as functions (`CompleteCall`, `StreamCallFor`). Its methods (`Complete`, `StreamComplete`, `DecodeLines`, `DecodeStream`) carry the source's loops and are proved equal to those functions.

The stream decoding both adapters share is specified once, in `Transport.Deliveries`. Each chunk is split on its own, its `data: ` lines are kept, and each line hands on at most one text. Lines are not reassembled across reads, so a frame that two reads split between them is lost. `GroqClient.SplitFrameLost` shows this, and the model keeps that behaviour.

A configuration section (`ascode.ai.gemini`, `ascode.ai.groq`) is modelled as possibly absent. The workbench registers both sections as objects with the default `{}` (`ai.contribution.ts`, `aiSettings.ts`), so with that registration loaded `getValue` yields at least an empty object; a section is absent only when the registration is not loaded. The optional section over-approximates this. Reading `.apiKey` or `.temperature` from an absent section raises a `TypeError`. The model carries that error (`SectionMissing`): `getGeminiClient` raises it, and `initializeActiveClient` catches it and leaves no active client.

Where the prose description of the system and the code disagree, the model follows the code:

- `setActiveModel` of the provider service fires the active-client event only when the client instance changes, not unconditionally.
- `getActiveModel` replaces only an unset or empty setting with `gemini`. Any other unknown value passes through and resolves to no active client.
- A cached client is never dropped, not even when a key changes.

## Model

| member | source | states |
|---|---|---|
| Contract.ValidationError | src/vs/platform/ai/common/aiClient.ts:128-143 | no error exactly for a non-empty conversation in which no two adjacent turns share a role; the empty conversation yields "At least one message is required" |
| Contract.ValidateMessages | src/vs/platform/ai/common/aiClient.ts:128-143 | the loop passes exactly the well-formed conversations and otherwise raises the error for the empty conversation or for the first repeated role |
| Contract.FirstRepeat | src/vs/platform/ai/common/aiClient.ts:134-141 | the index found is the first at or after the start whose role repeats the previous turn's; none is found only when no such index exists |
| Contract.Preconditions | src/vs/platform/ai/common/geminiClient.ts:77-81 | a call proceeds exactly when the conversation is well formed and the key is non-empty; the conversation error takes precedence over the missing-key error |
| Contract.CreateErrorResponse | src/vs/platform/ai/common/aiClient.ts:145-156 | an error result with empty content and a non-empty code and message: the caught value's when present and non-empty, `unknown_error` / "An unknown error occurred" otherwise |
| Contract.ErrorObjectNormalisation | src/vs/platform/ai/common/aiClient.ts:149-150 | an error raised as `new Error(m)` always yields the code `unknown_error` with its own message |
| Contract.OrElse | src/vs/platform/ai/common/aiClient.ts:149 | `s \|\| fallback`: the string when present and non-empty, the fallback otherwise |
| Text.SplitLines | src/vs/platform/ai/common/geminiClient.ts:143 | a split yields at least one piece and no piece contains a newline |
| Text.JoinSplitLines | src/vs/platform/ai/common/geminiClient.ts:143 | joining the pieces of `split('\n')` with newlines gives back the chunk: splitting loses nothing |
| Text.SplitJoinLines | src/vs/platform/ai/common/geminiClient.ts:143 | splitting a join of newline-free pieces gives back the pieces |
| Text.SplitPlain | src/vs/platform/ai/common/geminiClient.ts:143 | a chunk without a newline is a single line |
| Text.TrimCharacterised | src/vs/platform/ai/common/groqClient.ts:133 | `trim()` yields the part of the line between leading and trailing white space, and that part neither starts nor ends with white space |
| Text.TrimStartCharacterised | src/vs/platform/ai/common/groqClient.ts:133 | trimming the start removes only leading white space and leaves a suffix that does not start with white space |
| Text.TrimEndCharacterised | src/vs/platform/ai/common/groqClient.ts:133 | trimming the end removes only trailing white space and leaves a prefix that does not end with white space |
| Text.TrimPlain | src/vs/platform/ai/common/groqClient.ts:133 | a line that neither starts nor ends with white space is unchanged by trimming |
| Text.TrimDropsTrailing | src/vs/platform/ai/common/groqClient.ts:133 | a trailing white-space character (such as the `\r` of a CRLF ending) does not affect the trimmed line |
| Text.ConcatAppend | src/vs/platform/ai/common/geminiClient.ts:150 | accumulating two runs of texts with `+=` gives the concatenation of the two accumulations |
| Text.AppendText | src/vs/platform/ai/common/geminiClient.ts:150 | one `fullText += text` step appends exactly that text |
| Transport.KeepData | src/vs/platform/ai/common/geminiClient.ts:143 | the filter keeps no more lines than it is given, and every line it keeps starts with `data: ` |
| Transport.KeepDataExactly | src/vs/platform/ai/common/geminiClient.ts:143 | a line survives the filter exactly when it is one of the chunk's lines and starts with `data: ` |
| Transport.DataLines | src/vs/platform/ai/common/groqClient.ts:130 | every line the stream decoder considers starts with `data: ` |
| Transport.HarvestStep | src/vs/platform/ai/common/geminiClient.ts:145-156 | one more line extends what a chunk hands on by that line's text, if any |
| Transport.DeliveriesStep | src/vs/platform/ai/common/geminiClient.ts:138-157 | one more read extends what the stream hands on by what that chunk's lines hand on |
| Transport.HarvestExtend | src/vs/platform/ai/common/geminiClient.ts:145-156 | what is handed on after `j` lines, plus line `j`'s text, is what is handed on after `j + 1` lines |
| Transport.NoDataLine | src/vs/platform/ai/common/groqClient.ts:130 | a read without a line break that does not start with `data: ` hands on nothing |
| Transport.SingleRead | src/vs/platform/ai/common/groqClient.ts:125-148 | a stream of one read hands on what that read's data lines yield |
| Transport.TwoReads | src/vs/platform/ai/common/groqClient.ts:125-148 | a stream of two reads hands on the first read's texts, then the second's |
| Transport.OneLineChunk | src/vs/platform/ai/common/groqClient.ts:129-130 | a read carrying one data line with no line break hands on that line's text, if any |
| Transport.OneLineReads | src/vs/platform/ai/common/groqClient.ts:125-148 | when every read carries exactly one data line, the stream hands on the texts of those lines in order |
| Transport.HarvestAvoids | src/vs/platform/ai/common/geminiClient.ts:145-156 | a text that no line yields is never handed on by a chunk |
| Transport.DeliveriesAvoid | src/vs/platform/ai/common/geminiClient.ts:138-157 | a text that no line yields is never handed on by a stream |
| Transport.CollectAppend | src/vs/platform/ai/common/geminiClient.ts:138-157 | collecting per-chunk texts over two runs of chunks gives the first run's texts followed by the second's |
| Transport.DeliveriesCollect | src/vs/platform/ai/common/geminiClient.ts:138-157 | the stream hands on, chunk after chunk, what each chunk's data lines yield |
| Transport.DeliveriesAppend | src/vs/platform/ai/common/geminiClient.ts:138-157 | decoding is chunk-local: a stream cut into two runs of reads hands on what the first run hands on followed by what the second does |
| GeminiClient.GenerationConfigFor | src/vs/platform/ai/common/geminiClient.ts:186-191 | temperature and output budget are always sent, the caller's value when given and 0.7 and 2048 otherwise; top-p and stop sequences are sent exactly as given |
| GeminiClient.CreateRequest | src/vs/platform/ai/common/geminiClient.ts:172-193 | the loop builds one Gemini message per turn, in order, as the request function specifies |
| GeminiClient.ConversationRecovered | src/vs/platform/ai/common/geminiClient.ts:176-182 | translation keeps every turn, its position and its text; a system turn comes back as a user turn |
| GeminiClient.RoundTripWithoutSystem | src/vs/platform/ai/common/geminiClient.ts:176-182 | a conversation without system turns is recovered exactly from its request |
| GeminiClient.SystemFoldsIntoUser | src/vs/platform/ai/common/geminiClient.ts:177 | a system turn translates exactly like a user turn with the same text, and an assistant turn does not |
| GeminiClient.ParseResponse | src/vs/platform/ai/common/geminiClient.ts:195-218 | a decoded body yields its first candidate's first part text, or the empty string without an error when that path is missing, with the model and usage in the metadata; only a `null` body yields the `invalid_response` error |
| GeminiClient.TestConnection | src/vs/platform/ai/common/geminiClient.ts:42-74 | no request is sent without a key; otherwise one "Hello" probe with a 5-token budget goes out with the key in the URL, and the answer is true exactly on an ok status; it never raises |
| GeminiClient.Complete | src/vs/platform/ai/common/geminiClient.ts:76-103 | raises the conversation error, then the missing-key error, before sending anything; otherwise sends one request and returns the parsed body, or an error result for a failed fetch or a non-ok status |
| GeminiClient.FrameTextOfDataLine | src/vs/platform/ai/common/geminiClient.ts:146-152 | a data line hands on its decoded first-candidate text only when the payload decodes and that text is non-empty |
| GeminiClient.DecodeLines | src/vs/platform/ai/common/geminiClient.ts:145-156 | the inner loop hands on what the chunk's data lines yield, in order, and keeps the accumulated text equal to the concatenation of everything handed on |
| GeminiClient.DecodeStream | src/vs/platform/ai/common/geminiClient.ts:138-157 | the read loop hands on exactly the stream's deliveries, and the accumulated text is their concatenation |
| GeminiClient.StreamComplete | src/vs/platform/ai/common/geminiClient.ts:105-170 | the same checks as `complete`, then one request to the streaming endpoint with `alt=sse`; an error result for a failed fetch, a non-ok status, a missing body or a failing read |
| GeminiClient.DeliveredTextsNonEmpty | src/vs/platform/ai/common/geminiClient.ts:148-151 | `onData` is never called with the empty string |
| GeminiClient.StreamContentIsDeliveries | src/vs/platform/ai/common/geminiClient.ts:136-165 | a stream that ends normally yields exactly the in-order concatenation of the texts handed to `onData`; an interrupted one yields an error result |
| GeminiClient.StreamAgreesWithParse | src/vs/platform/ai/common/geminiClient.ts:148-149 | a frame hands on exactly the content that `parseResponse` extracts from the same body |
| GroqClient.RequestRoundTrip | src/vs/platform/ai/common/groqClient.ts:170-189 | turns (role, text, order) and options come back unchanged from the request; the model is the client's and the stream flag the caller's |
| GroqClient.GetHeaders | src/vs/platform/ai/common/groqClient.ts:163-168 | exactly two headers: the JSON content type and `Bearer ` followed by the key (spelled `undefined` when unset) |
| GroqClient.BearerCarriesKey | src/vs/platform/ai/common/groqClient.ts:166 | the key is recoverable from the authorization header after its seven-character `Bearer ` prefix |
| GroqClient.ParseResponse | src/vs/platform/ai/common/groqClient.ts:191-213 | no error exactly when the first choice has a message with non-empty content, which becomes the result's content with the model and usage; otherwise the `invalid_response` error result |
| GroqClient.InvalidResponseShape | src/vs/platform/ai/common/groqClient.ts:206-211 | every failed parse has empty content and the code `invalid_response` |
| GroqClient.TestConnection | src/vs/platform/ai/common/groqClient.ts:39-65 | no request without a key; otherwise one "Hello" probe for the client's model with a 5-token budget and bearer headers, true exactly on an ok status; it never raises |
| GroqClient.Complete | src/vs/platform/ai/common/groqClient.ts:67-92 | raises the conversation error, then the missing-key error, before sending anything; otherwise sends one `stream: false` request and returns the parsed body or an error result |
| GroqClient.FrameTextOfDataLine | src/vs/platform/ai/common/groqClient.ts:132-146 | a data line that trims to the sentinel yields nothing; any other yields its decoded delta text when that is non-empty |
| GroqClient.DecodeFrame | src/vs/platform/ai/common/groqClient.ts:133-146 | one iteration of the inner loop skips the sentinel and otherwise yields a non-empty delta text, as the frame rule says |
| GroqClient.DecodeLines | src/vs/platform/ai/common/groqClient.ts:132-147 | the inner loop hands on what the chunk's data lines yield, in order, keeping the accumulated text equal to their concatenation |
| GroqClient.DecodeStream | src/vs/platform/ai/common/groqClient.ts:125-148 | the read loop hands on exactly the stream's deliveries, and the accumulated text is their concatenation |
| GroqClient.StreamComplete | src/vs/platform/ai/common/groqClient.ts:94-161 | the same checks as `complete`, then one `stream: true` request; an error result for a failed fetch, a non-ok status, a missing body or a failing read |
| GroqClient.StreamFlags | src/vs/platform/ai/common/groqClient.ts:74-79 | `complete` always sends `stream: false` and the streaming call `stream: true`, whatever the options, both to the one endpoint with the bearer key |
| GroqClient.SentinelSkipped | src/vs/platform/ai/common/groqClient.ts:133-135 | a line that trims to `data: [DONE]` is skipped whatever its payload would decode to |
| GroqClient.DoneIsSkipped | src/vs/platform/ai/common/groqClient.ts:133-135 | the sentinel is skipped both as sent and with the `\r` of a CRLF line ending |
| GroqClient.DecodedFrame | src/vs/platform/ai/common/groqClient.ts:137-143 | a data line that is not the sentinel and does not end in white space is decoded |
| GroqClient.DeliveredTextsNonEmpty | src/vs/platform/ai/common/groqClient.ts:139-143 | `onData` is never called with the empty string |
| GroqClient.StreamContentIsDeliveries | src/vs/platform/ai/common/groqClient.ts:123-156 | a stream that ends normally yields exactly the in-order concatenation of the texts handed to `onData`; an interrupted one yields an error result |
| GroqClient.SplitFrameLost | src/vs/platform/ai/common/groqClient.ts:125-148 | a frame carried whole by one read is handed to `onData`; the same frame cut across two reads is never handed on, because each read is split on its own and the halves are not reassembled |
| Clients.PreconditionsFirst | src/vs/platform/ai/common/aiClient.ts:90-93 | for either vendor, `complete` raises the conversation error, then the missing-key error, without sending anything, and otherwise sends exactly one request and returns a result |
| Clients.StreamPreconditionsFirst | src/vs/platform/ai/common/aiClient.ts:95-99 | the same order of checks for `streamComplete`, which hands nothing to `onData` when a check fails |
| Clients.AIClient.constructor | src/vs/platform/ai/common/aiClient.ts:75-85 | a new client holds a given non-empty key, starts unavailable and has fired no status event |
| Clients.AIClient.TestConnection | src/vs/platform/ai/common/aiClient.ts:89 | the vendor's probe with the held key and model; true exactly when a key is held and the server answers ok |
| Clients.AIClient.SetApiKey | src/vs/platform/ai/common/aiClient.ts:109-118 | the key is stored and probed with the vendor's `testConnection`; availability and the return value are its answer, true exactly for a non-empty key and an ok reply, so an empty key never makes the client available; a status event with the new availability fires exactly when it changed |
| Clients.AIClient.Complete | src/vs/platform/ai/common/aiClient.ts:90-93 | the vendor's `complete` with the held key and model |
| Clients.AIClient.StreamComplete | src/vs/platform/ai/common/aiClient.ts:95-99 | the vendor's `streamComplete` with the held key and model |
| ProviderService.VendorNamed | src/vs/platform/ai/common/aiProviderService.ts:217-221 | a model name selects the vendor with that identifier, and no vendor when none has it |
| ProviderService.ActiveModelSelects | src/vs/platform/ai/common/aiProviderService.ts:111-113 | an unset or empty active model selects Gemini; a set one selects the vendor of that name |
| ProviderService.MergeOptionsProperties | src/vs/platform/ai/common/aiProviderService.ts:163-167 | the caller's fields win; the configured temperature and token limit fill only the gaps; no options yields exactly the configured values; merging twice changes nothing |
| ProviderService.StorageKeysDistinct | src/vs/platform/ai/common/aiProviderService.ts:235-237 | the two vendors' keys are stored under different names |
| ProviderService.WithApiKey | src/vs/platform/ai/common/aiProviderService.ts:256-259 | writing a vendor's key changes that key only: the other vendor's section and the active model are untouched, and the other settings of the section are kept |
| ProviderService.BuiltAvailability | src/vs/platform/ai/common/aiProviderService.ts:120-133 | a freshly built client is available exactly when its section has a non-empty key and the probe succeeded |
| ProviderService.AIService.constructor | src/vs/platform/ai/common/aiProviderService.ts:83-98 | the service starts from its configuration and storage and runs `initializeActiveClient` once: the active model's client is built, cached and made active with one event; an absent section leaves no client and fires once; a model naming no vendor leaves no client and fires nothing |
| ProviderService.AIService.GetClient | src/vs/platform/ai/common/aiProviderService.ts:120-148 | a cached client is returned as is; otherwise one is built from the section (its model or the vendor default), cached and probed when it has a key; an absent section raises before anything is cached; the other vendor's cache is untouched |
| ProviderService.AIService.InitializeActiveClient | src/vs/platform/ai/common/aiProviderService.ts:212-233 | the active model's client becomes active, and the event fires only if the client changed; a section that cannot be read leaves no active client and always fires; afterwards the active client is the active model's cached client |
| ProviderService.AIService.GetActiveClient | src/vs/platform/ai/common/aiProviderService.ts:104-109 | initializes only when there is no active client, and returns the active client |
| ProviderService.AIService.SetActiveModel | src/vs/platform/ai/common/aiProviderService.ts:115-118 | a rejected configuration write is raised again and changes nothing; otherwise it records the model and re-initializes, and that vendor's client is then active whenever it was cached or its section can be read |
| ProviderService.AIService.OnDidChangeConfiguration | src/vs/platform/ai/common/aiProviderService.ts:89-94 | a change under `ascode.ai` re-initializes the active client; otherwise nothing changes |
| ProviderService.AIService.Complete | src/vs/platform/ai/common/aiProviderService.ts:150-170 | raises "No active AI client available" when no client can be made active and raises reading an absent section; otherwise it is the active client's `complete` with the merged options |
| ProviderService.AIService.StreamComplete | src/vs/platform/ai/common/aiProviderService.ts:172-193 | the same for streaming, with `onData` forwarded |
| ProviderService.AIService.TestConnection | src/vs/platform/ai/common/aiProviderService.ts:195-210 | probes a throwaway client of the provider with the given key and the vendor's default model; true exactly for a non-empty key and an ok answer |
| ProviderService.AIService.GetSecureApiKey | src/vs/platform/ai/common/aiProviderService.ts:239-249 | the configured key when non-empty, otherwise the stored one, if any |
| ProviderService.AIService.SetSecureApiKey | src/vs/platform/ai/common/aiProviderService.ts:251-260 | stores the key and writes it to the configuration; reading back yields that key, and the other vendor's key and the clients are unchanged |
| ProviderService.AIService.ClearSecureApiKey | src/vs/platform/ai/common/aiProviderService.ts:262-271 | removes the stored key and clears it from the configuration; reading back yields no key, and the other vendor's key and the clients are unchanged |
| ModelService.GetAvailableModels | src/vs/platform/ai/aiService.ts:53-70 | exactly two entries, Gemini ("Google Gemini") then Groq, covering every supported model, with no key loaded and not configured |
| ModelService.ValidateApiKey | src/vs/platform/ai/aiService.ts:108-121 | a Gemini key passes exactly when it starts with `AIza` and is longer than 30 characters, a Groq key with `gsk_`; no other model accepts a key |
| ModelService.KeyFormatsExclusive | src/vs/platform/ai/aiService.ts:111-115 | no key passes the check for both vendors |
| ModelService.KeyFormatsSatisfiable | src/vs/platform/ai/aiService.ts:111-115 | each vendor accepts some key |
| ModelService.AIService.constructor | src/vs/platform/ai/aiService.ts:29-45 | the active model is the configured one when set and non-empty, `gemini` otherwise; the user is the placeholder `local-user` |
| ModelService.AIService.Initialize | src/vs/platform/ai/aiService.ts:39-45 | adopts the configured active model only when it is set and non-empty |
| ModelService.AIService.SetActiveModel | src/vs/platform/ai/aiService.ts:76-86 | the model becomes active; when it differs it is written to the configuration and the event fires once, while a rejected write keeps the new model, leaves the setting, fires nothing and is raised again; choosing the current model again does nothing |
| ModelService.AIService.SetApiKey | src/vs/platform/ai/aiService.ts:88-101 | an unsupported model, then a key that fails the format check, are rejected before the key store is called; otherwise the key is saved for the user and the event fires only if the save succeeds; success implies the key passed the check |
| ModelService.AIService.RemoveApiKey | src/vs/platform/ai/aiService.ts:103-106 | deletes the user's key for the model; the event fires only if the deletion succeeds |

## Left out

- HTTP, `fetch`, `TextDecoder` and `JSON.parse` are not modelled: each request's outcome, the decoded chunks of a stream and the frame decoder are inputs. Requests are recorded rather than sent.
- Timestamps (`new Date().toISOString()`) and `console.error` logging are left out: they are clocks and output.
- A raising `onData` callback is not modelled; the model assumes the callback returns.
- Clients.AIClient.constructor: the base constructor calls `setApiKey` without awaiting it, so a probe runs in the background and may change availability later. The model's constructor only stores the key. The provider service's own awaited `setApiKey` call is modelled (`GetClient`). Because that background probe starts before the subclass has set its model, Groq's first probe carries no model. Both probes compare against the availability seen before either finished, so two `true` status events can fire. Neither is modelled.
- Clients.AIClient.SetApiKey: the base class catches a raising probe, clears availability and raises again (`aiClient.ts:119-125`). Both concrete `testConnection` implementations catch every failure and never raise, so that branch cannot be reached and is not modelled.
- ProviderService.AIService.OnDidChangeConfiguration: a configuration write the service makes itself (`setActiveModel`, `setSecureApiKey`, `clearSecureApiKey`) would also fire this listener. The model does not fold that in: `SetActiveModel` re-initializes once, in its own step, and the key writes (`SetSecureApiKey`, `ClearSecureApiKey`) are modelled without any re-initialization, although with no active client the listener would build one and fire.
- ProviderService.AIService.SetSecureApiKey and ClearSecureApiKey: storage and configuration writes are assumed to succeed. Both `SetActiveModel` methods do take how their configuration write ends as an input.
- ProviderService.AIService.constructor: the source does not await its `initializeActiveClient` call, so right after construction the client may be cached but not yet active, and its probe still running. The model runs that call to completion inside the constructor.
- ProviderService.MergeOptions: a per-call option set explicitly to `undefined` overrides the configured value in the JavaScript spread. The model treats it as absent, so the configured value is used.
- The exact wording of engine `TypeError` messages is approximated by `SectionMissing`.
- The external key store (`ApiKeyService`, backed by Supabase) is not part of this model: its calls are recorded and their outcome is an input.
- ModelService.ValidateApiKey: `length` counts UTF-16 code units in JavaScript but characters here. The two differ only for keys with characters outside the Basic Multilingual Plane.
- The provider service's `activeClient` getter and each client's `isAvailable`, `getApiKey`, `getModelName` and `getTokenLimit` are plain field reads and constants. They are modelled as functions without contracts of their own. The properties above state what they return.
- Disposal of the services and of event subscriptions is not modelled.
