/**
 * The provider service: reads the `ascode.ai` configuration, builds and
 * caches one client per vendor, keeps the active client in step with the
 * configured active model, forwards completions to it with the configured
 * per-vendor options filled in, and keeps API keys in application storage.
 */
module ProviderService {
  import opened Wrappers
  import opened Contract
  import opened Transport
  import opened Clients

  /** One vendor's section of the configuration (`ascode.ai.gemini`, `ascode.ai.groq`). */
  datatype VendorSettings = VendorSettings(
    apiKey: Option<string>,
    model: Option<string>,
    temperature: Option<real>,
    maxTokens: Option<int>)

  /** The `ascode.ai` configuration: an absent section reads as `undefined`. */
  datatype Configuration = Configuration(
    activeModel: Option<string>,
    gemini: Option<VendorSettings>,
    groq: Option<VendorSettings>)

  function Section(cfg: Configuration, v: Vendor): Option<VendorSettings> {
    match v
    case Gemini => cfg.gemini
    case Groq => cfg.groq
  }

  function Other(v: Vendor): Vendor {
    match v
    case Gemini => Groq
    case Groq => Gemini
  }

  /** `getActiveModel()`: the configured active model, or `gemini` when it is unset or empty. */
  function ActiveModelOf(cfg: Configuration): string {
    OrElse(cfg.activeModel, "gemini")
  }

  /** The vendor a model name selects, if any. */
  function VendorNamed(name: string): (r: Option<Vendor>)
    ensures r.Some? ==> VendorId(r.value) == name
    ensures r.None? ==> forall v: Vendor :: VendorId(v) != name
  {
    if name == "gemini" then Some(Gemini)
    else if name == "groq" then Some(Groq)
    else None
  }

  /** An unset or empty active model selects Gemini; a set one selects the vendor of that name, if there is one. */
  lemma ActiveModelSelects(cfg: Configuration, v: Vendor)
    ensures !Truthy(cfg.activeModel) ==> VendorNamed(ActiveModelOf(cfg)) == Some(Gemini)
    ensures cfg.activeModel == Some(VendorId(v)) ==> VendorNamed(ActiveModelOf(cfg)) == Some(v)
  {
  }

  /** `getValue(`ascode.ai.${model}`)` */
  function SectionNamed(cfg: Configuration, name: string): Option<VendorSettings> {
    match VendorNamed(name)
    case None => None
    case Some(v) => Section(cfg, v)
  }

  /**
   * The options a completion is forwarded with: the configured temperature
   * and token limit, each replaced by the caller's value when the caller
   * gave one; top-p and stop sequences only ever come from the caller.
   */
  function MergeOptions(s: VendorSettings, call: Options): Options {
    Options(
      if call.temperature.Some? then call.temperature else s.temperature,
      if call.maxTokens.Some? then call.maxTokens else s.maxTokens,
      call.topP, call.stopSequences)
  }

  /**
   * Merging keeps every field the caller set, fills only the two gaps the
   * configuration covers, yields exactly the configured values for a call
   * without options, and merging a second time changes nothing.
   */
  lemma MergeOptionsProperties(s: VendorSettings, call: Options)
    ensures var m := MergeOptions(s, call);
      (call.temperature.Some? ==> m.temperature == call.temperature) &&
      (call.maxTokens.Some? ==> m.maxTokens == call.maxTokens) &&
      (call.temperature.None? ==> m.temperature == s.temperature) &&
      (call.maxTokens.None? ==> m.maxTokens == s.maxTokens) &&
      m.topP == call.topP && m.stopSequences == call.stopSequences
    ensures MergeOptions(s, NoOptions) == Options(s.temperature, s.maxTokens, None, None)
    ensures MergeOptions(s, MergeOptions(s, call)) == MergeOptions(s, call)
  {
  }

  /** `getStorageKey` */
  function StorageKey(v: Vendor): string {
    "ascode.ai." + VendorId(v) + ".apiKey"
  }

  /** The two vendors' keys are stored under different names. */
  lemma StorageKeysDistinct()
    ensures StorageKey(Gemini) != StorageKey(Groq)
  {
    assert StorageKey(Gemini)[10] == 'g' && StorageKey(Gemini)[11] == 'e';
    assert StorageKey(Groq)[11] == 'r';
  }

  /** The configuration after `updateValue(`ascode.ai.${provider}.apiKey`, key)`. */
  function WithApiKey(cfg: Configuration, v: Vendor, key: Option<string>): (r: Configuration)
    ensures r.activeModel == cfg.activeModel
    ensures Section(r, Other(v)) == Section(cfg, Other(v))
    ensures key.Some? ==> Section(r, v).Some? && Section(r, v).value.apiKey == key
    ensures Section(cfg, v).Some? ==> Section(r, v) == Some(Section(cfg, v).value.(apiKey := key))
    ensures Section(cfg, v).None? && key.None? ==> Section(r, v).None?
  {
    var s := match Section(cfg, v)
      case Some(s) => Some(s.(apiKey := key))
      case None => if key.Some? then Some(VendorSettings(key, None, None, None)) else None;
    match v
    case Gemini => cfg.(gemini := s)
    case Groq => cfg.(groq := s)
  }

  /** The error `getValue(...).field` raises when the section is `undefined`. */
  function SectionMissing(field: string): Thrown {
    ErrorOf("Cannot read properties of undefined (reading '" + field + "')")
  }

  const NoActiveClient := "No active AI client available"

  /** A client as `getGeminiClient` / `getGroqClient` build it from a configuration section. */
  ghost predicate Built(c: AIClient, v: Vendor, s: VendorSettings, probe: ProbeReply)
    reads c
  {
    c.vendor == v && c.model == OrElse(s.model, DefaultModel(v)) &&
    c.apiKey == (if Truthy(s.apiKey) then s.apiKey else None) &&
    c.available == (Truthy(s.apiKey) && probe == ProbeAnswered(true)) &&
    c.statusEvents == (if c.available then [true] else []) &&
    c.Valid()
  }

  /** A client built from a section with a non-empty key is available exactly when its probe succeeded. */
  lemma BuiltAvailability(c: AIClient, v: Vendor, s: VendorSettings, probe: ProbeReply)
    requires Built(c, v, s, probe)
    ensures c.IsAvailable() <==> Truthy(s.apiKey) && probe == ProbeAnswered(true)
    ensures !Truthy(s.apiKey) ==> c.GetApiKey().None? && !c.IsAvailable()
  {
  }

  class AIService {
    var config: Configuration
    var storage: map<string, string>
    var activeClient: AIClient?
    var geminiClient: AIClient?
    var groqClient: AIClient?
    /** How many times `onDidChangeActiveClient` has fired. */
    ghost var changeEvents: nat

    /** The cached client of a vendor. */
    function Cached(v: Vendor): AIClient?
      reads this
    {
      match v
      case Gemini => geminiClient
      case Groq => groqClient
    }

    /** Each cache slot holds a client of its own vendor. */
    ghost predicate CachesValid()
      reads this
    {
      (geminiClient != null ==> geminiClient.vendor == Gemini) &&
      (groqClient != null ==> groqClient.vendor == Groq)
    }

    /** The active client, when there is one, is the cached client of the configured active model's vendor. */
    ghost predicate Valid()
      reads this
    {
      CachesValid() &&
      (activeClient != null ==>
         VendorNamed(ActiveModelOf(config)).Some? && activeClient == Cached(VendorNamed(ActiveModelOf(config)).value))
    }

    /**
     * What `initializeActiveClient` leaves behind: the active model's vendor
     * client, fetched from the cache or built now, becomes the active client
     * and the change event fires if it differs from the previous one; a
     * section that cannot be read clears the active client and always fires;
     * a model naming no vendor leaves no active client.
     */
    twostate predicate Initialized(probe: ProbeReply)
      reads this, geminiClient, groqClient
    {
      storage == old(storage) &&
      match VendorNamed(ActiveModelOf(config))
      case None =>
        geminiClient == old(geminiClient) && groqClient == old(groqClient) && activeClient == null &&
        changeEvents == old(changeEvents) + (if old(activeClient) == null then 0 else 1)
      case Some(v) =>
        Cached(Other(v)) == old(Cached(Other(v))) &&
        if old(Cached(v)) != null then
          Cached(v) == old(Cached(v)) && activeClient == Cached(v) &&
          changeEvents == old(changeEvents) + (if old(activeClient) == activeClient then 0 else 1)
        else if Section(config, v).None? then
          Cached(v) == null && activeClient == null && changeEvents == old(changeEvents) + 1
        else
          Cached(v) != null && fresh(Cached(v)) && activeClient == Cached(v) &&
          Built(Cached(v), v, Section(config, v).value, probe) && changeEvents == old(changeEvents) + 1
    }

    /**
     * The service with its configuration and storage, after the
     * constructor's own `initializeActiveClient`: the configured active
     * model's client is built, cached and made active, and the change event
     * has fired once; an absent section leaves no client and still fires; a
     * model naming no vendor leaves no client and fires nothing.
     */
    constructor (config: Configuration, storage: map<string, string>, probe: ProbeReply)
      ensures this.config == config && this.storage == storage
      ensures Valid()
      ensures match VendorNamed(ActiveModelOf(config))
        case None =>
          activeClient == null && geminiClient == null && groqClient == null && changeEvents == 0
        case Some(v) =>
          Cached(Other(v)) == null && changeEvents == 1 &&
          (Section(config, v).None? ==> activeClient == null && Cached(v) == null) &&
          (Section(config, v).Some? ==>
             activeClient != null && activeClient == Cached(v) && fresh(activeClient) &&
             Built(activeClient, v, Section(config, v).value, probe))
    {
      this.config := config;
      this.storage := storage;
      activeClient, geminiClient, groqClient := null, null, null;
      changeEvents := 0;
      new;
      InitializeActiveClient(probe);
    }

    /** `getActiveModel()` */
    function GetActiveModel(): string
      reads this
    {
      ActiveModelOf(config)
    }

    /**
     * `getGeminiClient` / `getGroqClient`: the cached client when there is
     * one; otherwise a client built from the vendor's section (its model,
     * or the vendor default), cached at once, and given the section's key
     * through `setApiKey` when that key is non-empty. An absent section
     * raises before anything is cached.
     */
    method GetClient(v: Vendor, probe: ProbeReply) returns (r: Result<AIClient, Thrown>)
      requires CachesValid()
      modifies this
      ensures CachesValid()
      ensures config == old(config) && storage == old(storage)
      ensures activeClient == old(activeClient) && changeEvents == old(changeEvents)
      ensures Cached(Other(v)) == old(Cached(Other(v)))
      ensures old(Cached(v)) != null ==> r == Success(old(Cached(v))) && Cached(v) == old(Cached(v))
      ensures old(Cached(v)) == null && Section(config, v).None? ==>
        r == Failure(SectionMissing("apiKey")) && Cached(v) == null
      ensures old(Cached(v)) == null && Section(config, v).Some? ==>
        r.Success? && fresh(r.value) && Cached(v) == r.value && Built(r.value, v, Section(config, v).value, probe)
    {
      var cached := Cached(v);
      if cached != null {
        return Success(cached);
      }
      var section := Section(config, v);
      if section.None? {
        return Failure(SectionMissing("apiKey"));
      }
      var s := section.value;
      var c := new AIClient(v, s.apiKey, OrElse(s.model, DefaultModel(v)));
      if v.Gemini? {
        geminiClient := c;
      } else {
        groqClient := c;
      }
      if Truthy(s.apiKey) {
        var sent, ok := c.SetApiKey(s.apiKey.value, probe);
      }
      r := Success(c);
    }

    /** `initializeActiveClient` */
    method InitializeActiveClient(probe: ProbeReply)
      requires CachesValid()
      modifies this
      ensures Valid()
      ensures config == old(config)
      ensures Initialized(probe)
    {
      var newClient: AIClient? := null;
      match VendorNamed(GetActiveModel()) {
        case None =>
        case Some(v) =>
          var r := GetClient(v, probe);
          if r.Failure? {
            activeClient := null;
            changeEvents := changeEvents + 1;
            return;
          }
          newClient := r.value;
      }
      if newClient != activeClient {
        activeClient := newClient;
        changeEvents := changeEvents + 1;
      }
    }

    /** `getActiveClient`: initializes only when there is no active client yet. */
    method GetActiveClient(probe: ProbeReply) returns (c: AIClient?)
      requires Valid()
      modifies this
      ensures Valid()
      ensures c == activeClient
      ensures old(activeClient) != null ==> unchanged(this)
      ensures old(activeClient) == null ==> config == old(config) && Initialized(probe)
    {
      if activeClient == null {
        InitializeActiveClient(probe);
      }
      c := activeClient;
    }

    /**
     * `setActiveModel`: records the model in the configuration and
     * re-initializes; afterwards that vendor's client is active whenever it
     * was cached or its section can be read. A rejected configuration write
     * is raised again before anything changes. `write` is how that write ends.
     */
    method SetActiveModel(v: Vendor, write: Outcome<Thrown>, probe: ProbeReply) returns (r: Outcome<Thrown>)
      requires Valid()
      modifies this
      ensures Valid()
      ensures r == write
      ensures write.Fail? ==> unchanged(this)
      ensures write.Pass? ==> config == old(config).(activeModel := Some(VendorId(v))) && Initialized(probe)
      ensures write.Pass? && old(Cached(v)) != null ==> activeClient == old(Cached(v))
      ensures write.Pass? && (old(Cached(v)) != null || Section(config, v).Some?) ==>
        activeClient != null && activeClient.vendor == v
    {
      if write.Fail? {
        return write;
      }
      config := config.(activeModel := Some(VendorId(v)));
      InitializeActiveClient(probe);
      r := Pass;
    }

    /**
     * The configuration listener: a change anywhere under `ascode.ai`
     * re-initializes the active client; any other change leaves the service
     * as it was.
     */
    method OnDidChangeConfiguration(newConfig: Configuration, probe: ProbeReply)
      requires Valid()
      modifies this
      ensures Valid()
      ensures config == newConfig
      ensures newConfig == old(config) ==> unchanged(this)
      ensures newConfig != old(config) ==> Initialized(probe)
    {
      if newConfig != config {
        config := newConfig;
        InitializeActiveClient(probe);
      }
    }

    /**
     * `complete`: raises when no client can be made active; otherwise
     * forwards to the active client with the caller's options over the
     * active model's configured temperature and token limit.
     */
    method Complete(messages: seq<Message>, options: Options, probe: ProbeReply, reply: Reply)
      returns (sent: Option<Outgoing>, r: Result<Response, Thrown>)
      requires Valid()
      modifies this
      ensures Valid()
      ensures old(activeClient) != null ==> unchanged(this)
      ensures old(activeClient) == null ==> config == old(config) && Initialized(probe)
      ensures activeClient == null ==> sent == None && r == Failure(ErrorOf(NoActiveClient))
      ensures activeClient != null && Section(config, activeClient.vendor).None? ==>
        sent == None && r == Failure(SectionMissing("temperature"))
      ensures activeClient != null && Section(config, activeClient.vendor).Some? ==>
        Call(sent, r) == CompleteCall(activeClient.vendor, messages,
          MergeOptions(Section(config, activeClient.vendor).value, options),
          activeClient.apiKey, activeClient.model, reply)
    {
      var client := GetActiveClient(probe);
      if client == null {
        return None, Failure(ErrorOf(NoActiveClient));
      }
      var modelConfig := SectionNamed(config, GetActiveModel());
      if modelConfig.None? {
        return None, Failure(SectionMissing("temperature"));
      }
      sent, r := client.Complete(messages, MergeOptions(modelConfig.value, options), reply);
    }

    /** `streamComplete`: as `complete`, forwarding `onData` to the active client's stream. */
    method StreamComplete(messages: seq<Message>, options: Options, probe: ProbeReply, reply: StreamReply,
                          parse: string -> Option<Body>)
      returns (sent: Option<Outgoing>, delivered: seq<string>, r: Result<Response, Thrown>)
      requires Valid()
      modifies this
      ensures Valid()
      ensures old(activeClient) != null ==> unchanged(this)
      ensures old(activeClient) == null ==> config == old(config) && Initialized(probe)
      ensures activeClient == null ==> sent == None && delivered == [] && r == Failure(ErrorOf(NoActiveClient))
      ensures activeClient != null && Section(config, activeClient.vendor).None? ==>
        sent == None && delivered == [] && r == Failure(SectionMissing("temperature"))
      ensures activeClient != null && Section(config, activeClient.vendor).Some? ==>
        StreamCall(sent, delivered, r) == StreamCallFor(activeClient.vendor, messages,
          MergeOptions(Section(config, activeClient.vendor).value, options),
          activeClient.apiKey, activeClient.model, reply, parse)
    {
      var client := GetActiveClient(probe);
      if client == null {
        return None, [], Failure(ErrorOf(NoActiveClient));
      }
      var modelConfig := SectionNamed(config, GetActiveModel());
      if modelConfig.None? {
        return None, [], Failure(SectionMissing("temperature"));
      }
      sent, delivered, r := client.StreamComplete(messages, MergeOptions(modelConfig.value, options), reply, parse);
    }

    /**
     * `testConnection`: probes a throwaway client of the provider with the
     * given key and the vendor's default model; the service itself is
     * untouched and the answer never raises.
     */
    method TestConnection(provider: Vendor, apiKey: string, reply: ProbeReply) returns (sent: Option<Outgoing>, ok: bool)
      ensures sent == ProbeFor(provider, Some(apiKey), DefaultModel(provider))
      ensures ok <==> apiKey != "" && reply == ProbeAnswered(true)
    {
      var client := new AIClient(provider, Some(apiKey), DefaultModel(provider));
      sent, ok := client.TestConnection(reply);
    }

    /**
     * `getSecureApiKey`: the key in the configuration section when it is
     * non-empty, otherwise the one in storage, if any.
     */
    function GetSecureApiKey(v: Vendor): (k: Option<string>)
      reads this
      ensures Section(config, v).Some? && Truthy(Section(config, v).value.apiKey) ==> k == Section(config, v).value.apiKey
      ensures !(Section(config, v).Some? && Truthy(Section(config, v).value.apiKey)) ==>
        k == (if StorageKey(v) in storage then Some(storage[StorageKey(v)]) else None)
    {
      var s := Section(config, v);
      if s.Some? && Truthy(s.value.apiKey) then s.value.apiKey
      else if StorageKey(v) in storage then Some(storage[StorageKey(v)])
      else None
    }

    /**
     * `setSecureApiKey`: stores the key and writes it into the configuration;
     * reading it back yields that key, and the other vendor's key and the
     * clients are untouched.
     */
    method SetSecureApiKey(v: Vendor, apiKey: string)
      requires Valid()
      modifies this
      ensures Valid()
      ensures storage == old(storage)[StorageKey(v) := apiKey]
      ensures config == WithApiKey(old(config), v, Some(apiKey))
      ensures activeClient == old(activeClient) && geminiClient == old(geminiClient) && groqClient == old(groqClient)
      ensures changeEvents == old(changeEvents)
      ensures GetSecureApiKey(v) == Some(apiKey)
      ensures GetSecureApiKey(Other(v)) == old(GetSecureApiKey(Other(v)))
    {
      StorageKeysDistinct();
      storage := storage[StorageKey(v) := apiKey];
      config := WithApiKey(config, v, Some(apiKey));
    }

    /**
     * `clearSecureApiKey`: removes the stored key and clears it from the
     * configuration; afterwards no key is found for that vendor, and the
     * other vendor's key and the clients are untouched.
     */
    method ClearSecureApiKey(v: Vendor)
      requires Valid()
      modifies this
      ensures Valid()
      ensures storage == old(storage) - {StorageKey(v)}
      ensures config == WithApiKey(old(config), v, None)
      ensures activeClient == old(activeClient) && geminiClient == old(geminiClient) && groqClient == old(groqClient)
      ensures changeEvents == old(changeEvents)
      ensures GetSecureApiKey(v) == None
      ensures GetSecureApiKey(Other(v)) == old(GetSecureApiKey(Other(v)))
    {
      StorageKeysDistinct();
      storage := storage - {StorageKey(v)};
      config := WithApiKey(config, v, None);
    }
  }
}
