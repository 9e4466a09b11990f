/**
 * The model-selection service: the list of selectable models, the active
 * model with its change event, and saving or removing a user's API key in
 * the external key store after a format check.
 */
module ModelService {
  import opened Wrappers
  import opened Text
  import opened Contract

  /** An entry of the model picker. */
  datatype ModelConfig = ModelConfig(
    id: string,
    name: string,
    description: string,
    apiKey: Option<string>,
    isConfigured: bool)

  /** The model identifiers the service accepts. */
  predicate IsSupported(model: string) {
    model == "gemini" || model == "groq"
  }

  /** `getAvailableModels()`: Gemini then Groq, keys not loaded and not yet configured. */
  function GetAvailableModels(): (models: seq<ModelConfig>)
    ensures |models| == 2
    ensures forall i :: 0 <= i < |models| ==> IsSupported(models[i].id) && models[i].apiKey.None? && !models[i].isConfigured
    ensures forall m :: IsSupported(m) <==> m == models[0].id || m == models[1].id
    ensures models[0].id == "gemini" && models[0].name == "Google Gemini"
    ensures models[1].id == "groq" && models[1].name == "Groq"
  {
    [ModelConfig("gemini", "Google Gemini", "Google's advanced AI model", None, false),
     ModelConfig("groq", "Groq", "High-performance AI inference", None, false)]
  }

  /** The length a key must exceed to pass the format check. */
  const MinKeyLength := 30

  /**
   * `validateApiKey`: a Gemini key starts with `AIza`, a Groq key with
   * `gsk_`, and either must be longer than 30 characters; any other model
   * accepts no key. It never raises.
   */
  function ValidateApiKey(model: string, apiKey: string): (ok: bool)
    ensures ok ==> IsSupported(model) && |apiKey| > MinKeyLength
    ensures model == "gemini" ==> (ok <==> StartsWith(apiKey, "AIza") && |apiKey| > MinKeyLength)
    ensures model == "groq" ==> (ok <==> StartsWith(apiKey, "gsk_") && |apiKey| > MinKeyLength)
  {
    if model == "gemini" then StartsWith(apiKey, "AIza") && |apiKey| > MinKeyLength
    else if model == "groq" then StartsWith(apiKey, "gsk_") && |apiKey| > MinKeyLength
    else false
  }

  /** No key passes the check for both vendors: the two prefixes disagree in their first character. */
  lemma KeyFormatsExclusive(apiKey: string)
    ensures !(ValidateApiKey("gemini", apiKey) && ValidateApiKey("groq", apiKey))
  {
    if ValidateApiKey("gemini", apiKey) {
      assert apiKey[0] == "AIza"[0] == 'A';
      assert apiKey[..4] != "gsk_" by { assert apiKey[..4][0] == 'A'; }
    }
  }

  /** Each vendor accepts some key: the check can be met, by a 31-character key of the right prefix. */
  lemma KeyFormatsSatisfiable()
    ensures ValidateApiKey("gemini", "AIza" + "012345678901234567890123456")
    ensures ValidateApiKey("groq", "gsk_" + "012345678901234567890123456")
  {
    var tail := "012345678901234567890123456";
    assert ("AIza" + tail)[..4] == "AIza";
    assert ("gsk_" + tail)[..4] == "gsk_";
  }

  /** A call the service makes into the external per-user key store. */
  datatype KeyStoreCall =
    | SaveKey(userId: string, provider: string, apiKey: string)
    | DeleteKey(userId: string, provider: string)

  const LocalUser := "local-user"

  class AIService {
    var activeModel: string
    /** The `ascode.ai.activeModel` setting. */
    var configuredModel: Option<string>
    const userId: string
    /** The calls made into the key store so far. */
    ghost var keyStoreCalls: seq<KeyStoreCall>
    /** How many times `onDidChangeModelConfig` has fired. */
    ghost var modelConfigEvents: nat

    /**
     * The service for the placeholder user: the active model is the
     * configured one when that is set and non-empty, Gemini otherwise.
     */
    constructor (configured: Option<string>)
      ensures activeModel == OrElse(configured, "gemini") && configuredModel == configured
      ensures userId == LocalUser
      ensures keyStoreCalls == [] && modelConfigEvents == 0
    {
      activeModel := "gemini";
      configuredModel := configured;
      userId := LocalUser;
      keyStoreCalls := [];
      modelConfigEvents := 0;
      new;
      Initialize();
    }

    /** `initialize`: adopts the configured active model when it is set and non-empty. */
    method Initialize()
      modifies this
      ensures activeModel == (if Truthy(configuredModel) then configuredModel.value else old(activeModel))
      ensures configuredModel == old(configuredModel)
      ensures keyStoreCalls == old(keyStoreCalls) && modelConfigEvents == old(modelConfigEvents)
    {
      if Truthy(configuredModel) {
        activeModel := configuredModel.value;
      }
    }

    /** `getActiveModel()` */
    function GetActiveModel(): string
      reads this
    {
      activeModel
    }

    /**
     * `setActiveModel`: when the model differs, adopts it, writes it to the
     * configuration and fires the change event once the write succeeds; a
     * rejected write leaves the new model adopted, the setting as it was and
     * no event fired, and is raised again. Choosing the current model again
     * does nothing. `write` is how the configuration write ends.
     */
    method SetActiveModel(model: string, write: Outcome<Thrown>) returns (r: Outcome<Thrown>)
      modifies this
      ensures activeModel == model
      ensures old(activeModel) == model ==> unchanged(this) && r == Pass
      ensures old(activeModel) != model ==>
        r == write && keyStoreCalls == old(keyStoreCalls) &&
        configuredModel == (if write.Pass? then Some(model) else old(configuredModel)) &&
        modelConfigEvents == old(modelConfigEvents) + (if write.Pass? then 1 else 0)
    {
      r := Pass;
      if activeModel != model {
        activeModel := model;
        if write.Fail? {
          return write;
        }
        configuredModel := Some(model);
        modelConfigEvents := modelConfigEvents + 1;
      }
    }

    /**
     * `setApiKey`: rejects an unsupported model, then a key that fails the
     * format check, both before touching the key store; otherwise saves the
     * key for this user and fires the change event once the save succeeds.
     * `store` is how the save ends.
     */
    method SetApiKey(model: string, apiKey: string, store: Outcome<Thrown>) returns (r: Outcome<Thrown>)
      modifies this
      ensures activeModel == old(activeModel) && configuredModel == old(configuredModel)
      ensures !IsSupported(model) ==>
        r == Fail(ErrorOf("Unsupported model: " + model)) && unchanged(this)
      ensures IsSupported(model) && !ValidateApiKey(model, apiKey) ==>
        r == Fail(ErrorOf("Invalid API key for " + model)) && unchanged(this)
      ensures ValidateApiKey(model, apiKey) ==>
        r == store && keyStoreCalls == old(keyStoreCalls) + [SaveKey(userId, model, apiKey)] &&
        modelConfigEvents == old(modelConfigEvents) + (if store.Pass? then 1 else 0)
      ensures r.Pass? ==> ValidateApiKey(model, apiKey)
    {
      if !IsSupported(model) {
        return Fail(ErrorOf("Unsupported model: " + model));
      }
      var isValid := ValidateApiKey(model, apiKey);
      if !isValid {
        return Fail(ErrorOf("Invalid API key for " + model));
      }
      keyStoreCalls := keyStoreCalls + [SaveKey(userId, model, apiKey)];
      if store.Fail? {
        return store;
      }
      modelConfigEvents := modelConfigEvents + 1;
      r := Pass;
    }

    /** `removeApiKey`: deletes this user's key for the model and fires the change event once that succeeds. */
    method RemoveApiKey(model: string, store: Outcome<Thrown>) returns (r: Outcome<Thrown>)
      modifies this
      ensures activeModel == old(activeModel) && configuredModel == old(configuredModel)
      ensures r == store
      ensures keyStoreCalls == old(keyStoreCalls) + [DeleteKey(userId, model)]
      ensures modelConfigEvents == old(modelConfigEvents) + (if store.Pass? then 1 else 0)
    {
      keyStoreCalls := keyStoreCalls + [DeleteKey(userId, model)];
      if store.Fail? {
        return store;
      }
      modelConfigEvents := modelConfigEvents + 1;
      r := Pass;
    }
  }
}
