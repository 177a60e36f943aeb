/** The LLM settings read at import time and `get_llm_config`, in the two
    versions the repository carries: the current settings module
    (`app/utils/config/llm.py`) and the legacy one (`app/utils/config.py`),
    which differ only in the key checked for `deepseek`. The legacy module's
    `RUN_MAX_STEPS` is modelled here too.

    An import-time `ValueError` is an `Err`; the loaded configurations are an
    input, and no secret is overridden by an environment variable (the source
    passes none). */
module LlmConfig {
  import opened Wrappers
  import opened Json
  import opened PyText
  import opened ConfigManager

  /** Which settings module: `app/utils/config/llm.py` or `app/utils/config.py`. */
  datatype Variant = Current | Legacy

  datatype ConfigError =
    | NoProvider              // the provider is missing or falsy
    | NoModel                 // the model is missing or falsy
    | MissingKey(key: string) // the named provider's API key is required
    | Unsupported(provider: Json)
    | NotAnInt(value: Json)   // `int(...)` raised

  /** A dotted config path from its separator-free parts. */
  function ConfigPath(parts: seq<string>): string {
    Join(parts, ".")
  }

  const ProviderPath := ConfigPath(["llm_config", "llm", "provider"])
  const ModelPath := ConfigPath(["llm_config", "llm", "model"])
  const TemperaturePath := ConfigPath(["llm_config", "hyperparameters", "temperature"])
  const MaxTokensPath := ConfigPath(["llm_config", "hyperparameters", "max_tokens"])
  const TopPPath := ConfigPath(["llm_config", "hyperparameters", "top_p"])
  const FrequencyPenaltyPath := ConfigPath(["llm_config", "hyperparameters", "frequency_penalty"])
  const PresencePenaltyPath := ConfigPath(["llm_config", "hyperparameters", "presence_penalty"])
  const MaxStepsPath := ConfigPath(["agent_config", "agent_run", "max_steps"])

  /** The secret path of a provider's field. */
  function SecretPath(provider: string, field: string): string {
    ConfigPath(["secrets", "llm", provider, field])
  }

  const DefaultTemperature := Float("0.7")
  const DefaultMaxTokens := Int(1000)
  const DefaultTopP := Float("1.0")
  const DefaultPenalty := Float("0.0")
  const DefaultMaxSteps := 100

  /** `config_manager.get(path, default)` as a value. */
  function Value(configs: Configs, path: string, default: Json): Json {
    ResolvePath(configs, path).GetOr(default)
  }

  /** The six secrets: an API key per provider and the Azure endpoint. */
  datatype Secrets = Secrets(openai: Json, anthropic: Json, google: Json, deepseek: Json,
                             azureKey: Json, azureEndpoint: Json)

  /** The module-level settings. */
  datatype LlmSettings = LlmSettings(
    provider: Json, model: Json,
    temperature: Json, maxTokens: Json, topP: Json, frequencyPenalty: Json, presencePenalty: Json,
    secrets: Secrets)

  /** `v` is what `config_manager.get(path, default)` gives: the stored
      value when the path reaches one, the default otherwise. */
  predicate ReadsAs(configs: Configs, path: string, default: Json, v: Json) {
    match ResolvePath(configs, path)
    case Some(x) => v == x
    case None => v == default
  }

  /** Reading the settings: a value the path reaches is taken as it is; a
      missing provider or model is `None`, a missing hyperparameter takes its
      default, a missing secret is `None`. */
  function Read(configs: Configs): (r: LlmSettings)
    ensures ReadsAs(configs, ProviderPath, Null, r.provider)
    ensures ReadsAs(configs, ModelPath, Null, r.model)
    ensures ReadsAs(configs, TemperaturePath, DefaultTemperature, r.temperature)
    ensures ReadsAs(configs, MaxTokensPath, DefaultMaxTokens, r.maxTokens)
    ensures ReadsAs(configs, TopPPath, DefaultTopP, r.topP)
    ensures ReadsAs(configs, FrequencyPenaltyPath, DefaultPenalty, r.frequencyPenalty)
    ensures ReadsAs(configs, PresencePenaltyPath, DefaultPenalty, r.presencePenalty)
    ensures ReadsAs(configs, SecretPath("openai", "api_key"), Null, r.secrets.openai)
    ensures ReadsAs(configs, SecretPath("anthropic", "api_key"), Null, r.secrets.anthropic)
    ensures ReadsAs(configs, SecretPath("google", "api_key"), Null, r.secrets.google)
    ensures ReadsAs(configs, SecretPath("deepseek", "api_key"), Null, r.secrets.deepseek)
    ensures ReadsAs(configs, SecretPath("azure", "api_key"), Null, r.secrets.azureKey)
    ensures ReadsAs(configs, SecretPath("azure", "endpoint"), Null, r.secrets.azureEndpoint)
  {
    LlmSettings(
      Value(configs, ProviderPath, Null),
      Value(configs, ModelPath, Null),
      Value(configs, TemperaturePath, DefaultTemperature),
      Value(configs, MaxTokensPath, DefaultMaxTokens),
      Value(configs, TopPPath, DefaultTopP),
      Value(configs, FrequencyPenaltyPath, DefaultPenalty),
      Value(configs, PresencePenaltyPath, DefaultPenalty),
      Secrets(
        Value(configs, SecretPath("openai", "api_key"), Null),
        Value(configs, SecretPath("anthropic", "api_key"), Null),
        Value(configs, SecretPath("google", "api_key"), Null),
        Value(configs, SecretPath("deepseek", "api_key"), Null),
        Value(configs, SecretPath("azure", "api_key"), Null),
        Value(configs, SecretPath("azure", "endpoint"), Null)))
  }

  /** The providers `get_llm_config` knows. */
  const Supported: set<Json> :=
    {String("openai"), String("deepseek"), String("anthropic"), String("azure_openai"), String("google")}

  /** What validation demands, provider by provider: its own key, the
      OpenAI key for `deepseek` in the legacy module, and the key or the
      endpoint for `azure_openai`. */
  predicate KeysPresent(variant: Variant, p: Json, k: Secrets) {
    && (p == String("openai") ==> Truthy(k.openai))
    && (p == String("deepseek") ==> Truthy(if variant == Current then k.deepseek else k.openai))
    && (p == String("anthropic") ==> Truthy(k.anthropic))
    && (p == String("azure_openai") ==> Truthy(k.azureKey) || Truthy(k.azureEndpoint))
    && (p == String("google") ==> Truthy(k.google))
  }

  /** The import-time key check, as the chain of `elif`s it is. */
  function KeyError(variant: Variant, p: Json, k: Secrets): (r: Option<ConfigError>)
    ensures r.None? <==> KeysPresent(variant, p, k)
    ensures r.Some? ==> p in Supported && r.value.MissingKey?
  {
    match variant
    case Current =>
      if p == String("openai") && !Truthy(k.openai) then Some(MissingKey("openai"))
      else if p == String("deepseek") && !Truthy(k.deepseek) then Some(MissingKey("deepseek"))
      else if p == String("anthropic") && !Truthy(k.anthropic) then Some(MissingKey("anthropic"))
      else if p == String("azure_openai") && !Truthy(k.azureKey) && !Truthy(k.azureEndpoint) then
        Some(MissingKey("azure_openai"))
      else if p == String("google") && !Truthy(k.google) then Some(MissingKey("google"))
      else None
    case Legacy =>
      if (p == String("openai") || p == String("deepseek")) && !Truthy(k.openai) then Some(MissingKey("openai"))
      else if p == String("anthropic") && !Truthy(k.anthropic) then Some(MissingKey("anthropic"))
      else if p == String("azure_openai") && !Truthy(k.azureKey) && !Truthy(k.azureEndpoint) then
        Some(MissingKey("azure_openai"))
      else if p == String("google") && !Truthy(k.google) then Some(MissingKey("google"))
      else None
  }

  /** The import-time checks, in order: provider, model, then the key. */
  function Validate(variant: Variant, s: LlmSettings): (r: Result<LlmSettings, ConfigError>)
    ensures !Truthy(s.provider) ==> r == Err(NoProvider)
    ensures Truthy(s.provider) && !Truthy(s.model) ==> r == Err(NoModel)
    ensures r.Ok? <==> Truthy(s.provider) && Truthy(s.model) && KeysPresent(variant, s.provider, s.secrets)
    ensures r.Ok? ==> r.value == s
  {
    if !Truthy(s.provider) then Err(NoProvider)
    else if !Truthy(s.model) then Err(NoModel)
    else match KeyError(variant, s.provider, s.secrets)
      case Some(e) => Err(e)
      case None => Ok(s)
  }

  /** Importing a settings module. */
  function Load(variant: Variant, configs: Configs): (r: Result<LlmSettings, ConfigError>)
    ensures r.Ok? ==> r.value == Read(configs)
    ensures ResolvePath(configs, ProviderPath).None? ==> r == Err(NoProvider)
  {
    Validate(variant, Read(configs))
  }

  /** The keys every `get_llm_config` result starts with. */
  const BaseKeys := ["provider", "model", "temperature", "max_tokens", "top_p", "frequency_penalty", "presence_penalty"]

  /** The dict `get_llm_config` starts from: provider, model and the five
      hyperparameters, each under its own key. */
  function Base(s: LlmSettings): (r: Members)
    ensures Keys(r) == BaseKeys
  {
    [("provider", s.provider), ("model", s.model), ("temperature", s.temperature),
     ("max_tokens", s.maxTokens), ("top_p", s.topP), ("frequency_penalty", s.frequencyPenalty),
     ("presence_penalty", s.presencePenalty)]
  }

  /** The `api_key` the provider's branch assigns, if it has one. */
  function ApiKey(p: Json, k: Secrets): (r: Option<Json>)
    ensures r.Some? <==> p in Supported
  {
    if p == String("openai") then Some(k.openai)
    else if p == String("deepseek") then Some(k.deepseek)
    else if p == String("anthropic") then Some(k.anthropic)
    else if p == String("azure_openai") then Some(k.azureKey)
    else if p == String("google") then Some(k.google)
    else None
  }

  /** `endpoint` is assigned for `azure_openai` only. */
  function EndpointKey(p: Json): seq<string> {
    if p == String("azure_openai") then ["endpoint"] else []
  }

  /** `get_llm_config`: the base dict with the provider's `api_key` (and
      `endpoint` for `azure_openai`) assigned; any other provider is a
      `ValueError`. Both modules define it alike. Neither key is in the base
      dict, so assigning them appends them (`AppendNew`). */
  function GetLlmConfig(s: LlmSettings): (r: Result<Members, ConfigError>)
    ensures r.Ok? <==> s.provider in Supported
    ensures r.Err? ==> r.error == Unsupported(s.provider)
  {
    if s.provider !in Supported then Err(Unsupported(s.provider))
    else
      Ok(Base(s) + ApiMembers(s))
  }

  /** The keys of `get_llm_config`'s dict, in order: the base keys, then
      `api_key`, then `endpoint` for `azure_openai`. */
  lemma LlmConfigKeys(s: LlmSettings)
    requires GetLlmConfig(s).Ok?
    ensures Keys(GetLlmConfig(s).value) == BaseKeys + ["api_key"] + EndpointKey(s.provider)
  {
    var c := GetLlmConfig(s).value;
    var ks := BaseKeys + ["api_key"] + EndpointKey(s.provider);
    assert |Keys(c)| == |ks|;
    forall i | 0 <= i < |c| ensures Keys(c)[i] == ks[i] {
      if i < 7 {
        assert c[i] == Base(s)[i];
        assert Keys(Base(s))[i] == Base(s)[i].0;
      }
    }
  }

  /** The members assigned after the base dict. */
  function ApiMembers(s: LlmSettings): Members
    requires s.provider in Supported
  {
    [("api_key", ApiKey(s.provider, s.secrets).value)]
      + (if s.provider == String("azure_openai") then [("endpoint", s.secrets.azureEndpoint)] else [])
  }

  /** Each setting is found in the base dict under its own key. */
  lemma BaseLookups(s: LlmSettings)
    ensures var b := Base(s);
      && Lookup(b, "provider") == Some(s.provider) && Lookup(b, "model") == Some(s.model)
      && Lookup(b, "temperature") == Some(s.temperature) && Lookup(b, "max_tokens") == Some(s.maxTokens)
      && Lookup(b, "top_p") == Some(s.topP) && Lookup(b, "frequency_penalty") == Some(s.frequencyPenalty)
      && Lookup(b, "presence_penalty") == Some(s.presencePenalty)
  {
    var b := Base(s);
    BaseUnique(s);
    LookupAt(b, 0);
    LookupAt(b, 1);
    LookupAt(b, 2);
    LookupAt(b, 3);
    LookupAt(b, 4);
    LookupAt(b, 5);
    LookupAt(b, 6);
  }

  /** The base dict has no key twice: its keys differ in length, except
      `model` and `top_p`, which differ in their first letter. */
  lemma BaseUnique(s: LlmSettings)
    ensures UniqueKeys(Base(s))
  {
    var b := Base(s);
    assert forall i :: 0 <= i < |b| ==> |b[i].0| == [8, 5, 11, 10, 5, 17, 16][i];
    assert b[1].0[0] != b[4].0[0];
  }

  /** The keys assigned after the base dict are new to it. */
  lemma NotInBase(s: LlmSettings)
    ensures !HasKey(Base(s), "api_key") && !HasKey(Base(s), "endpoint")
  {
    assert "api_key" !in BaseKeys && "endpoint" !in BaseKeys;
  }

  /** The settings reach `get_llm_config` unchanged, each under its own key. */
  lemma LlmConfigValues(s: LlmSettings)
    requires GetLlmConfig(s).Ok?
    ensures var c := GetLlmConfig(s).value;
      && Lookup(c, "provider") == Some(s.provider) && Lookup(c, "model") == Some(s.model)
      && Lookup(c, "temperature") == Some(s.temperature) && Lookup(c, "max_tokens") == Some(s.maxTokens)
      && Lookup(c, "top_p") == Some(s.topP) && Lookup(c, "frequency_penalty") == Some(s.frequencyPenalty)
      && Lookup(c, "presence_penalty") == Some(s.presencePenalty)
  {
    var b := Base(s);
    var m := ApiMembers(s);
    BaseLookups(s);
    forall k | k in BaseKeys ensures Lookup(b + m, k) == Lookup(b, k) {
      LookupAppend(b, m, k);
    }
  }

  /** The provider's key is under `api_key`, and for `azure_openai` the
      endpoint under `endpoint`. */
  lemma LlmConfigKey(s: LlmSettings)
    requires GetLlmConfig(s).Ok?
    ensures var c := GetLlmConfig(s).value;
      && Lookup(c, "api_key") == ApiKey(s.provider, s.secrets)
      && (s.provider == String("azure_openai") ==> Lookup(c, "endpoint") == Some(s.secrets.azureEndpoint))
  {
    var b := Base(s);
    var m := ApiMembers(s);
    NotInBase(s);
    LookupAppend(b, m, "api_key");
    LookupFirst(m, 0);
    if s.provider == String("azure_openai") {
      LookupAppend(b, m, "endpoint");
      LookupFirst(m, 1);
    }
  }

  /** With the current module, settings that pass the import-time check
      give `get_llm_config` a usable key: a truthy `api_key`, or for
      `azure_openai` a truthy key or endpoint. */
  lemma ValidatedKeyPresent(s: LlmSettings)
    requires Validate(Current, s).Ok? && GetLlmConfig(s).Ok?
    ensures var c := GetLlmConfig(s).value;
      && HasKey(c, "api_key")
      && (s.provider != String("azure_openai") ==> Truthy(Lookup(c, "api_key").GetOr(Null)))
      && (s.provider == String("azure_openai") ==>
            Truthy(Lookup(c, "api_key").GetOr(Null)) || Truthy(Lookup(c, "endpoint").GetOr(Null)))
  {
    LlmConfigKey(s);
  }

  /** Settings for `deepseek` that carry only an OpenAI key. */
  const DeepseekWithOpenAiKey := LlmSettings(
    String("deepseek"), String("deepseek-chat"),
    DefaultTemperature, DefaultMaxTokens, DefaultTopP, DefaultPenalty, DefaultPenalty,
    Secrets(String("sk-openai"), Null, Null, Null, Null, Null))

  /** The legacy module checks the OpenAI key for `deepseek` but
      `get_llm_config` hands on the DeepSeek key: settings with only an
      OpenAI key pass the legacy check and give `deepseek` a `None` key,
      where the current module rejects them. */
  lemma LegacyDeepseekUnchecked()
    ensures var s := DeepseekWithOpenAiKey;
      && Validate(Legacy, s) == Ok(s)
      && Validate(Current, s) == Err(MissingKey("deepseek"))
      && GetLlmConfig(s).Ok?
      && Lookup(GetLlmConfig(s).value, "api_key") == Some(Null)
  {
    var s := DeepseekWithOpenAiKey;
    DeepseekChecks();
    assert Truthy(s.provider) && Truthy(s.model);
    assert Validate(Legacy, s) == Ok(s);
    assert Validate(Current, s) == Err(MissingKey("deepseek"));
    LlmConfigKey(s);
  }

  /** How each module's check treats `DeepseekWithOpenAiKey`. */
  lemma DeepseekChecks()
    ensures KeyError(Legacy, DeepseekWithOpenAiKey.provider, DeepseekWithOpenAiKey.secrets) == None
    ensures KeyError(Current, DeepseekWithOpenAiKey.provider, DeepseekWithOpenAiKey.secrets) ==
      Some(MissingKey("deepseek"))
  {
    var s := DeepseekWithOpenAiKey;
    assert s.provider != String("openai");
    assert s.provider != String("anthropic") && s.provider != String("azure_openai") && s.provider != String("google");
    assert KeysPresent(Legacy, s.provider, s.secrets);
  }

  /** The two modules disagree only on `deepseek`. */
  lemma VariantsAgree(p: Json, k: Secrets)
    requires p != String("deepseek")
    ensures KeyError(Current, p, k) == KeyError(Legacy, p, k)
  {
  }

  /** A configuration without an `llm_config` file fails on the provider,
      in either module. */
  lemma NoLlmConfig(variant: Variant, configs: Configs)
    requires !HasKey(configs, "llm_config")
    ensures Load(variant, configs) == Err(NoProvider)
  {
    NestedPath(configs, "llm_config", ["llm", "provider"]);
    assert ["llm_config"] + ["llm", "provider"] == ["llm_config", "llm", "provider"];
  }

  // ---------------------------------------------------------------------------
  // RUN_MAX_STEPS

  /** `int(v)` for the values a YAML file yields: an int as it is, a bool as
      0 or 1, a decimal string, and a float's repr with its fraction cut off
      (truncation toward zero). */
  function PyInt(v: Json): (r: Result<int, ConfigError>)
    ensures v.Int? ==> r == Ok(v.i)
    ensures v.Null? || v.Array? || v.Object? ==> r == Err(NotAnInt(v))
  {
    match v
    case Int(i) => Ok(i)
    case Bool(b) => Ok(if b then 1 else 0)
    case String(s) =>
      (match ParseInt(s)
       case Some(i) => Ok(i)
       case None => Err(NotAnInt(v)))
    case Float(repr) =>
      var parts := Split(repr, '.');
      if |parts| == 2 && parts[1] != [] && AllChars(parts[1], IsDigit) then
        (match ParseSigned(parts[0])
         case Some(i) => Ok(i)
         case None => Err(NotAnInt(v)))
      else Err(NotAnInt(v))
    case _ => Err(NotAnInt(v))
  }

  /** `int(str(i)) == i`, as a config value. */
  lemma PyIntOfText(i: int)
    ensures PyInt(String(IntToString(i))) == Ok(i)
  {
    IntToStringRoundTrip(i);
  }

  /** A float's repr keeps its integer part, whatever its sign: `int(12.5)
      == 12` and `int(-12.5) == -12`, truncation toward zero. */
  lemma PyIntOfFloat(whole: int, fraction: nat)
    ensures PyInt(Float(IntToString(whole) + "." + NatToString(fraction))) == Ok(whole)
  {
    var w := IntToString(whole);
    var f := NatToString(fraction);
    FloatReprParts(whole, fraction);
    DigitsOnly(fraction);
    IntToStringSigned(whole);
    assert |[w, f]| == 2 && [w, f][1] == f;
  }

  /** A float's repr splits at its point into its two numerals. */
  lemma FloatReprParts(whole: int, fraction: nat)
    ensures Split(IntToString(whole) + "." + NatToString(fraction), '.') == [IntToString(whole), NatToString(fraction)]
  {
    var w := IntToString(whole);
    var f := NatToString(fraction);
    SignedNoPoint(whole);
    DigitsOnly(fraction);
    SplitJoin([w, f], '.');
    assert Join([w, f], ".") == w + "." + f;
  }

  /** A signed numeral has no point. */
  lemma SignedNoPoint(i: int)
    ensures '.' !in IntToString(i)
  {
    if i < 0 {
      DigitsOnly(-i);
      assert IntToString(i) == "-" + NatToString(-i);
    } else {
      DigitsOnly(i);
    }
  }

  /** A decimal numeral has only digits. */
  lemma DigitsOnly(n: nat)
    ensures AllChars(NatToString(n), IsDigit)
    ensures '.' !in NatToString(n)
  {
    assert !IsDigit('.');
  }

  /** `RUN_MAX_STEPS`: the configured step limit as an int, 100 by default. */
  function MaxSteps(configs: Configs): (r: Result<int, ConfigError>)
    ensures ResolvePath(configs, MaxStepsPath).None? ==> r == Ok(DefaultMaxSteps)
    ensures ResolvePath(configs, MaxStepsPath).Some? ==> r == PyInt(ResolvePath(configs, MaxStepsPath).value)
    ensures ResolvePath(configs, MaxStepsPath).Some? && ResolvePath(configs, MaxStepsPath).value.Int? ==>
      r == Ok(ResolvePath(configs, MaxStepsPath).value.i)
  {
    PyInt(Value(configs, MaxStepsPath, Int(DefaultMaxSteps)))
  }

  /** A step limit written as text or as a float is read through `int()`:
      `"25"` gives 25, and `25.9` gives 25. */
  lemma MaxStepsConfigured(configs: Configs, n: int, fraction: nat)
    ensures ResolvePath(configs, MaxStepsPath) == Some(String(IntToString(n))) ==> MaxSteps(configs) == Ok(n)
    ensures ResolvePath(configs, MaxStepsPath) == Some(Float(IntToString(n) + "." + NatToString(fraction))) ==>
      MaxSteps(configs) == Ok(n)
    ensures ResolvePath(configs, MaxStepsPath) == Some(Null) ==> MaxSteps(configs) == Err(NotAnInt(Null))
  {
    PyIntOfText(n);
    PyIntOfFloat(n, fraction);
  }

  /** Without an `agent_config` file the limit is 100. */
  lemma NoAgentConfig(configs: Configs)
    requires !HasKey(configs, "agent_config")
    ensures MaxSteps(configs) == Ok(DefaultMaxSteps)
  {
    NestedPath(configs, "agent_config", ["agent_run", "max_steps"]);
    assert ["agent_config"] + ["agent_run", "max_steps"] == ["agent_config", "agent_run", "max_steps"];
  }
}
