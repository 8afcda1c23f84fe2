/**
 * `Configuration.from_runnable_config`: the resolved configuration record
 * and the function that builds it from an optional run config and the
 * process environment.
 *
 * Resolution takes four steps, as the resolver does:
 *  1. Configurable — the "configurable" entry of the run config, or an empty
 *     dict when there is no run config or it has no such entry;
 *  2. RawValues — one raw value per field: the field's environment
 *     variable when it is set, otherwise the configurable entry for the
 *     field name (None when there is none);
 *  3. DropNone — raw values that are None are dropped;
 *  4. Construct — the constructor validates what is left and gives every
 *     other field its default.
 * Precedence states the outcome independently as a three-tier rule, and
 * FromRunnableConfig is proved to agree with it.
 */
module Resolver {
  import opened Wrappers
  import opened Schema
  import opened Validation

  /** The values of `llm_provider`. */
  datatype Provider = Ollama | LmStudio | OpenAi | Groq

  function ProviderName(p: Provider): string
  {
    match p
    case Ollama => "ollama"
    case LmStudio => "lmstudio"
    case OpenAi => "openai"
    case Groq => "groq"
  }

  /** The provider a permitted `llm_provider` text names. */
  function ProviderNamed(s: string): (p: Provider)
    ensures s in ProviderNames ==> ProviderName(p) == s
  {
    if s == "ollama" then Ollama
    else if s == "lmstudio" then LmStudio
    else if s == "openai" then OpenAi
    else Groq
  }

  /** The `SearchAPI` member a permitted `search_api` text names. */
  function SearchApiNamed(s: string): (e: SearchAPI)
    ensures s in SearchApiNames ==> SearchApiValue(e) == s
  {
    if s == "perplexity" then Perplexity
    else if s == "tavily" then Tavily
    else if s == "duckduckgo" then DuckDuckGo
    else Searxng
  }

  /**
   * A constructed `Configuration`: one value of the declared type per field.
   * The record stores `llm_provider` and `search_api` as plain Literal texts;
   * here they are the datatypes `Provider` and `SearchAPI`, whose values
   * stand for exactly the permitted texts (FieldValue maps them back, and
   * FieldValuesDetermineConfiguration shows that no information is lost).
   */
  datatype Configuration = Configuration(
    maxWebResearchLoops: int,
    localLlm: string,
    llmProvider: Provider,
    searchApi: SearchAPI,
    fetchFullPage: bool,
    ollamaBaseUrl: string,
    lmstudioBaseUrl: string,
    stripThinkingTokens: bool,
    openaiModel: string,
    openaiApiKey: Option<string>,
    groqModel: string,
    groqApiKey: Option<string>,
    groqApiBaseUrl: string)

  function OptionalText(key: Option<string>): Value
  {
    match key
    case None => VNone
    case Some(s) => VStr(s)
  }

  /** The value a configuration holds for a field, as the field table describes it. */
  function FieldValue(c: Configuration, f: Field): Value
  {
    match f
    case MaxWebResearchLoops => VInt(c.maxWebResearchLoops)
    case LocalLlm => VStr(c.localLlm)
    case LlmProvider => VStr(ProviderName(c.llmProvider))
    case SearchApi => VStr(SearchApiValue(c.searchApi))
    case FetchFullPage => VBool(c.fetchFullPage)
    case OllamaBaseUrl => VStr(c.ollamaBaseUrl)
    case LmstudioBaseUrl => VStr(c.lmstudioBaseUrl)
    case StripThinkingTokens => VBool(c.stripThinkingTokens)
    case OpenaiModel => VStr(c.openaiModel)
    case OpenaiApiKey => OptionalText(c.openaiApiKey)
    case GroqModel => VStr(c.groqModel)
    case GroqApiKey => OptionalText(c.groqApiKey)
    case GroqApiBaseUrl => VStr(c.groqApiBaseUrl)
  }

  /** Every value a configuration holds has its field's declared type. */
  lemma FieldValueConforms(c: Configuration, f: Field)
    ensures Conforms(KindOf(f), FieldValue(c, f))
  {
    match f
    case LlmProvider =>
      assert ProviderName(c.llmProvider) in ProviderNames;
    case SearchApi =>
      assert SearchApiValue(c.searchApi) in SearchApiNames;
    case _ =>
  }

  /** Two configurations that hold the same value for every field are equal. */
  lemma FieldValuesDetermineConfiguration(a: Configuration, b: Configuration)
    requires forall f :: FieldValue(a, f) == FieldValue(b, f)
    ensures a == b
  {
    assert FieldValue(a, LlmProvider) == FieldValue(b, LlmProvider);
    assert FieldValue(a, SearchApi) == FieldValue(b, SearchApi);
    assert FieldValue(a, OpenaiApiKey) == FieldValue(b, OpenaiApiKey);
    assert FieldValue(a, GroqApiKey) == FieldValue(b, GroqApiKey);
    assert FieldValue(a, MaxWebResearchLoops) == FieldValue(b, MaxWebResearchLoops);
    assert FieldValue(a, LocalLlm) == FieldValue(b, LocalLlm);
    assert FieldValue(a, FetchFullPage) == FieldValue(b, FetchFullPage);
    assert FieldValue(a, OllamaBaseUrl) == FieldValue(b, OllamaBaseUrl);
    assert FieldValue(a, LmstudioBaseUrl) == FieldValue(b, LmstudioBaseUrl);
    assert FieldValue(a, StripThinkingTokens) == FieldValue(b, StripThinkingTokens);
    assert FieldValue(a, OpenaiModel) == FieldValue(b, OpenaiModel);
    assert FieldValue(a, GroqModel) == FieldValue(b, GroqModel);
    assert FieldValue(a, GroqApiBaseUrl) == FieldValue(b, GroqApiBaseUrl);
  }

  /** A value of the declared type for every field. */
  predicate WellTyped(vals: map<Field, Value>)
  {
    forall f :: f in vals && Conforms(KindOf(f), vals[f])
  }

  /**
   * The configuration holding the given field values; meaningful when they
   * are well typed (BuildKeepsValues).
   */
  function Build(vals: map<Field, Value>): Configuration
  {
    Configuration(
      IntOf(Entry(vals, MaxWebResearchLoops)),
      TextOf(Entry(vals, LocalLlm)),
      ProviderNamed(TextOf(Entry(vals, LlmProvider))),
      SearchApiNamed(TextOf(Entry(vals, SearchApi))),
      BoolOf(Entry(vals, FetchFullPage)),
      TextOf(Entry(vals, OllamaBaseUrl)),
      TextOf(Entry(vals, LmstudioBaseUrl)),
      BoolOf(Entry(vals, StripThinkingTokens)),
      TextOf(Entry(vals, OpenaiModel)),
      OptionalTextOf(Entry(vals, OpenaiApiKey)),
      TextOf(Entry(vals, GroqModel)),
      OptionalTextOf(Entry(vals, GroqApiKey)),
      TextOf(Entry(vals, GroqApiBaseUrl)))
  }

  function Entry(vals: map<Field, Value>, f: Field): Value
  {
    if f in vals then vals[f] else VNone
  }

  function IntOf(v: Value): int { if v.VInt? then v.i else 0 }

  function TextOf(v: Value): string { if v.VStr? then v.s else "" }

  function BoolOf(v: Value): bool { v.VBool? && v.b }

  function OptionalTextOf(v: Value): Option<string> { if v.VStr? then Some(v.s) else None }

  /** Built from a well-typed value for a field, a configuration holds exactly that value. */
  lemma BuildKeepsValue(vals: map<Field, Value>, f: Field)
    requires f in vals && Conforms(KindOf(f), vals[f])
    ensures FieldValue(Build(vals), f) == vals[f]
  {
  }

  /** Built from well-typed values, a configuration holds exactly those values. */
  lemma BuildKeepsValues(vals: map<Field, Value>)
    requires WellTyped(vals)
    ensures forall f :: FieldValue(Build(vals), f) == vals[f]
  {
    forall f
      ensures FieldValue(Build(vals), f) == vals[f]
    {
      BuildKeepsValue(vals, f);
    }
  }

  /** What resolution raises. */
  datatype Error =
    | AttributeError(receiver: Value)     // `.get` on a "configurable" entry that is not a dict
    | ValidationError(fields: seq<Field>) // the fields the constructor rejects, in declaration order

  /** A run config: a dict whose "configurable" entry carries per-run options. */
  type RunnableConfig = map<string, Value>

  /**
   * The options a run config carries: its "configurable" entry, or an empty
   * dict when there is no run config (or an empty one) or it has no such entry.
   */
  function Configurable(config: Option<RunnableConfig>): (c: Value)
    ensures config.None? || "configurable" !in config.value ==> c == VDict(map[])
    ensures config.Some? && "configurable" in config.value ==> c == config.value["configurable"]
  {
    if config.Some? && config.value != map[] && "configurable" in config.value
    then config.value["configurable"]
    else VDict(map[])
  }

  /** `configurable.get(key)`: the entry for `key`, None when there is none; only a dict has `.get`. */
  function OptionsGet(configurable: Value, key: string): (r: Result<Value, Error>)
    ensures r.Success? <==> configurable.VDict?
    ensures r.Failure? ==> r.error == AttributeError(configurable)
    ensures r.Success? && key !in configurable.entries ==> r.value == VNone
    ensures r.Success? && key in configurable.entries ==> r.value == configurable.entries[key]
  {
    match configurable
    case VDict(entries) => Success(if key in entries then entries[key] else VNone)
    case _ => Failure(AttributeError(configurable))
  }

  /**
   * `os.environ.get(name.upper(), configurable.get(name))` for every field.
   * The fallback argument is evaluated before the lookup, so a "configurable"
   * entry that is not a dict fails even for fields whose variable is set.
   */
  function RawValues(env: map<string, string>, configurable: Value): (r: Result<map<Field, Value>, Error>)
    ensures r.Failure? <==> !configurable.VDict?
    ensures r.Failure? ==> r.error == AttributeError(configurable)
    ensures r.Success? ==> forall f :: f in r.value
    ensures r.Success? ==> forall f :: EnvName(f) in env ==> r.value[f] == VStr(env[EnvName(f)])
    ensures r.Success? ==> forall f :: EnvName(f) !in env && Name(f) in configurable.entries ==>
      r.value[f] == configurable.entries[Name(f)]
    ensures r.Success? ==> forall f :: EnvName(f) !in env && Name(f) !in configurable.entries ==>
      r.value[f] == VNone
  {
    if !configurable.VDict? then
      Failure(AttributeError(configurable))
    else
      FieldsComplete();
      Success(map f | f in Fields ::
        var fallback := OptionsGet(configurable, Name(f)).value;
        if EnvName(f) in env then VStr(env[EnvName(f)]) else fallback)
  }

  /** `{k: v for k, v in raw_values.items() if v is not None}`. */
  function DropNone(raw: map<Field, Value>): (values: map<Field, Value>)
    ensures forall f :: f in values <==> f in raw && raw[f] != VNone
    ensures forall f :: f in values ==> values[f] == raw[f] && values[f] != VNone
  {
    map f | f in raw && raw[f] != VNone :: raw[f]
  }

  /** The fields of `fs` whose given value the constructor rejects, in the order of `fs`. */
  function Rejected(fs: seq<Field>, values: map<Field, Value>): (bad: seq<Field>)
    ensures forall f :: f in bad <==> f in fs && f in values && Validate(KindOf(f), values[f]).None?
    ensures |bad| <= |fs|
  {
    if fs == [] then []
    else
      var f := fs[0];
      (if f in values && Validate(KindOf(f), values[f]).None? then [f] else []) + Rejected(fs[1..], values)
  }

  /** The value the constructor gives a field: the validated given value, or the default. */
  function Settled(f: Field, values: map<Field, Value>): Value
    requires f in values ==> Validate(KindOf(f), values[f]).Some?
  {
    if f in values then Validate(KindOf(f), values[f]).value else Default(f)
  }

  /** The value every field settles on when no given value is rejected. */
  function SettledValues(values: map<Field, Value>): (vals: map<Field, Value>)
    requires Rejected(Fields, values) == []
    ensures WellTyped(vals)
    ensures forall f :: vals[f] == Settled(f, values)
  {
    FieldsComplete();
    map f | f in Fields :: Settled(f, values)
  }

  /**
   * `Configuration(**values)`: every field given a value takes that value
   * once validated, every other field its default; if any given value is
   * rejected, construction fails and names every rejected field.
   */
  function Construct(values: map<Field, Value>): (r: Result<Configuration, Error>)
    ensures r.Success? <==> forall f :: f in values ==> Validate(KindOf(f), values[f]).Some?
    ensures r.Failure? ==> r.error.ValidationError? && r.error.fields == Rejected(Fields, values) && r.error.fields != []
    ensures r.Success? ==> forall f :: f !in values ==> FieldValue(r.value, f) == Default(f)
    ensures r.Success? ==> forall f :: f in values ==> Some(FieldValue(r.value, f)) == Validate(KindOf(f), values[f])
  {
    FieldsComplete();
    var bad := Rejected(Fields, values);
    if bad != [] then
      assert bad[0] in bad;
      Failure(ValidationError(bad))
    else
      var vals := SettledValues(values);
      BuildKeepsValues(vals);
      Success(Build(vals))
  }

  /**
   * The three-tier rule, stated independently of the resolver's steps: a
   * field's environment variable when it is set (even to the empty text),
   * otherwise the options entry for its name unless that is absent or None,
   * otherwise the field's default.
   */
  function Precedence(f: Field, env: map<string, string>, options: map<string, Value>): Value
  {
    if EnvName(f) in env then VStr(env[EnvName(f)])
    else if Name(f) in options && options[Name(f)] != VNone then options[Name(f)]
    else Default(f)
  }

  /** The fields of `fs` whose value under the three-tier rule is rejected, in the order of `fs`. */
  function RejectedByPrecedence(fs: seq<Field>, env: map<string, string>, options: map<string, Value>): (bad: seq<Field>)
    ensures forall f :: f in bad <==> f in fs && Validate(KindOf(f), Precedence(f, env, options)).None?
  {
    if fs == [] then []
    else
      var f := fs[0];
      (if Validate(KindOf(f), Precedence(f, env, options)).None? then [f] else [])
        + RejectedByPrecedence(fs[1..], env, options)
  }

  /** After the first two steps, a field keeps a value exactly when the three-tier rule takes it from the environment or the options. */
  lemma {:induction false} DroppedValuesFollowPrecedence(env: map<string, string>, configurable: Value, f: Field)
    requires configurable.VDict?
    ensures var values := DropNone(RawValues(env, configurable).value);
      && (f in values ==> values[f] == Precedence(f, env, configurable.entries))
      && (f !in values ==> Precedence(f, env, configurable.entries) == Default(f))
  {
  }

  /** Rejection computed step by step lists the same fields, in the same order, as rejection under the three-tier rule. */
  lemma {:induction false} RejectedFollowsPrecedence(fs: seq<Field>, env: map<string, string>, configurable: Value)
    requires configurable.VDict?
    ensures Rejected(fs, DropNone(RawValues(env, configurable).value))
         == RejectedByPrecedence(fs, env, configurable.entries)
  {
    if fs != [] {
      DroppedValuesFollowPrecedence(env, configurable, fs[0]);
      RejectedFollowsPrecedence(fs[1..], env, configurable);
    }
  }

  /** Once the options are a dict, the remaining steps settle every field as the three-tier rule says. */
  lemma ConstructFollowsPrecedence(env: map<string, string>, configurable: Value)
    requires configurable.VDict?
    ensures var r := Construct(DropNone(RawValues(env, configurable).value));
      && (r.Success? <==> forall f :: Validate(KindOf(f), Precedence(f, env, configurable.entries)).Some?)
      && (r.Success? ==>
            forall f :: Some(FieldValue(r.value, f)) == Validate(KindOf(f), Precedence(f, env, configurable.entries)))
      && (r.Failure? ==> r.error == ValidationError(RejectedByPrecedence(Fields, env, configurable.entries)))
  {
    var values := DropNone(RawValues(env, configurable).value);
    forall f
      ensures f in values ==> values[f] == Precedence(f, env, configurable.entries)
      ensures f !in values ==> Precedence(f, env, configurable.entries) == Default(f)
    {
      DroppedValuesFollowPrecedence(env, configurable, f);
    }
    RejectedFollowsPrecedence(Fields, env, configurable);
  }

  /**
   * `Configuration.from_runnable_config(config)` with the process
   * environment `env`. It raises AttributeError exactly when the
   * "configurable" entry is not a dict; otherwise it succeeds exactly when
   * every field's value under the three-tier rule is accepted, the resolved
   * record holds those values, and a failure names exactly the rejected
   * fields in declaration order.
   */
  function FromRunnableConfig(config: Option<RunnableConfig>, env: map<string, string>): (r: Result<Configuration, Error>)
    ensures r.Failure? && r.error.AttributeError? <==> !Configurable(config).VDict?
    ensures Configurable(config).VDict? ==>
      (r.Success? <==> forall f :: Validate(KindOf(f), Precedence(f, env, Configurable(config).entries)).Some?)
    ensures r.Success? ==>
      forall f :: Some(FieldValue(r.value, f)) == Validate(KindOf(f), Precedence(f, env, Configurable(config).entries))
    ensures r.Failure? && Configurable(config).VDict? ==>
      r.error == ValidationError(RejectedByPrecedence(Fields, env, Configurable(config).entries))
  {
    var configurable := Configurable(config);
    match RawValues(env, configurable)
    case Failure(e) => Failure(e)
    case Success(raw) =>
      ConstructFollowsPrecedence(env, configurable);
      Construct(DropNone(raw))
  }
}
