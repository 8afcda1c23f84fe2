/**
 * What `Configuration.from_runnable_config` promises its callers, proved of
 * the model in module Resolver.
 */
module ResolutionProperties {
  import opened Wrappers
  import opened Schema
  import opened Validation
  import opened Resolver
  import Ascii

  /** The configuration whose every field holds its declared default. */
  const DefaultConfiguration: Configuration := Configuration(
    maxWebResearchLoops := 3,
    localLlm := "llama3.2",
    llmProvider := Ollama,
    searchApi := DuckDuckGo,
    fetchFullPage := true,
    ollamaBaseUrl := "http://localhost:11434/",
    lmstudioBaseUrl := "http://localhost:1234/v1",
    stripThinkingTokens := true,
    openaiModel := "gpt-3.5-turbo",
    openaiApiKey := None,
    groqModel := "groq-bison",
    groqApiKey := None,
    groqApiBaseUrl := "https://api.groq.ai/v1")

  /** DefaultConfiguration agrees with the field table's defaults. */
  lemma DefaultConfigurationHoldsDefaults(f: Field)
    ensures FieldValue(DefaultConfiguration, f) == Default(f)
  {
  }

  /** A run config whose "configurable" entry is the dict `options`. */
  function WithOptions(options: map<string, Value>): (config: Option<RunnableConfig>)
    ensures Configurable(config) == VDict(options)
  {
    Some(map["configurable" := VDict(options)])
  }

  /** A field's value depends on nothing but the three-tier rule. */
  lemma {:induction false} RejectedByPrecedenceAgrees(
    fs: seq<Field>,
    env1: map<string, string>, options1: map<string, Value>,
    env2: map<string, string>, options2: map<string, Value>)
    requires forall f :: Precedence(f, env1, options1) == Precedence(f, env2, options2)
    ensures RejectedByPrecedence(fs, env1, options1) == RejectedByPrecedence(fs, env2, options2)
  {
    if fs != [] {
      RejectedByPrecedenceAgrees(fs[1..], env1, options1, env2, options2);
    }
  }

  /**
   * Without a run config, or with one that has no "configurable" entry,
   * every field comes from its environment variable or is its default.
   */
  lemma NoOptionsMeansEnvironmentOrDefault(config: Option<RunnableConfig>, env: map<string, string>)
    requires config.None? || "configurable" !in config.value
    ensures Configurable(config) == VDict(map[])
    ensures FromRunnableConfig(config, env) == FromRunnableConfig(None, env)
    ensures var r := FromRunnableConfig(config, env);
      r.Success? ==> forall f :: EnvName(f) !in env ==> FieldValue(r.value, f) == Default(f)
    ensures var r := FromRunnableConfig(config, env);
      r.Success? ==> forall f :: EnvName(f) in env ==> Some(FieldValue(r.value, f)) == Validate(KindOf(f), VStr(env[EnvName(f)]))
  {
  }

  /** With no inputs at all, resolution gives every field its default. */
  lemma DefaultsWithoutInputs()
    ensures FromRunnableConfig(None, map[]) == Success(DefaultConfiguration)
    ensures FromRunnableConfig(Some(map[]), map[]) == Success(DefaultConfiguration)
  {
    var r := FromRunnableConfig(None, map[]);
    assert forall f :: Precedence(f, map[], map[]) == Default(f);
    assert r.Success?;
    forall f
      ensures FieldValue(r.value, f) == FieldValue(DefaultConfiguration, f)
    {
      DefaultConfigurationHoldsDefaults(f);
    }
    FieldValuesDetermineConfiguration(r.value, DefaultConfiguration);
  }

  /**
   * A field whose environment variable is set takes the variable's text,
   * whatever the options say for it, the empty text included.
   */
  lemma EnvironmentOverridesOptions(f: Field, options: map<string, Value>, v: Value, env: map<string, string>)
    requires EnvName(f) in env
    ensures FromRunnableConfig(WithOptions(options[Name(f) := v]), env) == FromRunnableConfig(WithOptions(options), env)
    ensures var r := FromRunnableConfig(WithOptions(options), env);
      r.Success? ==> Some(FieldValue(r.value, f)) == Validate(KindOf(f), VStr(env[EnvName(f)]))
  {
    forall g
      ensures Precedence(g, env, options[Name(f) := v]) == Precedence(g, env, options)
    {
      if g != f {
        if Name(g) == Name(f) {
          NamesDistinct(g, f);
        }
      }
    }
    SamePrecedenceSameResult(WithOptions(options[Name(f) := v]), env, WithOptions(options), env);
  }

  /** Without its environment variable, a field takes its entry in the options unless that is None. */
  lemma OptionsUsedWithoutVariable(f: Field, config: Option<RunnableConfig>, env: map<string, string>)
    requires EnvName(f) !in env
    requires Configurable(config).VDict?
    requires Name(f) in Configurable(config).entries && Configurable(config).entries[Name(f)] != VNone
    ensures var r := FromRunnableConfig(config, env);
      r.Success? ==> Some(FieldValue(r.value, f)) == Validate(KindOf(f), Configurable(config).entries[Name(f)])
    ensures var r := FromRunnableConfig(config, env);
      Validate(KindOf(f), Configurable(config).entries[Name(f)]).None? ==> r.Failure? && f in r.error.fields
  {
  }

  /** An options entry that is None counts as no entry: the field falls back to its default. */
  lemma NoneEntryMeansNoEntry(f: Field, options: map<string, Value>, env: map<string, string>)
    ensures FromRunnableConfig(WithOptions(options[Name(f) := VNone]), env)
         == FromRunnableConfig(WithOptions(options - {Name(f)}), env)
    ensures var r := FromRunnableConfig(WithOptions(options[Name(f) := VNone]), env);
      r.Success? && EnvName(f) !in env ==> FieldValue(r.value, f) == Default(f)
  {
    forall g
      ensures Precedence(g, env, options[Name(f) := VNone]) == Precedence(g, env, options - {Name(f)})
    {
    }
    SamePrecedenceSameResult(WithOptions(options[Name(f) := VNone]), env, WithOptions(options - {Name(f)}), env);
  }

  /** Options whose key is not a field name never affect the result. */
  lemma UnknownOptionsIgnored(options: map<string, Value>, key: string, v: Value, env: map<string, string>)
    requires forall f :: Name(f) != key
    ensures FromRunnableConfig(WithOptions(options[key := v]), env) == FromRunnableConfig(WithOptions(options), env)
  {
    assert forall g :: Precedence(g, env, options[key := v]) == Precedence(g, env, options);
    SamePrecedenceSameResult(WithOptions(options[key := v]), env, WithOptions(options), env);
  }

  /**
   * An enumerated field (`llm_provider`, `search_api`) whose value under the
   * three-tier rule is not one of its permitted texts makes resolution fail,
   * and the error names that field.
   */
  lemma ChoiceOutsideSetRejected(f: Field, config: Option<RunnableConfig>, env: map<string, string>)
    requires f == LlmProvider || f == SearchApi
    requires Configurable(config).VDict?
    requires var v := Precedence(f, env, Configurable(config).entries);
      !(v.VStr? && v.s in KindOf(f).allowed)
    ensures var r := FromRunnableConfig(config, env);
      r.Failure? && r.error.ValidationError? && f in r.error.fields
  {
    var options := Configurable(config).entries;
    assert Validate(KindOf(f), Precedence(f, env, options)).None?;
    FieldsComplete();
    assert f in RejectedByPrecedence(Fields, env, options);
  }

  /** A "configurable" entry that is not a dict raises AttributeError, whatever the environment holds. */
  lemma OptionsNotADictRaises(config: RunnableConfig, env: map<string, string>)
    requires "configurable" in config && !config["configurable"].VDict?
    ensures FromRunnableConfig(Some(config), env) == Failure(AttributeError(config["configurable"]))
  {
  }

  /**
   * The API keys are optional: when neither the environment nor the options
   * supply one it resolves to None, and its absence is never the cause of a
   * failure.
   */
  lemma AbsentApiKeyResolvesToNone(f: Field, config: Option<RunnableConfig>, env: map<string, string>)
    requires f == OpenaiApiKey || f == GroqApiKey
    requires Configurable(config).VDict?
    requires var options := Configurable(config).entries;
      EnvName(f) !in env && (Name(f) !in options || options[Name(f)] == VNone)
    ensures var r := FromRunnableConfig(config, env);
      r.Success? ==> (if f == OpenaiApiKey then r.value.openaiApiKey else r.value.groqApiKey) == None
    ensures var r := FromRunnableConfig(config, env);
      r.Failure? ==> f !in r.error.fields
  {
    var options := Configurable(config).entries;
    assert Precedence(f, env, options) == VNone;
    assert Validate(KindOf(f), VNone) == Some(VNone);
    var r := FromRunnableConfig(config, env);
    if r.Success? {
      assert FieldValue(r.value, f) == VNone;
    }
  }

  /** When every field but `f` is accepted, the error lists `f` alone if it is rejected. */
  lemma {:induction false} RejectedAtMostOne(fs: seq<Field>, env: map<string, string>, options: map<string, Value>, f: Field)
    requires forall g :: g in fs && g != f ==> Validate(KindOf(g), Precedence(g, env, options)).Some?
    requires forall i, j :: 0 <= i < j < |fs| ==> fs[i] != fs[j]
    ensures RejectedByPrecedence(fs, env, options)
         == if f in fs && Validate(KindOf(f), Precedence(f, env, options)).None? then [f] else []
  {
    if fs != [] {
      RejectedAtMostOne(fs[1..], env, options, f);
      if fs[0] == f {
        assert f !in fs[1..];
      }
    }
  }

  /** With a single field set by the environment or the options, every other field keeps its default. */
  lemma OnlyOneFieldSet(f: Field, env: map<string, string>, options: map<string, Value>)
    requires env.Keys <= {EnvName(f)} && options.Keys <= {Name(f)}
    ensures forall g :: g != f ==> Precedence(g, env, options) == Default(g)
  {
    forall g | g != f
      ensures Precedence(g, env, options) == Default(g)
    {
      if EnvName(g) == EnvName(f) {
        EnvNamesDistinct(g, f);
      }
      if Name(g) == Name(f) {
        NamesDistinct(g, f);
      }
    }
  }

  /**
   * Resolution yields the configuration `c` exactly when every field's value
   * under the three-tier rule is accepted as the value `c` holds for it.
   */
  lemma ResolvesTo(config: Option<RunnableConfig>, env: map<string, string>, c: Configuration)
    requires Configurable(config).VDict?
    ensures FromRunnableConfig(config, env) == Success(c) <==>
      forall g :: Validate(KindOf(g), Precedence(g, env, Configurable(config).entries)) == Some(FieldValue(c, g))
  {
    var r := FromRunnableConfig(config, env);
    if forall g :: Validate(KindOf(g), Precedence(g, env, Configurable(config).entries)) == Some(FieldValue(c, g)) {
      assert r.Success?;
      FieldValuesDetermineConfiguration(r.value, c);
    }
  }

  /** A rejected field makes resolution fail. */
  lemma RejectionFails(config: Option<RunnableConfig>, env: map<string, string>, f: Field)
    requires Configurable(config).VDict?
    requires Validate(KindOf(f), Precedence(f, env, Configurable(config).entries)).None?
    ensures FromRunnableConfig(config, env).Failure?
  {
  }

  /** A validation error lists at least one field. */
  lemma FailureNamesSomeField(config: Option<RunnableConfig>, env: map<string, string>)
    requires Configurable(config).VDict?
    requires FromRunnableConfig(config, env).Failure?
    ensures RejectedByPrecedence(Fields, env, Configurable(config).entries) != []
  {
    var options := Configurable(config).entries;
    assert exists g :: Validate(KindOf(g), Precedence(g, env, options)).None?;
    var g :| Validate(KindOf(g), Precedence(g, env, options)).None?;
    FieldsComplete();
    assert g in RejectedByPrecedence(Fields, env, options);
  }

  /**
   * Once the options are a dict, resolution fails exactly when some field's
   * value under the three-tier rule is rejected; the error then lists those
   * fields (the last ensures of FromRunnableConfig).
   */
  lemma FailsIffSomeRejected(config: Option<RunnableConfig>, env: map<string, string>)
    requires Configurable(config).VDict?
    ensures FromRunnableConfig(config, env).Failure? <==>
      RejectedByPrecedence(Fields, env, Configurable(config).entries) != []
  {
    var bad := RejectedByPrecedence(Fields, env, Configurable(config).entries);
    if FromRunnableConfig(config, env).Failure? {
      FailureNamesSomeField(config, env);
    }
    if bad != [] {
      assert bad[0] in bad;
      RejectionFails(config, env, bad[0]);
    }
  }

  /**
   * Resolution is a function of the three-tier values alone: two inputs
   * whose options are dicts and that give every field the same value under
   * the rule resolve to the same outcome, success or error.
   */
  lemma SamePrecedenceSameResult(
    config1: Option<RunnableConfig>, env1: map<string, string>,
    config2: Option<RunnableConfig>, env2: map<string, string>)
    requires Configurable(config1).VDict? && Configurable(config2).VDict?
    requires forall f :: Precedence(f, env1, Configurable(config1).entries)
                      == Precedence(f, env2, Configurable(config2).entries)
    ensures FromRunnableConfig(config1, env1) == FromRunnableConfig(config2, env2)
  {
    var r1, r2 := FromRunnableConfig(config1, env1), FromRunnableConfig(config2, env2);
    if r1.Success? && r2.Success? {
      FieldValuesDetermineConfiguration(r1.value, r2.value);
    } else {
      RejectedByPrecedenceAgrees(Fields, env1, Configurable(config1).entries, env2, Configurable(config2).entries);
    }
  }

  /** Every field but `f` takes its default, and `f` takes the value `expected` holds for it. */
  lemma DefaultsExceptAccepted(
    f: Field, env: map<string, string>, options: map<string, Value>, v: Value, expected: Configuration)
    requires forall g :: g != f ==> Precedence(g, env, options) == Default(g)
    requires Precedence(f, env, options) == v
    requires Validate(KindOf(f), v) == Some(FieldValue(expected, f))
    requires forall g :: g != f ==> FieldValue(expected, g) == Default(g)
    ensures forall g :: Validate(KindOf(g), Precedence(g, env, options)) == Some(FieldValue(expected, g))
  {
    forall g
      ensures Validate(KindOf(g), Precedence(g, env, options)) == Some(FieldValue(expected, g))
    {
      if g != f {
        assert Conforms(KindOf(g), Default(g));
      }
    }
  }

  /** The configuration that differs from the defaults in one field only, when that field accepts `v`. */
  lemma ResolvesToDefaultsExcept(
    f: Field, config: Option<RunnableConfig>, env: map<string, string>, v: Value, expected: Configuration)
    requires Configurable(config).VDict?
    requires forall g :: g != f ==> Precedence(g, env, Configurable(config).entries) == Default(g)
    requires Precedence(f, env, Configurable(config).entries) == v
    requires Validate(KindOf(f), v) == Some(FieldValue(expected, f))
    requires forall g :: g != f ==> FieldValue(expected, g) == Default(g)
    ensures FromRunnableConfig(config, env) == Success(expected)
  {
    DefaultsExceptAccepted(f, env, Configurable(config).entries, v, expected);
    ResolvesTo(config, env, expected);
  }

  /** When every other field takes its default and `f` is rejected, `f` is the only rejected field. */
  lemma OnlyFieldRejected(f: Field, env: map<string, string>, options: map<string, Value>)
    requires forall g :: g != f ==> Precedence(g, env, options) == Default(g)
    requires Validate(KindOf(f), Precedence(f, env, options)).None?
    ensures RejectedByPrecedence(Fields, env, options) == [f]
  {
    forall g | g != f
      ensures Validate(KindOf(g), Precedence(g, env, options)).Some?
    {
      assert Validate(KindOf(g), Default(g)) == Some(Default(g));
    }
    FieldsComplete();
    RejectedAtMostOne(Fields, env, options, f);
  }

  /** When every other field takes its default and `f` is rejected, resolution fails naming `f` alone. */
  lemma SingleRejectedField(f: Field, config: Option<RunnableConfig>, env: map<string, string>)
    requires Configurable(config).VDict?
    requires forall g :: g != f ==> Precedence(g, env, Configurable(config).entries) == Default(g)
    requires Validate(KindOf(f), Precedence(f, env, Configurable(config).entries)).None?
    ensures FromRunnableConfig(config, env) == Failure(ValidationError([f]))
  {
    OnlyFieldRejected(f, env, Configurable(config).entries);
    FailsIffSomeRejected(config, env);
  }

  /** SEARCH_API=tavily in the environment wins over "perplexity" in the options. */
  lemma EnvironmentWinsExample()
    ensures FromRunnableConfig(WithOptions(map["search_api" := VStr("perplexity")]), map["SEARCH_API" := "tavily"])
         == Success(DefaultConfiguration.(searchApi := Tavily))
  {
    var env := map["SEARCH_API" := "tavily"];
    var options := map["search_api" := VStr("perplexity")];
    OnlyOneFieldSet(SearchApi, env, options);
    forall g | g != SearchApi
      ensures FieldValue(DefaultConfiguration.(searchApi := Tavily), g) == Default(g)
    {
      DefaultConfigurationHoldsDefaults(g);
    }
    ResolvesToDefaultsExcept(SearchApi, WithOptions(options), env, VStr("tavily"), DefaultConfiguration.(searchApi := Tavily));
  }

  /** {"llm_provider": "groq"} in the options, with no LLM_PROVIDER variable, selects Groq. */
  lemma OptionsWinOverDefaultExample()
    ensures FromRunnableConfig(WithOptions(map["llm_provider" := VStr("groq")]), map[])
         == Success(DefaultConfiguration.(llmProvider := Groq))
  {
    var options := map["llm_provider" := VStr("groq")];
    OnlyOneFieldSet(LlmProvider, map[], options);
    forall g | g != LlmProvider
      ensures FieldValue(DefaultConfiguration.(llmProvider := Groq), g) == Default(g)
    {
      DefaultConfigurationHoldsDefaults(g);
    }
    ResolvesToDefaultsExcept(LlmProvider, WithOptions(options), map[], VStr("groq"), DefaultConfiguration.(llmProvider := Groq));
  }

  /** {"search_api": "bing"} is rejected, and the error names `search_api` alone. */
  lemma UnknownSearchApiExample()
    ensures FromRunnableConfig(WithOptions(map["search_api" := VStr("bing")]), map[])
         == Failure(ValidationError([SearchApi]))
  {
    var options := map["search_api" := VStr("bing")];
    OnlyOneFieldSet(SearchApi, map[], options);
    SingleRejectedField(SearchApi, WithOptions(options), map[]);
  }

  /**
   * An environment variable set to the empty text still wins: LOCAL_LLM=""
   * gives an empty model name.
   */
  lemma EmptyVariableStillWins()
    ensures FromRunnableConfig(WithOptions(map["local_llm" := VStr("llama3.1")]), map["LOCAL_LLM" := ""])
         == Success(DefaultConfiguration.(localLlm := ""))
  {
    var env := map["LOCAL_LLM" := ""];
    var options := map["local_llm" := VStr("llama3.1")];
    OnlyOneFieldSet(LocalLlm, env, options);
    forall g | g != LocalLlm
      ensures FieldValue(DefaultConfiguration.(localLlm := ""), g) == Default(g)
    {
      DefaultConfigurationHoldsDefaults(g);
    }
    ResolvesToDefaultsExcept(LocalLlm, WithOptions(options), env, VStr(""), DefaultConfiguration.(localLlm := ""));
  }

  /**
   * SEARCH_API set to the empty text is rejected, even though the options
   * name a permitted back-end: the variable's presence, not its content,
   * decides.
   */
  lemma EmptySearchApiVariableRejected()
    ensures FromRunnableConfig(WithOptions(map["search_api" := VStr("tavily")]), map["SEARCH_API" := ""])
         == Failure(ValidationError([SearchApi]))
  {
    var env := map["SEARCH_API" := ""];
    var options := map["search_api" := VStr("tavily")];
    OnlyOneFieldSet(SearchApi, env, options);
    SingleRejectedField(SearchApi, WithOptions(options), env);
  }

  /**
   * MAX_WEB_RESEARCH_LOOPS set to integer text (no longer than 4300
   * characters) sets the research depth to the integer it writes (the text
   * "5" gives 5, "-2" gives -2: the depth itself is not bounded).
   */
  lemma IntegerVariableSetsLoops(s: string, n: int)
    requires Ascii.ParseInteger(s) == Some(n)
    ensures FromRunnableConfig(None, map["MAX_WEB_RESEARCH_LOOPS" := s])
         == Success(DefaultConfiguration.(maxWebResearchLoops := n))
  {
    var env := map["MAX_WEB_RESEARCH_LOOPS" := s];
    OnlyOneFieldSet(MaxWebResearchLoops, env, map[]);
    assert Validate(IntKind, VStr(s)) == Some(VInt(n));
    forall g | g != MaxWebResearchLoops
      ensures FieldValue(DefaultConfiguration.(maxWebResearchLoops := n), g) == Default(g)
    {
      DefaultConfigurationHoldsDefaults(g);
    }
    ResolvesToDefaultsExcept(MaxWebResearchLoops, None, env, VStr(s),
      DefaultConfiguration.(maxWebResearchLoops := n));
  }
}
