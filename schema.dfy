/**
 * The field table of `Configuration`: the thirteen configurable fields in
 * declaration order, each with its name, the environment variable that can
 * set it, its declared type and its default, plus the `SearchAPI` enum and
 * the two enumerated value sets.
 */
module Schema {
  import opened Wrappers
  import Ascii

  /**
   * A raw value as the resolver sees it before validation: what a Python
   * `dict[str, Any]` entry or an environment string can hold. `VDict` stands
   * for a nested mapping such as the "configurable" entry of a run config.
   */
  datatype Value =
    | VNone
    | VBool(b: bool)
    | VInt(i: int)
    | VStr(s: string)
    | VDict(entries: map<string, Value>)

  /** The declared type of a field. */
  datatype Kind =
    | IntKind                              // int
    | StrKind                              // str
    | BoolKind                             // bool
    | OptionalStrKind                      // Optional[str]
    | ChoiceKind(allowed: seq<string>)     // Literal[...] of strings

  /** The values a field of declared type `k` holds once it is constructed. */
  predicate Conforms(k: Kind, v: Value)
  {
    match k
    case IntKind => v.VInt?
    case StrKind => v.VStr?
    case BoolKind => v.VBool?
    case OptionalStrKind => v.VStr? || v.VNone?
    case ChoiceKind(allowed) => v.VStr? && v.s in allowed
  }

  /** The fields of `Configuration`. */
  datatype Field =
    | MaxWebResearchLoops
    | LocalLlm
    | LlmProvider
    | SearchApi
    | FetchFullPage
    | OllamaBaseUrl
    | LmstudioBaseUrl
    | StripThinkingTokens
    | OpenaiModel
    | OpenaiApiKey
    | GroqModel
    | GroqApiKey
    | GroqApiBaseUrl

  /** The fields in declaration order, the order in which they are resolved. */
  const Fields: seq<Field> := [
    MaxWebResearchLoops, LocalLlm, LlmProvider, SearchApi, FetchFullPage,
    OllamaBaseUrl, LmstudioBaseUrl, StripThinkingTokens, OpenaiModel,
    OpenaiApiKey, GroqModel, GroqApiKey, GroqApiBaseUrl
  ]

  /** The provider values `llm_provider` accepts. */
  const ProviderNames: seq<string> := ["ollama", "lmstudio", "openai", "groq"]

  /** The search back-ends `search_api` accepts. */
  const SearchApiNames: seq<string> := ["perplexity", "tavily", "duckduckgo", "searxng"]

  /** The `SearchAPI` enum. */
  datatype SearchAPI = Perplexity | Tavily | DuckDuckGo | Searxng

  /** The string value of each `SearchAPI` member. */
  function SearchApiValue(e: SearchAPI): string
  {
    match e
    case Perplexity => "perplexity"
    case Tavily => "tavily"
    case DuckDuckGo => "duckduckgo"
    case Searxng => "searxng"
  }

  /** The Python attribute name of a field. */
  function Name(f: Field): string
  {
    match f
    case MaxWebResearchLoops => "max_web_research_loops"
    case LocalLlm => "local_llm"
    case LlmProvider => "llm_provider"
    case SearchApi => "search_api"
    case FetchFullPage => "fetch_full_page"
    case OllamaBaseUrl => "ollama_base_url"
    case LmstudioBaseUrl => "lmstudio_base_url"
    case StripThinkingTokens => "strip_thinking_tokens"
    case OpenaiModel => "openai_model"
    case OpenaiApiKey => "openai_api_key"
    case GroqModel => "groq_model"
    case GroqApiKey => "groq_api_key"
    case GroqApiBaseUrl => "groq_api_base_url"
  }

  /**
   * The environment variable consulted for a field, written out as a table;
   * `EnvNameIsUpperName` proves it is the name upper-cased (`name.upper()`).
   */
  function EnvName(f: Field): string
  {
    match f
    case MaxWebResearchLoops => "MAX_WEB_RESEARCH_LOOPS"
    case LocalLlm => "LOCAL_LLM"
    case LlmProvider => "LLM_PROVIDER"
    case SearchApi => "SEARCH_API"
    case FetchFullPage => "FETCH_FULL_PAGE"
    case OllamaBaseUrl => "OLLAMA_BASE_URL"
    case LmstudioBaseUrl => "LMSTUDIO_BASE_URL"
    case StripThinkingTokens => "STRIP_THINKING_TOKENS"
    case OpenaiModel => "OPENAI_MODEL"
    case OpenaiApiKey => "OPENAI_API_KEY"
    case GroqModel => "GROQ_MODEL"
    case GroqApiKey => "GROQ_API_KEY"
    case GroqApiBaseUrl => "GROQ_API_BASE_URL"
  }

  /** The declared type of each field. */
  function KindOf(f: Field): Kind
  {
    match f
    case MaxWebResearchLoops => IntKind
    case LlmProvider => ChoiceKind(ProviderNames)
    case SearchApi => ChoiceKind(SearchApiNames)
    case FetchFullPage | StripThinkingTokens => BoolKind
    case OpenaiApiKey | GroqApiKey => OptionalStrKind
    case LocalLlm | OllamaBaseUrl | LmstudioBaseUrl | OpenaiModel | GroqModel | GroqApiBaseUrl => StrKind
  }

  /** The declared default of each field; every default has its field's type. */
  function Default(f: Field): (v: Value)
    ensures Conforms(KindOf(f), v)
  {
    match f
    case MaxWebResearchLoops => VInt(3)
    case LocalLlm => VStr("llama3.2")
    case LlmProvider => VStr("ollama")
    case SearchApi => VStr("duckduckgo")
    case FetchFullPage => VBool(true)
    case OllamaBaseUrl => VStr("http://localhost:11434/")
    case LmstudioBaseUrl => VStr("http://localhost:1234/v1")
    case StripThinkingTokens => VBool(true)
    case OpenaiModel => VStr("gpt-3.5-turbo")
    case OpenaiApiKey => VNone
    case GroqModel => VStr("groq-bison")
    case GroqApiKey => VNone
    case GroqApiBaseUrl => VStr("https://api.groq.ai/v1")
  }

  /** The length and first letter of a field name already tell the fields apart. */
  lemma NameShapeIdentifiesField(f: Field, g: Field)
    requires |Name(f)| == |Name(g)| && Name(f)[0] == Name(g)[0]
    ensures f == g
  {
    match f
    case MaxWebResearchLoops =>
    case LocalLlm =>
    case LlmProvider =>
    case SearchApi =>
    case FetchFullPage =>
    case OllamaBaseUrl =>
    case LmstudioBaseUrl =>
    case StripThinkingTokens =>
    case OpenaiModel =>
    case OpenaiApiKey =>
    case GroqModel =>
    case GroqApiKey =>
    case GroqApiBaseUrl =>
  }

  /** The field order lists every field of the schema, each exactly once. */
  lemma FieldsComplete()
    ensures forall f: Field :: f in Fields
    ensures forall i, j :: 0 <= i < j < |Fields| ==> Fields[i] != Fields[j]
  {
    forall f: Field
      ensures f in Fields
    {
      match f
      case MaxWebResearchLoops => assert Fields[0] == f;
      case LocalLlm => assert Fields[1] == f;
      case LlmProvider => assert Fields[2] == f;
      case SearchApi => assert Fields[3] == f;
      case FetchFullPage => assert Fields[4] == f;
      case OllamaBaseUrl => assert Fields[5] == f;
      case LmstudioBaseUrl => assert Fields[6] == f;
      case StripThinkingTokens => assert Fields[7] == f;
      case OpenaiModel => assert Fields[8] == f;
      case OpenaiApiKey => assert Fields[9] == f;
      case GroqModel => assert Fields[10] == f;
      case GroqApiKey => assert Fields[11] == f;
      case GroqApiBaseUrl => assert Fields[12] == f;
    }
  }

  /** No two fields share a name. */
  lemma NamesDistinct(f: Field, g: Field)
    requires Name(f) == Name(g)
    ensures f == g
  {
    NameShapeIdentifiesField(f, g);
  }

  /** No two fields share an environment variable. */
  lemma EnvNamesDistinct(f: Field, g: Field)
    requires EnvName(f) == EnvName(g)
    ensures f == g
  {
    EnvNameIsUpperName(f);
    EnvNameIsUpperName(g);
    assert Ascii.IsLowerLetter(Name(f)[0]) && Ascii.IsLowerLetter(Name(g)[0]);
    assert Ascii.ToUpper(Name(f)[0]) == EnvName(f)[0] == EnvName(g)[0] == Ascii.ToUpper(Name(g)[0]);
    NameShapeIdentifiesField(f, g);
  }

  /** The environment variable of every field is its name upper-cased. */
  lemma EnvNameIsUpperName(f: Field)
    ensures EnvName(f) == Ascii.Upper(Name(f))
  {
    match f
    case MaxWebResearchLoops => UpperNameMaxWebResearchLoops();
    case LocalLlm => UpperNameLocalLlm();
    case LlmProvider => UpperNameLlmProvider();
    case SearchApi => UpperNameSearchApi();
    case FetchFullPage => UpperNameFetchFullPage();
    case OllamaBaseUrl => UpperNameOllamaBaseUrl();
    case LmstudioBaseUrl => UpperNameLmstudioBaseUrl();
    case StripThinkingTokens => UpperNameStripThinkingTokens();
    case OpenaiModel => UpperNameOpenaiModel();
    case OpenaiApiKey => UpperNameOpenaiApiKey();
    case GroqModel => UpperNameGroqModel();
    case GroqApiKey => UpperNameGroqApiKey();
    case GroqApiBaseUrl => UpperNameGroqApiBaseUrl();
  }

  lemma UpperNameMaxWebResearchLoops()
    ensures Ascii.Upper(Name(MaxWebResearchLoops)) == EnvName(MaxWebResearchLoops)
  {
  }

  lemma UpperNameLocalLlm()
    ensures Ascii.Upper(Name(LocalLlm)) == EnvName(LocalLlm)
  {
  }

  lemma UpperNameLlmProvider()
    ensures Ascii.Upper(Name(LlmProvider)) == EnvName(LlmProvider)
  {
  }

  lemma UpperNameSearchApi()
    ensures Ascii.Upper(Name(SearchApi)) == EnvName(SearchApi)
  {
  }

  lemma UpperNameFetchFullPage()
    ensures Ascii.Upper(Name(FetchFullPage)) == EnvName(FetchFullPage)
  {
  }

  lemma UpperNameOllamaBaseUrl()
    ensures Ascii.Upper(Name(OllamaBaseUrl)) == EnvName(OllamaBaseUrl)
  {
  }

  lemma UpperNameLmstudioBaseUrl()
    ensures Ascii.Upper(Name(LmstudioBaseUrl)) == EnvName(LmstudioBaseUrl)
  {
  }

  lemma UpperNameStripThinkingTokens()
    ensures Ascii.Upper(Name(StripThinkingTokens)) == EnvName(StripThinkingTokens)
  {
  }

  lemma UpperNameOpenaiModel()
    ensures Ascii.Upper(Name(OpenaiModel)) == EnvName(OpenaiModel)
  {
  }

  lemma UpperNameOpenaiApiKey()
    ensures Ascii.Upper(Name(OpenaiApiKey)) == EnvName(OpenaiApiKey)
  {
  }

  lemma UpperNameGroqModel()
    ensures Ascii.Upper(Name(GroqModel)) == EnvName(GroqModel)
  {
  }

  lemma UpperNameGroqApiKey()
    ensures Ascii.Upper(Name(GroqApiKey)) == EnvName(GroqApiKey)
  {
  }

  lemma UpperNameGroqApiBaseUrl()
    ensures Ascii.Upper(Name(GroqApiBaseUrl)) == EnvName(GroqApiBaseUrl)
  {
  }

  /** The two `Optional[str]` API keys are the only fields whose default is None. */
  lemma OnlyApiKeysDefaultToNone(f: Field)
    ensures Default(f) == VNone <==> f == OpenaiApiKey || f == GroqApiKey
  {
  }

  /** The values of the `SearchAPI` enum are exactly the values `search_api` accepts. */
  lemma SearchApiEnumMatchesField(s: string)
    ensures KindOf(SearchApi) == ChoiceKind(SearchApiNames)
    ensures s in SearchApiNames <==> exists e :: SearchApiValue(e) == s
  {
    if s in SearchApiNames {
      var e := if s == "perplexity" then Perplexity
               else if s == "tavily" then Tavily
               else if s == "duckduckgo" then DuckDuckGo
               else Searxng;
      assert SearchApiValue(e) == s;
    }
  }
}
