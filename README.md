# Configuration resolution of the deep-research assistant, in Dafny

The research assistant reads its settings from a `Configuration` record with
thirteen fields. Examples are the research depth (`max_web_research_loops`),
the model name (`local_llm`), the LLM provider, the search back-end, base
URLs and API keys. `Configuration.from_runnable_config(config)` builds the
record from an optional run config and the process environment, field by
field:

1. The options dict is the run config's `"configurable"` entry. It is empty
   when there is no run config, when the run config is empty, or when it
   has no such entry.
2. Each field takes its environment variable (the field name upper-cased)
   when that variable is set. Otherwise it takes the options entry for its
   name.
3. Values that are None are dropped.
4. The `Configuration` constructor validates what is left, and every other
   field gets its declared default.

The model is pure, as the resolver is. It has the following modules:

- `Schema` (`schema.dfy`): the field table. It gives each field's name,
  environment variable, declared type and default, and the two enumerated
  value sets.
- `Ascii` (`ascii.dfy`): ASCII case mapping and integer text.
- `Validation` (`validation.dfy`): what the constructor accepts for each
  declared type.
- `Resolver` (`resolver.dfy`): the four steps (`Configurable`, `RawValues`,
  `DropNone`, `Construct`) and their composition `FromRunnableConfig`.
- `ResolutionProperties` (`properties.dfy`): the promises the resolver
  makes, proved of `FromRunnableConfig`.
- `Wrappers` (`wrappers.dfy`): `Option` and `Result`.

The environment is a parameter `env: map<string, string>`. `Precedence` is
an independent reference definition of the three-tier rule:

- the variable, when it is set;
- else the options entry, unless it is absent or None;
- else the default.

`FromRunnableConfig` is proved to agree with `Precedence`. The step-by-step
pipeline and the rule give the same outcome. That covers success or failure,
every field value, and the list of rejected fields.

The environment variable is used whenever it is *present*, even when its
text is empty (`os.environ.get` at line 94 checks presence only). A
description of the resolver as using a variable only when it is "present and
non-empty" does not match the code. The model follows the code
(`EmptyVariableStillWins`, `EmptySearchApiVariableRejected`).

The field descriptions of `openai_api_key` and `groq_api_key` say that the
key "will fallback to" its environment variable "if not provided". In the
code the variable takes precedence over a key given in the options. The
model follows the code (`EnvironmentOverridesOptions`).

The fallback `configurable.get(name)` is evaluated before the environment is
consulted. So a `"configurable"` entry that is not a dict raises
AttributeError even when every variable is set (`OptionsNotADictRaises`).

## Model

| member | source | states |
|---|---|---|
| Schema.Default | src/ollama_deep_researcher/configuration.py:17-81 | every declared default has its field's declared type (the two Literal defaults lie in their sets) |
| Schema.FieldsComplete | src/ollama_deep_researcher/configuration.py:17-81 | the declaration order, which iterating over the model's fields follows, lists every one of the thirteen fields exactly once |
| Schema.NamesDistinct | src/ollama_deep_researcher/configuration.py:17-81 | two fields with the same attribute name are the same field |
| Schema.EnvNameIsUpperName | src/ollama_deep_researcher/configuration.py:94 | the variable consulted for each field is its name upper-cased |
| Schema.EnvNamesDistinct | src/ollama_deep_researcher/configuration.py:94 | no two fields share an environment variable |
| Schema.OnlyApiKeysDefaultToNone | src/ollama_deep_researcher/configuration.py:62-76 | a field's default is None if and only if it is `openai_api_key` or `groq_api_key` |
| Schema.SearchApiEnumMatchesField | src/ollama_deep_researcher/configuration.py:8-12 | `search_api` accepts exactly the values of the `SearchAPI` enum |
| Ascii.Upper | src/ollama_deep_researcher/configuration.py:94 | `upper()` keeps the length, maps each character to its upper case and leaves no lower-case letter |
| Ascii.ParseInteger | src/ollama_deep_researcher/configuration.py:101 | text is read as an integer exactly when it is an optional sign followed by decimal digits, at most 4300 characters long |
| Ascii.DecimalValue | src/ollama_deep_researcher/configuration.py:101 | reading back the decimal text of a natural number gives that number |
| Ascii.ParseDecimal | src/ollama_deep_researcher/configuration.py:101 | decimal text, with or without a leading minus, parses to the number it writes when it is at most 4300 characters long, and is refused otherwise |
| Validation.TrueAndFalseWordsDisjoint | src/ollama_deep_researcher/configuration.py:101 | no text is read both as True and as False |
| Validation.BoolFromText | src/ollama_deep_researcher/configuration.py:37-56 | a `bool` field reads text as False exactly for a False word and as True exactly for a True word, ignoring letter case |
| Validation.Validate | src/ollama_deep_researcher/configuration.py:101 | what is accepted has the declared type; a value already of that type is kept unchanged; a Literal field accepts exactly a text in its set; a `str` field accepts exactly text |
| Validation.IntegerTextIsAcceptedAsInt | src/ollama_deep_researcher/configuration.py:17-21 | integer text (sign and digits, at most 4300 characters) given to an `int` field becomes the integer it writes |
| Validation.DecimalTextIsAcceptedAsInt | src/ollama_deep_researcher/configuration.py:17-21 | the decimal text of `n` given to an `int` field becomes `n`, unless it is longer than 4300 characters, when it is rejected |
| Validation.OverlongIntegerTextRejected | src/ollama_deep_researcher/configuration.py:17-21 | text longer than 4300 characters given to an `int` field is rejected |
| Validation.BoolWordsAreAccepted | src/ollama_deep_researcher/configuration.py:37-41 | "true" and "false" given to a `bool` field become True and False |
| Resolver.ProviderNamed | src/ollama_deep_researcher/configuration.py:27 | each permitted `llm_provider` text names the provider whose value it is |
| Resolver.SearchApiNamed | src/ollama_deep_researcher/configuration.py:32 | each permitted `search_api` text names the search back-end whose value it is |
| Resolver.FieldValueConforms | src/ollama_deep_researcher/configuration.py:17-81 | every value a constructed configuration holds has its field's declared type |
| Resolver.FieldValuesDetermineConfiguration | src/ollama_deep_researcher/configuration.py:14-81 | two configurations holding the same value in every field are equal |
| Resolver.BuildKeepsValues | src/ollama_deep_researcher/configuration.py:101 | a configuration built from well-typed values holds exactly those values |
| Resolver.Configurable | src/ollama_deep_researcher/configuration.py:88-90 | the options are the "configurable" entry when present, and an empty dict when there is no run config or no such entry |
| Resolver.OptionsGet | src/ollama_deep_researcher/configuration.py:94 | `.get` succeeds exactly on a dict, giving the entry or None, and raises AttributeError otherwise |
| Resolver.RawValues | src/ollama_deep_researcher/configuration.py:93-96 | one raw value per field: the variable's text when set, else the options entry, else None; a non-dict options entry raises AttributeError whatever the environment holds |
| Resolver.DropNone | src/ollama_deep_researcher/configuration.py:99 | exactly the entries that are not None are kept, unchanged, so the result holds no None |
| Resolver.Rejected | src/ollama_deep_researcher/configuration.py:101 | the rejected fields are exactly the given fields whose value fails validation, in field order |
| Resolver.SettledValues | src/ollama_deep_researcher/configuration.py:101 | when nothing is rejected, every field settles on a well-typed value: its validated value or its default |
| Resolver.Construct | src/ollama_deep_researcher/configuration.py:101 | construction succeeds iff every given value validates; a given field holds its validated value, any other field its default; a failure lists exactly the rejected fields |
| Resolver.RejectedByPrecedence | src/ollama_deep_researcher/configuration.py:93-101 | the fields listed are exactly those whose value under the three-tier rule is rejected |
| Resolver.DroppedValuesFollowPrecedence | src/ollama_deep_researcher/configuration.py:93-99 | after lookup and None filtering, a field keeps a value exactly when the three-tier rule takes it from the environment or the options, and that value is the rule's value |
| Resolver.RejectedFollowsPrecedence | src/ollama_deep_researcher/configuration.py:93-101 | the step-by-step rejected list equals the rejected list under the three-tier rule |
| Resolver.ConstructFollowsPrecedence | src/ollama_deep_researcher/configuration.py:93-101 | once the options are a dict, construction succeeds, sets each field and fails as the three-tier rule says |
| Resolver.FromRunnableConfig | src/ollama_deep_researcher/configuration.py:84-101 | AttributeError iff the options entry is not a dict; otherwise success iff every field's rule value validates; every resolved field holds its validated rule value; a failure names the rejected fields in order |
| ResolutionProperties.DefaultConfigurationHoldsDefaults | src/ollama_deep_researcher/configuration.py:17-81 | the default configuration holds every field's declared default |
| ResolutionProperties.RejectedByPrecedenceAgrees | src/ollama_deep_researcher/configuration.py:93-101 | inputs giving every field the same rule value reject the same fields |
| ResolutionProperties.ResolvesTo | src/ollama_deep_researcher/configuration.py:93-101 | resolution yields configuration `c` exactly when each field's rule value is accepted as `c`'s value for it |
| ResolutionProperties.RejectionFails | src/ollama_deep_researcher/configuration.py:101 | one rejected field makes resolution fail |
| ResolutionProperties.FailureNamesSomeField | src/ollama_deep_researcher/configuration.py:101 | a validation failure always names at least one field |
| ResolutionProperties.FailsIffSomeRejected | src/ollama_deep_researcher/configuration.py:93-101 | with dict options, resolution fails exactly when some field's rule value is rejected |
| ResolutionProperties.SamePrecedenceSameResult | src/ollama_deep_researcher/configuration.py:93-101 | the outcome depends on nothing but the fields' rule values |
| ResolutionProperties.NoOptionsMeansEnvironmentOrDefault | src/ollama_deep_researcher/configuration.py:88-90 | without a run config or its "configurable" entry, every field comes from its variable or is its default |
| ResolutionProperties.DefaultsWithoutInputs | src/ollama_deep_researcher/configuration.py:17-81 | with no run config and an empty environment, resolution gives the default table |
| ResolutionProperties.EnvironmentOverridesOptions | src/ollama_deep_researcher/configuration.py:94 | a field whose variable is set, even to the empty text, takes the variable whatever the options hold for it |
| ResolutionProperties.OptionsUsedWithoutVariable | src/ollama_deep_researcher/configuration.py:94 | without its variable, a field takes its options entry; if that is rejected, resolution fails naming the field |
| ResolutionProperties.NoneEntryMeansNoEntry | src/ollama_deep_researcher/configuration.py:99 | an options entry that is None acts as no entry, so the field falls back to its default |
| ResolutionProperties.UnknownOptionsIgnored | src/ollama_deep_researcher/configuration.py:93-95 | an options key that names no field never changes the result |
| ResolutionProperties.ChoiceOutsideSetRejected | src/ollama_deep_researcher/configuration.py:27-36 | an `llm_provider` or `search_api` value outside its set makes resolution fail naming that field |
| ResolutionProperties.OptionsNotADictRaises | src/ollama_deep_researcher/configuration.py:88-94 | a "configurable" entry that is not a dict raises AttributeError, whatever the environment holds |
| ResolutionProperties.AbsentApiKeyResolvesToNone | src/ollama_deep_researcher/configuration.py:62-76 | an API key supplied by neither source resolves to None and never causes a failure |
| ResolutionProperties.RejectedAtMostOne | src/ollama_deep_researcher/configuration.py:101 | when every field but `f` is accepted, the rejected list is `[f]` or empty |
| ResolutionProperties.OnlyOneFieldSet | src/ollama_deep_researcher/configuration.py:94 | when the inputs only name one field, every other field resolves to its default |
| ResolutionProperties.DefaultsExceptAccepted | src/ollama_deep_researcher/configuration.py:101 | when every other field takes its default and `f` is accepted, every field validates to the expected value |
| ResolutionProperties.ResolvesToDefaultsExcept | src/ollama_deep_researcher/configuration.py:93-101 | such inputs resolve to the default configuration changed in `f` alone |
| ResolutionProperties.OnlyFieldRejected | src/ollama_deep_researcher/configuration.py:101 | when every other field takes its default and `f` is rejected, the rejected list is `[f]` |
| ResolutionProperties.SingleRejectedField | src/ollama_deep_researcher/configuration.py:101 | such inputs fail with a validation error naming `f` alone |
| ResolutionProperties.EnvironmentWinsExample | src/ollama_deep_researcher/configuration.py:94 | SEARCH_API=tavily wins over "perplexity" in the options |
| ResolutionProperties.OptionsWinOverDefaultExample | src/ollama_deep_researcher/configuration.py:94 | {"llm_provider": "groq"} with no variable selects Groq |
| ResolutionProperties.UnknownSearchApiExample | src/ollama_deep_researcher/configuration.py:32 | {"search_api": "bing"} fails naming `search_api` alone |
| ResolutionProperties.EmptyVariableStillWins | src/ollama_deep_researcher/configuration.py:94 | LOCAL_LLM="" gives an empty model name although the options name one |
| ResolutionProperties.EmptySearchApiVariableRejected | src/ollama_deep_researcher/configuration.py:94 | SEARCH_API="" fails although the options name a permitted back-end |
| ResolutionProperties.IntegerVariableSetsLoops | src/ollama_deep_researcher/configuration.py:17-21 | MAX_WEB_RESEARCH_LOOPS set to integer text (at most 4300 characters) sets the research depth to that integer, negative values included |

## Left out

- Validation.Validate: the constructor's type coercion belongs to the
  validation library, which is not part of this model. The model accepts an
  explicit subset of the library's lax mode:
  - an `int` field takes an int, a bool (as 0 or 1) or sign-and-digits text
    of at most 4300 characters (the library refuses longer integer text);
  - a `bool` field takes a bool, the int 0 or 1, or one of the words 0, off,
    f, false, n, no, 1, on, t, true, y, yes, compared without regard to ASCII
    letter case;
  - a `str` field takes only text, and an `Optional[str]` field takes text or
    None;
  - a `Literal` field takes only a text in its set.

  Surrounding whitespace, digit separators, floats with a zero fraction and
  bytes are not accepted by the model. On those inputs the library may
  accept what the model rejects.
- Ascii.Upper: upper-cases ASCII letters only. Every field name is ASCII, so
  `EnvNameIsUpperName` is unaffected.
- The process environment (`os.environ`, line 94) is a parameter, not I/O.
- `RunnableConfig` (line 6) is modelled as a map whose `"configurable"`
  entry is a `Value`. Its other keys have no effect. Falsy run configs other
  than None and the empty map are not distinguished.
- `Value` has no bytes, floats, decimals, lists or other Python objects, so
  an options entry of one of those kinds cannot be represented. The library
  accepts some of them: bytes in a `str` field, 0.0 and 1.0 in a `bool`
  field, and whole floats in the `int` field.
- The error detail the validation library reports is left out. That covers
  the message, the input and the error type per field. `ValidationError`
  keeps only the rejected fields in declaration order.
- The fields' `title` and `description` metadata are left out, because they
  have no behaviour.
- The consumers of the configuration (LLM clients, search dispatch, the
  research loop) are not part of this model.
