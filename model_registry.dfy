/**
 * The table of supported AI models (services/model_service.py). The table is
 * built once and never changed, so every operation is a pure function of the
 * model identifier.
 */
module ModelRegistry {
  import opened Wrappers

  datatype AvailableModel = AvailableModel(
    id: string,
    name: string,
    provider: string,
    description: string,
    capabilities: seq<string>,
    maxTokens: nat)

  /** A registry: a dictionary from model identifier to model, in insertion order. */
  type Table = seq<(string, AvailableModel)>

  function Keys(t: Table): (ks: seq<string>)
    ensures |ks| == |t| && forall i :: 0 <= i < |t| ==> ks[i] == t[i].0
  {
    if t == [] then [] else [t[0].0] + Keys(t[1..])
  }

  function Values(t: Table): (vs: seq<AvailableModel>)
    ensures |vs| == |t| && forall i :: 0 <= i < |t| ==> vs[i] == t[i].1
  {
    if t == [] then [] else [t[0].1] + Values(t[1..])
  }

  /** The identifiers of a list of models (`[m.id for m in models]`). */
  function Ids(models: seq<AvailableModel>): (ids: seq<string>)
    ensures |ids| == |models| && forall i :: 0 <= i < |models| ==> ids[i] == models[i].id
  {
    if models == [] then [] else [models[0].id] + Ids(models[1..])
  }

  /** Dictionary lookup `t.get(id)`. */
  function Lookup(t: Table, id: string): (r: Option<AvailableModel>)
    ensures r.Some? <==> id in Keys(t)
    ensures r.Some? ==> exists i :: 0 <= i < |t| && t[i] == (id, r.value)
  {
    if t == [] then None
    else if t[0].0 == id then Some(t[0].1)
    else
      var r := Lookup(t[1..], id);
      assert r.Some? ==> exists i :: 0 <= i < |t[1..]| && t[1..][i] == (id, r.value);
      r
  }

  const OpenAIModel := AvailableModel(
    "openai", "OpenAI GPT-4o (Latest)", "OpenAI",
    "Latest GPT-4o model with excellent reasoning and research capabilities (128k tokens)",
    ["web_search", "document_analysis", "code_analysis", "multi-step_reasoning", "structured_output"],
    128000)

  const AnthropicModel := AvailableModel(
    "anthropic", "Claude 3.5 Sonnet (Latest)", "Anthropic",
    "Latest Claude 3.5 Sonnet with enhanced analytical and research capabilities (200k tokens)",
    ["web_search", "document_analysis", "ethical_reasoning", "multi-step_reasoning", "structured_output"],
    200000)

  const KimiModel := AvailableModel(
    "kimi", "Kimi K2-Instruct-0905 (Latest)", "Moonshot AI",
    "Latest Kimi K2-Instruct-0905: state-of-the-art MoE model with 32B activated parameters, enhanced agentic coding intelligence",
    ["web_search", "document_analysis", "multilingual_support", "multi-step_reasoning",
     "structured_output", "tool_calling", "coding_assistance"],
    128000)

  /** `_initialize_models`: the three supported models, keyed by their own identifiers. */
  function InitializeModels(): (t: Table)
    ensures Keys(t) == ["openai", "anthropic", "kimi"]
    ensures forall i :: 0 <= i < |t| ==> t[i].1.id == t[i].0
  {
    var t := [("openai", OpenAIModel), ("anthropic", AnthropicModel), ("kimi", KimiModel)];
    assert Keys(t) == [t[0].0, t[1].0, t[2].0];
    t
  }

  datatype AvailableModels = AvailableModels(
    models: seq<AvailableModel>,
    totalCount: nat,
    supportedProviders: seq<string>)

  /**
   * `get_available_models`: every registered model in registration order, each
   * with an identifier, a name and a provider, and a count equal to the list's length.
   */
  function GetAvailableModels(): (r: AvailableModels)
    ensures r.totalCount == |r.models| == 3
    ensures Ids(r.models) == ["openai", "anthropic", "kimi"]
    ensures forall i :: 0 <= i < |r.models| ==>
              r.models[i].id != "" && r.models[i].name != "" && r.models[i].provider != ""
    ensures r.supportedProviders == ["OpenAI", "Anthropic", "Moonshot AI"]
  {
    var t := InitializeModels();
    AvailableModels(Values(t), |t|, ["OpenAI", "Anthropic", "Moonshot AI"])
  }

  /** `validate_model`: membership of the identifier in the registry. */
  function ValidateModel(id: string): (b: bool)
    ensures b <==> id == "openai" || id == "anthropic" || id == "kimi"
  {
    id in Keys(InitializeModels())
  }

  /** `get_model_config`: the model registered under `id`, if any; its `id` is the key. */
  function GetModelConfig(id: string): (r: Option<AvailableModel>)
    ensures r.Some? <==> ValidateModel(id)
    ensures r.Some? ==> r.value.id == id
  {
    Lookup(InitializeModels(), id)
  }

  /** The model list of `get_available_models` holds exactly the identifiers `validate_model` accepts. */
  lemma AvailableIdsAreValid(id: string)
    ensures id in Ids(GetAvailableModels().models) <==> ValidateModel(id)
  {
  }

  /** `get_model_provider_mapping`: identifier to the engine's model name, for exactly the registered identifiers. */
  function GetModelProviderMapping(): (m: map<string, string>)
    ensures forall id :: id in m <==> ValidateModel(id)
    ensures forall id :: id in m ==> m[id] != ""
  {
    map["openai" := "gpt-5", "anthropic" := "claude-4", "kimi" := "kimi-k2-0905-preview"]
  }

  /**
   * `get_api_key_env_var`: the environment variable that holds a model's key;
   * Kimi shares Anthropic's, an unknown identifier has none.
   */
  function GetApiKeyEnvVar(id: string): (r: Option<string>)
    ensures r.Some? <==> ValidateModel(id)
    ensures id == "kimi" ==> r == Some("ANTHROPIC_API_KEY")
  {
    var envVars := map["openai" := "OPENAI_API_KEY", "anthropic" := "ANTHROPIC_API_KEY", "kimi" := "ANTHROPIC_API_KEY"];
    if id in envVars then Some(envVars[id]) else None
  }
}
