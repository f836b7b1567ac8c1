/**
 * The shared LLM factory: which chat-model constructor a model name and
 * the environment select, and the `or`-chains by which the portfolio
 * manager's helpers pick model, provider and endpoint from its config.
 */
module LlmFactory {
  import opened Common

  /** The process environment. */
  type Env = map<string, string>

  /** `os.getenv(name)`. */
  function Getenv(env: Env, name: string): Option<string> {
    if name in env then Some(env[name]) else None
  }

  /** `os.getenv(name, default)`. */
  function GetenvOr(env: Env, name: string, default: string): string {
    if name in env then env[name] else default
  }

  /** Python truthiness of an optional string: present and non-empty. */
  predicate Truthy(v: Option<string>) { v.Some? && |v.value| > 0 }

  // ---------------------------------------------------------------------
  // Provider detection

  const OpenAIMarkers: seq<string> := ["gpt-", "o1-", "o3-"]
  const GoogleMarkers: seq<string> := ["gemini", "palm"]
  const OllamaMarkers: seq<string> :=
    ["llama", "mistral", "mixtral", "phi", "gemma", "qwen", "vicuna", "wizardlm", "orca", "deepseek", "gpt-oss"]

  /** `any(x in s for x in markers)`. */
  predicate ContainsAny(s: string, markers: seq<string>) {
    exists i :: 0 <= i < |markers| && Contains(s, markers[i])
  }

  /**
   * `_detect_provider(model_name)`: a truthy `LLM_PROVIDER` wins, lower-cased;
   * otherwise the name is tested for OpenAI, Anthropic, Google and Ollama
   * markers in that order, and anything else is OpenAI.
   */
  function DetectProvider(modelName: string, env: Env): (r: string)
    ensures Truthy(Getenv(env, "LLM_PROVIDER")) ==> r == Lower(env["LLM_PROVIDER"])
    ensures !Truthy(Getenv(env, "LLM_PROVIDER")) ==> r in {"openai", "anthropic", "google", "ollama"}
    ensures !Truthy(Getenv(env, "LLM_PROVIDER")) && ContainsAny(Lower(modelName), OpenAIMarkers) ==> r == "openai"
    ensures (&& !Truthy(Getenv(env, "LLM_PROVIDER")) && !ContainsAny(Lower(modelName), OpenAIMarkers)
             && Contains(Lower(modelName), "claude")) ==> r == "anthropic"
    ensures (&& !Truthy(Getenv(env, "LLM_PROVIDER")) && !ContainsAny(Lower(modelName), OpenAIMarkers)
             && !Contains(Lower(modelName), "claude") && ContainsAny(Lower(modelName), GoogleMarkers)) ==> r == "google"
    ensures (&& !Truthy(Getenv(env, "LLM_PROVIDER")) && !ContainsAny(Lower(modelName), OpenAIMarkers)
             && !Contains(Lower(modelName), "claude") && !ContainsAny(Lower(modelName), GoogleMarkers)
             && ContainsAny(Lower(modelName), OllamaMarkers)) ==> r == "ollama"
    ensures (&& !Truthy(Getenv(env, "LLM_PROVIDER")) && !ContainsAny(Lower(modelName), OpenAIMarkers)
             && !Contains(Lower(modelName), "claude") && !ContainsAny(Lower(modelName), GoogleMarkers)
             && !ContainsAny(Lower(modelName), OllamaMarkers)) ==> r == "openai"
    ensures r == "anthropic" ==> Contains(Lower(modelName), "claude") || Truthy(Getenv(env, "LLM_PROVIDER"))
  {
    var modelLower := Lower(modelName);
    var envProvider := Getenv(env, "LLM_PROVIDER");
    if Truthy(envProvider) then Lower(envProvider.value)
    else if ContainsAny(modelLower, OpenAIMarkers) then "openai"
    else if Contains(modelLower, "claude") then "anthropic"
    else if ContainsAny(modelLower, GoogleMarkers) then "google"
    else if ContainsAny(modelLower, OllamaMarkers) then "ollama"
    else "openai"
  }

  /** With `LLM_PROVIDER` set, the model name plays no part. */
  lemma ExplicitProviderIgnoresModel(m1: string, m2: string, env: Env)
    requires Truthy(Getenv(env, "LLM_PROVIDER"))
    ensures DetectProvider(m1, env) == DetectProvider(m2, env)
  {
  }

  /**
   * A name containing "gpt-oss" also contains "gpt-", so the OpenAI test
   * claims it first: the "gpt-oss" entry of the Ollama list never decides.
   */
  lemma GptOssIsOpenAI(modelName: string, env: Env)
    requires !Truthy(Getenv(env, "LLM_PROVIDER")) && Contains(Lower(modelName), "gpt-oss")
    ensures DetectProvider(modelName, env) == "openai"
  {
    assert "gpt-oss" == "" + "gpt-" + "oss";
    ContainsWithin(Lower(modelName), "", "gpt-", "oss");
    assert Contains(Lower(modelName), OpenAIMarkers[0]);
  }

  lemma LowerUnchanged(s: string)
    requires forall i :: 0 <= i < |s| ==> !IsUpperChar(s[i])
    ensures Lower(s) == s
  {
    assert forall i :: 0 <= i < |s| ==> Lower(s)[i] == LowerChar(s[i]) == s[i];
  }

  /** The repository's own local model name is therefore sent to OpenAI. */
  lemma GptOss20bIsOpenAI(env: Env)
    requires !Truthy(Getenv(env, "LLM_PROVIDER"))
    ensures DetectProvider("gpt-oss:20b", env) == "openai"
  {
    var s := "gpt-oss:20b";
    LowerUnchanged(s);
    assert s[..7] == "gpt-oss";
    assert Contains(s, "gpt-oss");
    GptOssIsOpenAI(s, env);
  }

  // ---------------------------------------------------------------------
  // Building the client

  datatype ChatClient = ChatOpenAI | ChatOllama | ChatAnthropic | ChatGoogle

  /** The constructor called, with the model and the endpoint it is given. */
  datatype LlmBuild = Built(client: ChatClient, model: string, baseUrl: Option<string>) | Refused(message: string)

  const OpenRouterUrl: string := "https://openrouter.ai/api/v1"
  const OllamaDefaultUrl: string := "http://localhost:11434"
  const DefaultModel: string := "gpt-4o-mini"

  /** `base_url` when truthy, else nothing. */
  function UrlIfGiven(baseUrl: Option<string>): Option<string> {
    if Truthy(baseUrl) then baseUrl else None
  }

  const OpenAIKeyMissing: string :=
    "OpenAI API key is required but not found. "
    + "Please set the OPENAI_API_KEY environment variable or "
    + "set LLM_PROVIDER=ollama to use Ollama instead (requires Ollama to be running locally)."
  const SupportedProviders: string := ". Supported providers: openai, ollama, anthropic, google, openrouter"

  /** `_create_openai_llm`: refused without `OPENAI_API_KEY` or an `api_key` argument. */
  function CreateOpenAI(model: string, baseUrl: Option<string>, env: Env, apiKeyArg: bool): (r: LlmBuild)
    ensures r.Refused? <==> !Truthy(Getenv(env, "OPENAI_API_KEY")) && !apiKeyArg
    ensures r.Built? ==> r == Built(ChatOpenAI, model, UrlIfGiven(baseUrl))
  {
    if !Truthy(Getenv(env, "OPENAI_API_KEY")) && !apiKeyArg then
      Refused(OpenAIKeyMissing)
    else Built(ChatOpenAI, model, UrlIfGiven(baseUrl))
  }

  /**
   * `get_llm(model_name, provider=provider, base_url=base_url)`. A missing
   * model comes from `LLM_MODEL` (default "gpt-4o-mini"), a missing provider
   * from `DetectProvider`; the provider is lower-cased and must be one of
   * the five supported ones.
   */
  function GetLlm(modelName: Option<string>, provider: Option<string>, baseUrl: Option<string>,
                  env: Env, apiKeyArg: bool): (r: LlmBuild)
    ensures var model := modelName.GetOr(GetenvOr(env, "LLM_MODEL", DefaultModel));
            var p := Lower(if provider.Some? then provider.value else DetectProvider(model, env));
            && (r.Built? ==> r.model == model)
            && (p !in {"openai", "ollama", "anthropic", "google", "openrouter"} ==> r.Refused?)
            && (p == "ollama" ==> r == Built(ChatOllama, model,
                                    Some(if Truthy(baseUrl) then baseUrl.value else GetenvOr(env, "OLLAMA_BASE_URL", OllamaDefaultUrl))))
            && (p == "anthropic" ==> r == Built(ChatAnthropic, model, UrlIfGiven(baseUrl)))
            && (p == "google" ==> r == Built(ChatGoogle, model, None))
            && (p == "openai" ==> r == CreateOpenAI(model, baseUrl, env, apiKeyArg))
            && (p == "openrouter" && !Truthy(baseUrl) ==> r == CreateOpenAI(model, Some(OpenRouterUrl), env, apiKeyArg))
  {
    var model := modelName.GetOr(GetenvOr(env, "LLM_MODEL", DefaultModel));
    var p := Lower(if provider.Some? then provider.value else DetectProvider(model, env));
    if p == "openai" then CreateOpenAI(model, baseUrl, env, apiKeyArg)
    else if p == "ollama" then
      Built(ChatOllama, model, Some(if Truthy(baseUrl) then baseUrl.value else GetenvOr(env, "OLLAMA_BASE_URL", OllamaDefaultUrl)))
    else if p == "anthropic" then Built(ChatAnthropic, model, UrlIfGiven(baseUrl))
    else if p == "google" then Built(ChatGoogle, model, None)
    else if p == "openrouter" then
      CreateOpenAI(model, if Truthy(baseUrl) then baseUrl else Some(OpenRouterUrl), env, apiKeyArg)
    else Refused("Unsupported provider: " + p + SupportedProviders)
  }

  /** OpenRouter always talks through the OpenAI client, at its own endpoint unless another is given. */
  lemma OpenRouterUsesOpenAI(model: string, baseUrl: Option<string>, env: Env)
    requires Truthy(Getenv(env, "OPENAI_API_KEY"))
    ensures GetLlm(Some(model), Some("openrouter"), baseUrl, env, false)
            == Built(ChatOpenAI, model, if Truthy(baseUrl) then baseUrl else Some(OpenRouterUrl))
  {
    var l := Lower("openrouter");
    assert forall i :: 0 <= i < |l| ==> l[i] == LowerChar("openrouter"[i]) == "openrouter"[i];
    assert l == "openrouter";
  }

  // ---------------------------------------------------------------------
  // Config fallbacks

  /** Python's `a or b or ...`: the first truthy operand, else the last one. */
  function PyOr(xs: seq<Option<string>>): Option<string>
    requires |xs| > 0
  {
    if |xs| == 1 || Truthy(xs[0]) then xs[0] else PyOr(xs[1..])
  }

  lemma {:induction false} PyOrFirstTruthy(xs: seq<Option<string>>, i: int)
    requires 0 <= i < |xs| && Truthy(xs[i])
    requires forall j :: 0 <= j < i ==> !Truthy(xs[j])
    ensures PyOr(xs) == xs[i]
  {
    if i > 0 {
      PyOrFirstTruthy(xs[1..], i - 1);
    }
  }

  lemma {:induction false} PyOrAllFalsy(xs: seq<Option<string>>)
    requires |xs| > 0 && forall j :: 0 <= j < |xs| ==> !Truthy(xs[j])
    ensures PyOr(xs) == xs[|xs| - 1]
  {
    if |xs| > 1 {
      PyOrAllFalsy(xs[1..]);
    }
  }

  /** A configuration dict: its top-level string entries and those of `analysis_config`. */
  datatype Config = Config(top: map<string, string>, analysis: map<string, string>)

  function Get(m: map<string, string>, key: string): Option<string> {
    if key in m then Some(m[key]) else None
  }

  /** The three `or`-chains of a helper: model, provider and base URL choices, in order. */
  datatype Choices = Choices(models: seq<Option<string>>, providers: seq<Option<string>>, urls: seq<Option<string>>)

  /** `get_quick_llm`'s order of preference. */
  function QuickChoices(c: Config, env: Env): Choices {
    Choices([Get(c.analysis, "quick_think_llm"), Get(c.top, "quick_think_llm"), Some(GetenvOr(env, "LLM_MODEL", DefaultModel))],
            [Get(c.top, "llm_provider"), Get(c.analysis, "llm_provider"), Getenv(env, "LLM_PROVIDER")],
            [Get(c.top, "backend_url"), Get(c.analysis, "backend_url"), None])
  }

  /** `get_deep_llm`'s order of preference. */
  function DeepChoices(c: Config, env: Env): Choices {
    Choices([Get(c.analysis, "deep_think_llm"), Get(c.top, "deep_think_llm"), Some(GetenvOr(env, "LLM_MODEL", DefaultModel))],
            [Get(c.top, "llm_provider"), Get(c.analysis, "llm_provider"), Getenv(env, "LLM_PROVIDER")],
            [Get(c.top, "backend_url"), Get(c.analysis, "backend_url"), None])
  }

  /** `get_agent_llm`'s order of preference; its last resort is "gpt-4". */
  function AgentChoices(c: Config, env: Env): Choices {
    Choices([Get(c.top, "llm_model"), Get(c.analysis, "deep_think_llm"), Some(GetenvOr(env, "LLM_MODEL", "gpt-4"))],
            [Get(c.top, "llm_provider"), Get(c.analysis, "llm_provider"), Getenv(env, "LLM_PROVIDER")],
            [Get(c.top, "backend_url"), Get(c.analysis, "backend_url"), None])
  }

  /**
   * A helper's client: each setting is the first truthy choice; the model
   * chain ends in a string, so a model is always passed.
   */
  function BuildFromChoices(ch: Choices, env: Env): (r: LlmBuild)
    requires |ch.models| == 3 && |ch.providers| == 3 && |ch.urls| == 3
    requires ch.models[2].Some?
    ensures PyOr(ch.models).Some?
    ensures r == GetLlm(PyOr(ch.models), PyOr(ch.providers), PyOr(ch.urls), env, false)
  {
    PyOrAllFalsyOrSome(ch.models);
    GetLlm(PyOr(ch.models), PyOr(ch.providers), PyOr(ch.urls), env, false)
  }

  /** An `or`-chain whose last operand is present yields something present. */
  lemma {:induction false} PyOrAllFalsyOrSome(xs: seq<Option<string>>)
    requires |xs| > 0 && xs[|xs| - 1].Some?
    ensures PyOr(xs).Some?
  {
    if |xs| > 1 && !Truthy(xs[0]) {
      PyOrAllFalsyOrSome(xs[1..]);
    }
  }

  function GetQuickLlm(c: Config, env: Env): LlmBuild { BuildFromChoices(QuickChoices(c, env), env) }
  function GetDeepLlm(c: Config, env: Env): LlmBuild { BuildFromChoices(DeepChoices(c, env), env) }
  function GetAgentLlm(c: Config, env: Env): LlmBuild { BuildFromChoices(AgentChoices(c, env), env) }

  /** The quick model: the analysis config's entry first, then the top level, then `LLM_MODEL`. */
  lemma QuickModelPreference(c: Config, env: Env)
    ensures Truthy(Get(c.analysis, "quick_think_llm")) ==> PyOr(QuickChoices(c, env).models) == Get(c.analysis, "quick_think_llm")
    ensures !Truthy(Get(c.analysis, "quick_think_llm")) && Truthy(Get(c.top, "quick_think_llm")) ==>
              PyOr(QuickChoices(c, env).models) == Get(c.top, "quick_think_llm")
    ensures !Truthy(Get(c.analysis, "quick_think_llm")) && !Truthy(Get(c.top, "quick_think_llm")) ==>
              PyOr(QuickChoices(c, env).models) == Some(GetenvOr(env, "LLM_MODEL", DefaultModel))
  {
    var xs := QuickChoices(c, env).models;
    if Truthy(xs[0]) { PyOrFirstTruthy(xs, 0); }
    else if Truthy(xs[1]) { PyOrFirstTruthy(xs, 1); }
    else {
      assert xs[1..][0] == xs[1] && xs[1..][1..] == xs[2..];
      assert PyOr(xs) == PyOr(xs[1..]) == PyOr(xs[2..]) == xs[2];
    }
  }

  /**
   * The provider of every helper: the top-level entry wins over the
   * analysis config, which wins over `LLM_PROVIDER`; when none is truthy
   * the environment's value (None, or an empty string) is passed on as it is.
   */
  lemma ProviderPreference(ch: Choices, c: Config, env: Env)
    requires ch == QuickChoices(c, env) || ch == DeepChoices(c, env) || ch == AgentChoices(c, env)
    ensures Truthy(Get(c.top, "llm_provider")) ==> PyOr(ch.providers) == Get(c.top, "llm_provider")
    ensures !Truthy(Get(c.top, "llm_provider")) && Truthy(Get(c.analysis, "llm_provider")) ==>
              PyOr(ch.providers) == Get(c.analysis, "llm_provider")
    ensures !Truthy(Get(c.top, "llm_provider")) && !Truthy(Get(c.analysis, "llm_provider")) ==>
              PyOr(ch.providers) == Getenv(env, "LLM_PROVIDER")
  {
    var xs := ch.providers;
    if Truthy(xs[0]) { PyOrFirstTruthy(xs, 0); }
    else if Truthy(xs[1]) { PyOrFirstTruthy(xs, 1); }
    else {
      assert xs[1..][0] == xs[1] && xs[1..][1..] == xs[2..];
      assert PyOr(xs) == PyOr(xs[1..]) == PyOr(xs[2..]) == xs[2];
    }
  }

  /** The base URL: top level, then the analysis config, else None; an empty one is never passed. */
  lemma UrlPreference(ch: Choices, c: Config, env: Env)
    requires ch == QuickChoices(c, env) || ch == DeepChoices(c, env) || ch == AgentChoices(c, env)
    ensures PyOr(ch.urls) == if Truthy(Get(c.top, "backend_url")) then Get(c.top, "backend_url")
                             else if Truthy(Get(c.analysis, "backend_url")) then Get(c.analysis, "backend_url")
                             else None
  {
    var xs := ch.urls;
    if Truthy(xs[0]) { PyOrFirstTruthy(xs, 0); }
    else if Truthy(xs[1]) { PyOrFirstTruthy(xs, 1); }
    else {
      assert xs[1..][0] == xs[1] && xs[1..][1..] == xs[2..];
      assert PyOr(xs) == PyOr(xs[1..]) == PyOr(xs[2..]) == xs[2];
    }
  }
}
