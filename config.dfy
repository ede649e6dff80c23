/**
 * The research agent's configuration record (`ResearchAgentConfig`) with its
 * defaults and its `validate` rule.
 */
module Config {
  import opened Wrappers
  import opened Text

  /**
   * The configuration fields. The float `content_relevance_threshold` is not
   * modelled; the integer settings are natural numbers.
   */
  datatype ResearchAgentConfig = ResearchAgentConfig(
    demoMode: bool,
    queryGeneratorModel: string,
    webSearcherModel: string,
    reflectionModel: string,
    answerModel: string,
    initialQueriesCount: nat,
    maxResearchLoops: nat,
    maxSourcesPerQuery: nat,
    searchTimeoutSeconds: nat,
    parallelSearchLimit: nat,
    minSourcesForSufficiency: nat,
    openaiApiKey: string)
  {
    /**
     * `validate()`: in demo mode no key is needed; otherwise the key must
     * have a character that is not whitespace.
     */
    function Validate(): (ok: bool)
      ensures demoMode ==> ok
      ensures !demoMode ==> (ok <==> exists i :: 0 <= i < |openaiApiKey| && !IsSpace(openaiApiKey[i]))
      ensures !demoMode && IsBlank(openaiApiKey) ==> !ok
    {
      if demoMode then true
      else Strip(openaiApiKey) != []
    }
  }

  /**
   * The `DEMO_MODE` environment rule: demo mode is on unless the variable is
   * set to something other than "true" (compared case-insensitively).
   */
  function DemoModeFromEnv(env: Option<string>): (on: bool)
    ensures env.None? ==> on
    ensures env.Some? && env.value == "false" ==> !on
  {
    Lower(env.GetOr("true")) == "true"
  }

  /**
   * A configuration built from the dataclass defaults; the two settings the
   * source reads from the environment are parameters.
   */
  function Defaults(demoEnv: Option<string>, apiKey: string): (c: ResearchAgentConfig)
    ensures c.initialQueriesCount == 3 && c.maxResearchLoops == 2
    ensures c.maxSourcesPerQuery == 10 && c.minSourcesForSufficiency == 5
    ensures c.searchTimeoutSeconds == 30 && c.parallelSearchLimit == 5
    ensures c.demoMode == DemoModeFromEnv(demoEnv) && c.openaiApiKey == apiKey
    ensures c.webSearcherModel == "gpt-4o-search-preview"
    ensures c.reflectionModel == "o4-mini" && c.answerModel == "o4-mini"
  {
    ResearchAgentConfig(
      demoMode := DemoModeFromEnv(demoEnv),
      queryGeneratorModel := "gpt-4o-mini-search-preview-2025-03-11",
      webSearcherModel := "gpt-4o-search-preview",
      reflectionModel := "o4-mini",
      answerModel := "o4-mini",
      initialQueriesCount := 3,
      maxResearchLoops := 2,
      maxSourcesPerQuery := 10,
      searchTimeoutSeconds := 30,
      parallelSearchLimit := 5,
      minSourcesForSufficiency := 5,
      openaiApiKey := apiKey)
  }
}
