/**
 * The pipeline configuration and its environment overrides (config.py).
 * The process environment is an explicit map; `Path.expanduser` is the
 * `expand` argument, and a path join is `dir + "/" + name`.
 */
module Config {
  import opened Wrappers
  import opened Text

  datatype MarketConfig = MarketConfig(exchange: string, symbol: string, timeframe: string, limit: int)

  datatype SentimentSource = SentimentSource(name: string, endpoint: Option<string>, apiKeyEnv: Option<string>)

  datatype SentimentConfig = SentimentConfig(sources: seq<SentimentSource>, windowHours: int)

  datatype LlmConfig = LlmConfig(provider: string, model: string, apiKeyEnv: string, maxTokens: int, temperature: real)

  datatype StorageConfig = StorageConfig(cacheDir: string, sqlitePath: string)

  datatype PipelineConfig = PipelineConfig(market: MarketConfig, sentiment: SentimentConfig,
                                           llm: LlmConfig, storage: StorageConfig)

  type Env = map<string, string>

  const SqliteName := "merlin_cache.sqlite3"

  /** `dir / name` for a path. */
  function JoinPath(dir: string, name: string): string
  {
    dir + "/" + name
  }

  /** The storage defaults: the expanded home cache directory and the database file inside it. */
  function DefaultStorage(expand: string -> string): (s: StorageConfig)
    ensures s.sqlitePath == JoinPath(s.cacheDir, SqliteName)
  {
    var dir := expand("~/.cache/merlincli");
    StorageConfig(dir, JoinPath(dir, SqliteName))
  }

  /** `PipelineConfig()`: every field at its declared default. */
  function DefaultConfig(expand: string -> string): (c: PipelineConfig)
    ensures c.market == MarketConfig("binance", "BTC/USDT", "15m", 500)
    ensures c.sentiment == SentimentConfig([SentimentSource("cryptopanic", None, None)], 24)
    ensures c.llm == LlmConfig("gemini", "gemini-2.5-pro", "GEMINI_API_KEY", 15000, 0.3)
    ensures c.storage == DefaultStorage(expand)
  {
    PipelineConfig(
      MarketConfig("binance", "BTC/USDT", "15m", 500),
      SentimentConfig([SentimentSource("cryptopanic", None, None)], 24),
      LlmConfig("gemini", "gemini-2.5-pro", "GEMINI_API_KEY", 15000, 0.3),
      DefaultStorage(expand))
  }

  /** A gemini provider, in any letter case, never keeps the OpenAI key variable. */
  function FixKeyEnv(provider: string, keyEnv: string): (k: string)
    ensures Lower(provider) == "gemini" && keyEnv == "OPENAI_API_KEY" ==> k == "GEMINI_API_KEY"
    ensures !(Lower(provider) == "gemini" && keyEnv == "OPENAI_API_KEY") ==> k == keyEnv
  {
    if Lower(provider) == "gemini" && keyEnv == "OPENAI_API_KEY" then "GEMINI_API_KEY" else keyEnv
  }

  /**
   * `with_env_overrides`: built from fresh defaults (the receiver is not
   * read), six string fields taken from the environment when set, the key
   * variable fixed for gemini, and the cache paths moved by a non-empty
   * `MERLIN_CACHE_DIR`.
   */
  function WithEnvOverrides(self: PipelineConfig, env: Env, expand: string -> string): (c: PipelineConfig)
    ensures c.market.exchange == DictGet(env, "MERLIN_EXCHANGE", "binance")
    ensures c.market.symbol == DictGet(env, "MERLIN_SYMBOL", "BTC/USDT")
    ensures c.market.timeframe == DictGet(env, "MERLIN_TIMEFRAME", "15m")
    ensures c.market.limit == 500
    ensures c.llm.provider == DictGet(env, "MERLIN_LLM_PROVIDER", "gemini")
    ensures c.llm.model == DictGet(env, "MERLIN_LLM_MODEL", "gemini-2.5-pro")
    ensures c.llm.apiKeyEnv == FixKeyEnv(c.llm.provider, DictGet(env, "MERLIN_LLM_KEY_ENV", "GEMINI_API_KEY"))
    ensures c.llm.maxTokens == 15000 && c.llm.temperature == 0.3
    ensures c.sentiment == DefaultConfig(expand).sentiment
    ensures "MERLIN_CACHE_DIR" in env && env["MERLIN_CACHE_DIR"] != "" ==>
              c.storage == StorageConfig(expand(env["MERLIN_CACHE_DIR"]), JoinPath(expand(env["MERLIN_CACHE_DIR"]), SqliteName))
    ensures !("MERLIN_CACHE_DIR" in env && env["MERLIN_CACHE_DIR"] != "") ==> c.storage == DefaultStorage(expand)
    ensures c.storage.sqlitePath == JoinPath(c.storage.cacheDir, SqliteName)
  {
    var d := DefaultConfig(expand);
    var market := d.market.(
      exchange := DictGet(env, "MERLIN_EXCHANGE", d.market.exchange),
      symbol := DictGet(env, "MERLIN_SYMBOL", d.market.symbol),
      timeframe := DictGet(env, "MERLIN_TIMEFRAME", d.market.timeframe));
    var provider := DictGet(env, "MERLIN_LLM_PROVIDER", d.llm.provider);
    var llm := d.llm.(
      provider := provider,
      model := DictGet(env, "MERLIN_LLM_MODEL", d.llm.model),
      apiKeyEnv := FixKeyEnv(provider, DictGet(env, "MERLIN_LLM_KEY_ENV", d.llm.apiKeyEnv)));
    var storage :=
      if "MERLIN_CACHE_DIR" in env && env["MERLIN_CACHE_DIR"] != "" then
        var dir := expand(env["MERLIN_CACHE_DIR"]);
        StorageConfig(dir, JoinPath(dir, SqliteName))
      else d.storage;
    PipelineConfig(market, d.sentiment, llm, storage)
  }

  /** With none of the variables set, the overrides give back the defaults. */
  lemma EmptyEnvGivesDefaults(self: PipelineConfig, expand: string -> string)
    ensures WithEnvOverrides(self, map[], expand) == DefaultConfig(expand)
  {
    assert Lower("gemini") == "gemini";
  }

  /** After the overrides a gemini provider never reads the OpenAI key variable. */
  lemma GeminiNeverUsesOpenAiKey(self: PipelineConfig, env: Env, expand: string -> string)
    ensures var c := WithEnvOverrides(self, env, expand);
            Lower(c.llm.provider) == "gemini" ==> c.llm.apiKeyEnv != "OPENAI_API_KEY"
  {
  }

  /**
   * The overrides never read the receiver: they start from fresh defaults, so
   * any two configurations give the same result under the same environment.
   */
  lemma OverridesIgnoreReceiver(a: PipelineConfig, b: PipelineConfig, env: Env, expand: string -> string)
    ensures WithEnvOverrides(a, env, expand) == WithEnvOverrides(b, env, expand)
  {
  }
}
