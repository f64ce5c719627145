# merlinCLI signal core in Dafny

A model of the deterministic core of merlinCLI: the command-line tool that turns exchange candles and
news/social text into one trading-signal bundle and then asks an LLM for a written insight. The model
covers seven pieces of that core:

- **TTL cache** (`TtlCache`, cache.dfy). The SQLite key-value table is a `map` from key to
  `(payload, expiry)`. The clock is an explicit `now` argument. `json.dumps`/`json.loads` are
  `encode`/`decode` arguments.
- **Series normaliser** (`SeriesNormalizer`, normalizer.dfy). `prepare_ohlcv` as the code runs it:
  - drop incomplete rows, sort by timestamp, keep the last row of each timestamp;
  - snap onto the grid given by the timeframe map, then forward-fill.
  
  Timestamps are integer milliseconds.
- **Indicator engine** (`Indicators`, indicators.dfy). What `compute` decides with integers and names:
  - the 20-row minimum and the adaptive window clamps;
  - the MACD window choice and the columns the frame gets;
  - `dropna`, then the forward-fill fallback, then the "no valid rows" failure;
  - the MACD column scan over the column names;
  - the snapshot with its defaults, the volume-ratio guard and the Bollinger position.
  
  Each indicator series of the library is an abstract function producing optional reals.
- **Sentiment aggregator** (`Sentiment`, sentiment.dfy). The rows of `score_documents` and the
  `_aggregate` dict. The VADER analyser is an argument.
- **Regime scorer and signal meta** (`Analysis`, analysis.dfy). `_normalize`, `_compute_regime` and the
  `meta` part of `build_signals`.
- **LLM reply post-processing** (`Insights`, insights.dfy). The provider and key choice of the client
  constructor, fence stripping and brace cutting, the two field normalisers, and the choice between
  fallback, parsed reply and stand-in reply in `generate`.
- **Environment overrides** (`Config`, config.dfy). `with_env_overrides` as a pure function of an
  environment map.

Support modules: `Wrappers` (Option/Result), `Text` (Python's `find`, `rfind`, `strip`, `lower`,
`join` and `split` on strings), `Json` (JSON values, truthiness and `dict.get`).

Two behaviours of the code as written are proved rather than assumed:

- The MACD signal is never bound. The scan only looks for the signal inside the `"MACD_" in col` test,
  and the library's signal column `MACDs_…` does not contain `MACD_`. So `macd_signal` is always 0.0
  (`Indicators.MacdScanOfFrame`, `Indicators.Compute`).
- Windows can exceed the data. `sma_long` is at least 50, so a series of 20 to 49 candles asks for a
  longer moving average than it has rows. With a library that leaves such a column undefined, no row
  is ever complete and `compute` fails with "no valid rows" (`Indicators.ShortSeriesHaveNoValidRows`).
  The window choice fits the data exactly when there are at least 50 rows
  (`Indicators.TrendWindowsFitIff`).

## Model

| member | source | states |
|---|---|---|
| TtlCache.ExpiryFor | src/merlincli/storage/cache.py:38 | no expiry exactly when the ttl is absent or zero; otherwise the expiry lies ttl seconds after `now` |
| TtlCache.Set | src/merlincli/storage/cache.py:36-44 | the key then holds the encoded value, with an expiry iff the ttl is truthy, and that expiry is `now + ttl`; the key set gains exactly that key and every other entry is unchanged |
| TtlCache.Get | src/merlincli/storage/cache.py:46-59 | a hit iff the key is present and its expiry is not both truthy and strictly before `now`; a hit returns the decoded payload; an expired key is removed and nothing else changes; a miss on an absent key leaves the table as it was |
| TtlCache.Delete | src/merlincli/storage/cache.py:61-64 | exactly the given key is removed; every other entry is kept |
| TtlCache.Clear | src/merlincli/storage/cache.py:66-69 | the table is empty afterwards |
| TtlCache.SetThenGetWithinTtl | src/merlincli/storage/cache.py:36-59 | after `set` with a non-zero ttl, a `get` at any time up to and including `now + ttl` returns the value round-tripped through the codec |
| TtlCache.SetWithoutTtlNeverExpires | src/merlincli/storage/cache.py:36-59 | with an absent or zero ttl, `get` returns the value at every later time and leaves the table unchanged |
| TtlCache.GetAfterExpiryPurges | src/merlincli/storage/cache.py:55-58 | a `get` strictly after a truthy expiry misses and removes the key |
| TtlCache.NoResurrection | src/merlincli/storage/cache.py:36-69 | once a key is gone, no sequence of `set`s of other keys, `get`s, `delete`s and `clear`s brings it back: every later `get` of it misses |
| SeriesNormalizer.FreqMinutes | src/merlincli/data/manager.py:22-31 | 1m, 5m, 15m, 1h, 4h and 1d map to 1, 5, 15, 60, 240 and 1440 minutes; any other label maps to one hour |
| SeriesNormalizer.DropIncomplete | src/merlincli/data/manager.py:14 | every complete row survives, every survivor comes from a complete row, and nothing survives iff no row is complete |
| SeriesNormalizer.SortByTime | src/merlincli/data/manager.py:15 | the result is sorted by timestamp and is a permutation of its input |
| SeriesNormalizer.DedupLast | src/merlincli/data/manager.py:16-17 | on a sorted series: strictly increasing timestamps, only input rows, the first timestamp kept and the last row kept |
| SeriesNormalizer.DedupKeepsLastOfEachRun | src/merlincli/data/manager.py:17 | the rows kept are exactly the last row of each run of equal timestamps |
| SeriesNormalizer.DedupKeepsEveryTimestamp | src/merlincli/data/manager.py:17 | every input timestamp is still present after de-duplication |
| SeriesNormalizer.DedupOfAnySort | src/merlincli/data/manager.py:14-17 | whatever order the unstable sort leaves duplicates in, one row per timestamp of the complete input rows survives, and it is one of the complete input rows |
| SeriesNormalizer.FFill | src/merlincli/data/manager.py:19 | defined slots keep their bar, a gap takes the bar of the slot before it, and nothing is missing once the first slot is defined |
| SeriesNormalizer.PrepareSorted | src/merlincli/data/manager.py:17-19 | the grid starts at the earliest timestamp, has `(last − first) div step + 1` points and is strictly increasing |
| SeriesNormalizer.PrepareOhlcv | src/merlincli/data/manager.py:12-19 | the output is empty iff no input row is complete; otherwise consecutive timestamps differ by exactly the timeframe's step |
| SeriesNormalizer.OnGridRowIsKept | src/merlincli/data/manager.py:17-18 | a de-duplicated row whose timestamp is on the grid appears unchanged at its grid point |
| SeriesNormalizer.GridPointIsLastOnGridRow | src/merlincli/data/manager.py:17-19 | each output point carries the bar of the last on-grid input row at or before it, so off-grid rows never reach the output |
| SeriesNormalizer.GapCopiesPreviousRow | src/merlincli/data/manager.py:18-19 | a grid point no input row sits on copies the bar of the previous output point |
| SeriesNormalizer.PrepareIsIdempotent | src/merlincli/data/manager.py:12-19 | normalising an already regular series, written back as complete rows, returns it unchanged |
| Indicators.ChooseTrendWindows | src/merlincli/indicators/engine.py:33-36 | each window lies in its bounds (20–50, 50–200, 10–21, 21–55), equals its linear term where the clamp is inactive and the bound it saturates at elsewhere, so every row count has its exact windows |
| Indicators.TrendWindowsFitIff | src/merlincli/indicators/engine.py:33-36 | every window fits in the series iff it has at least 50 rows |
| Indicators.ChooseMacdWindows | src/merlincli/indicators/engine.py:51-59 | (12, 26, 9) from 26 rows on; below that fast is 5 under 15 rows and n div 3 after, slow is 10 under 20 rows and n div 2 after, signal is 3 under 15 rows and n div 5 after; so from the 20-row minimum to 25 rows the windows are exactly (n div 3, n div 2, n div 5); fast < slow throughout |
| Indicators.SideWindow | src/merlincli/indicators/engine.py:63-73 | the band, volume-average and volatility window is 10 below 50 rows, n div 5 from 50 to 104 rows and 20 from 105 rows on; it fits once the 20-row minimum holds |
| Indicators.BandColumns | src/merlincli/indicators/engine.py:62-66 | the five band columns are added iff there are at least 10 rows, so always once 20 rows are required |
| Indicators.BuildColumns | src/merlincli/indicators/engine.py:38-74 | every column has one value per candle, and the frame leads with the five price columns |
| Indicators.FrameLayout | src/merlincli/indicators/engine.py:38-74 | after the price columns come `ema_21`, `ema_55`, `sma_50`, `sma_200` over the adaptive windows and `rsi_14` over 14; then `MACD_`, `MACDh_`, `MACDs_` named after the MACD windows; then the five `BB…` columns named after the side window, only from 10 rows on; last `vol_sma_20` over the volumes and `volatility_20`, both over the side window; each holds the library's output aligned to the rows |
| Indicators.FilledLastRowCompleteIff | src/merlincli/indicators/engine.py:77-79 | after forward fill the last row is complete iff no column is undefined throughout |
| Indicators.PickLatest | src/merlincli/indicators/engine.py:77-83 | the last complete raw row when there is one; otherwise the last complete forward-filled row; no row iff neither exists |
| Indicators.FindMacdColumns | src/merlincli/indicators/engine.py:86-95 | the line is the last name containing `MACD_` and neither marker, and the signal is the last name containing both `MACD_` and `MACDs_`; each is absent iff no name qualifies |
| Indicators.FindMacdOfConcat | src/merlincli/indicators/engine.py:86-95 | scanning two lists in a row gives the later list's match when it has one, else the earlier list's |
| Indicators.MacdScanOfFrame | src/merlincli/indicators/engine.py:86-95 | on the frame's own column names the line is the `MACD_…` column and the signal is never bound |
| Indicators.VolumeRatio | src/merlincli/indicators/engine.py:108-110 | volume over its average when the average is positive, 1.0 otherwise; the ratio is 1 iff volume equals the average |
| Indicators.BandPosition | src/merlincli/indicators/engine.py:136-143 | 0.0 when close or a band is missing or the two bands coincide; otherwise the close's offset from the lower band over the band width |
| Indicators.BandPositionWithinBands | src/merlincli/indicators/engine.py:140-143 | the position lies in [0, 1] whenever the close lies between the bands |
| Indicators.BollingerPosition | src/merlincli/indicators/engine.py:125-137 | 0.0 when the row has no upper band, no lower band or no close |
| Indicators.BollingerOfLastBands | src/merlincli/indicators/engine.py:125-143 | with both bands present, the position is the band position of the close between the last upper-band cell and the last lower-band cell |
| Indicators.ScanBands | src/merlincli/indicators/engine.py:127-133 | the upper band is the last cell whose name contains `BBU_`, and the lower band the last cell whose name contains `BBL_` but not `BBU_`; each is absent iff no cell qualifies |
| Indicators.Trend | src/merlincli/indicators/engine.py:98-105 | short minus long when both averages are present; a missing one is read as the close, so 0.0 when both are missing |
| Indicators.DeriveSnapshot | src/merlincli/indicators/engine.py:97-122 | price is the row's close; each trend is short minus long with a missing average read as the close; rsi, volatility, the MACD line and the signal are read from their cells, or are 50.0, 0.0, 0.0 and 0.0 when absent; the volume ratio divides volume by `vol_sma_20` (default 1.0) under the positivity guard; `bb_position` is the Bollinger position of the row |
| Indicators.Compute | src/merlincli/indicators/engine.py:19-123 | fewer than 20 rows fails naming 20 and the count; it succeeds iff there are 20 rows and a complete raw or forward-filled row; the latest row is the last complete raw row when one exists; every feature is read from that row's cells: price is its close, the trends are `ema_21 − ema_55` and `sma_50 − sma_200`, rsi is `rsi_14`, macd is the `MACD_` line, the volume ratio compares volume with `vol_sma_20`, volatility is `volatility_20`, `bb_position` is the row's Bollinger position, and `macd_signal` is 0.0 |
| Indicators.NoValidRowsIff | src/merlincli/indicators/engine.py:77-81 | `compute` fails with "no valid rows" iff there are at least 20 rows and some column is undefined throughout |
| Indicators.ShortSeriesHaveNoValidRows | src/merlincli/indicators/engine.py:33-81 | with a moving average undefined beyond the data, 20 to 49 candles always fail with "no valid rows" |
| Sentiment.TextOf | src/merlincli/sentiment/engine.py:25 | the text is empty iff the document's `text` is missing or falsy; otherwise it is that string |
| Sentiment.RowOf | src/merlincli/sentiment/engine.py:27-30 | the row has the document's keys plus the four score keys; the scores override same-named fields and every other field is kept |
| Sentiment.AggregateScores | src/merlincli/sentiment/engine.py:35-41 | empty input gives zeros, buzz 0 and no bias; otherwise each axis is the mean of its scores, buzz is the count and bias is pos − neg |
| Sentiment.ScoreDocuments | src/merlincli/sentiment/engine.py:22-33 | one row per document in input order, each scored on its text; the aggregate is `_aggregate` of exactly those scores, in the same order, so buzz equals the document count and bias is present iff there is a document |
| Sentiment.AggregateCompoundWithinUnit | src/merlincli/sentiment/engine.py:38 | when every compound score is in [−1, 1], so is the aggregate compound |
| Sentiment.BiasIsMeanOfDifferences | src/merlincli/sentiment/engine.py:38-40 | the bias equals the mean over documents of pos − neg |
| Sentiment.AggregateFields | src/merlincli/sentiment/engine.py:37-40 | the dict has the four axes and buzz, plus bias exactly when the aggregate has one; each key holds the aggregate's value, with buzz as a number |
| Analysis.Normalize | src/merlincli/analysis/engine.py:66-68 | the result lies in [−1, 1], equals value/1000 inside ±1000 and saturates outside |
| Analysis.NormalizeMonotone | src/merlincli/analysis/engine.py:66-68 | the clamp is non-decreasing |
| Analysis.Classify | src/merlincli/analysis/engine.py:51-55 | LONG iff composite > 0.2, SHORT iff composite < −0.2, NEUTRAL iff it lies in [−0.2, 0.2] |
| Analysis.ComputeRegime | src/merlincli/analysis/engine.py:44-64 | each component from its `get` default, trend in [−1, 1], momentum in [−1, 1] for an rsi in [0, 100], the weighted composite, and the exclusive thresholds applied to the unrounded composite |
| Analysis.DefaultsAreNeutral | src/merlincli/analysis/engine.py:45-55 | with every key absent the composite is 0 and the call is NEUTRAL |
| Analysis.RegimeMonotone | src/merlincli/analysis/engine.py:45-55 | raising trend, rsi, macd bias, volume ratio or compound never lowers the composite or the call (SHORT < NEUTRAL < LONG) |
| Analysis.SnapshotFields | src/merlincli/indicators/engine.py:112-122 | the snapshot dict has exactly the nine feature keys with the snapshot's values |
| Analysis.BuildSignals | src/merlincli/analysis/engine.py:30-42 | meta price is the snapshot price, market fields come from the config, and the latest timestamp is `""` when no row is complete, else that row's timestamp |
| Analysis.SignalsOfComputed | src/merlincli/analysis/engine.py:30-42 | on a computed bundle, meta price is the close of the latest complete candle, the macd bias is the bare macd, and the timestamp is that candle's |
| Config.DefaultConfig | src/merlincli/config.py:11-54 | the default market, sentiment source, LLM settings and storage paths |
| Config.FixKeyEnv | src/merlincli/config.py:65-66 | a gemini provider, in any case, with key env `OPENAI_API_KEY` gets `GEMINI_API_KEY`; every other key env is kept |
| Config.WithEnvOverrides | src/merlincli/config.py:56-71 | each overridable field takes the env value whenever it is set (even to `""`), else its default; the receiver is ignored; `limit` stays 500; a non-empty cache dir moves the sqlite path under it |
| Config.EmptyEnvGivesDefaults | src/merlincli/config.py:56-71 | an empty environment gives the default configuration |
| Config.GeminiNeverUsesOpenAiKey | src/merlincli/config.py:62-66 | a gemini configuration never keeps `OPENAI_API_KEY` as its key env |
| Config.OverridesIgnoreReceiver | src/merlincli/config.py:56-71 | the overrides start from fresh defaults and never read the configuration they are called on: any two receivers give the same result under the same environment |
| Insights.SetupClient | src/merlincli/insights/llm_client.py:36-53 | the provider is the lower-cased name with `openai` for an empty one; gemini with an empty or OpenAI key env reads `GEMINI_API_KEY`; a client exists iff the key is non-empty and the provider's SDK is present |
| Insights.DefaultSetupUsesGeminiKey | src/merlincli/insights/llm_client.py:36-53 | without provider or key-env overrides, the client is gemini reading `GEMINI_API_KEY`, and it exists iff that key is set and non-empty and the SDK is present |
| Insights.Unfence | src/merlincli/insights/llm_client.py:163-172 | a json fence with a later closing fence gives the stripped text between the first fence and the last one; likewise for a bare fence; a fence with no later fence, or no fence at all, leaves the text as it is; the result is always a substring |
| Insights.LoneFenceUnchanged | src/merlincli/insights/llm_client.py:163-172 | text with at most one fence marker is left unchanged |
| Insights.CutBraces | src/merlincli/insights/llm_client.py:174-178 | text starting with `{` passes through; otherwise, from the first `{` to the last `}` inclusive when that `}` is not earlier; the result is always a substring |
| Insights.CutBracesIdempotent | src/merlincli/insights/llm_client.py:174-178 | cutting twice equals cutting once |
| Insights.CleanReply | src/merlincli/insights/llm_client.py:161-178 | the cleaned text is a substring of the stripped reply |
| Insights.PlainObjectPassesThrough | src/merlincli/insights/llm_client.py:161-178 | a stripped reply that starts with `{` and has no fence is passed to the parser unchanged |
| Insights.NormalizeRisks | src/merlincli/insights/llm_client.py:206-221 | a string is kept; a list gives one `- item` line per element and a dict one `key: value` line per entry, joined by newlines; any other truthy value gives its `str()`, and a falsy one `""` |
| Insights.RiskListLines | src/merlincli/insights/llm_client.py:210-211 | splitting the normalised list of single-line strings at newlines gives back `- item` for each item in order |
| Insights.NormalizeKeyLevels | src/merlincli/insights/llm_client.py:223-255 | a falsy input gives `[]`; a list gives one line per item in order; any other truthy value gives one line |
| Insights.LoneValueIsOneLevel | src/merlincli/insights/llm_client.py:228 | a lone dict (or other truthy non-list) is treated as a one-element list |
| Insights.StringLevelsUnchanged | src/merlincli/insights/llm_client.py:228-230 | a list of strings comes back unchanged |
| Insights.FirstTruthy | src/merlincli/insights/llm_client.py:234-242 | the value under the first key whose value is truthy; the last default when no key holds a truthy value |
| Insights.KeyLevelLine | src/merlincli/insights/llm_client.py:229-254 | a string item is kept; a dict gives `type: value`, followed by ` - description` when the first truthy description is not blank; any other item gives its `str()` |
| Insights.NumericLevelLine | src/merlincli/insights/llm_client.py:234-250 | a dict with a type and a non-zero numeric value and no description reads `type: ` and the grouped value |
| Insights.FallbackInsight | src/merlincli/insights/llm_client.py:257-268 | the regime's recommendation, a hint naming the provider's key, the fixed "LLM client not configured" rationale, the prompt as raw text and two key levels: the price and `200-period SMA` |
| Insights.InsightFromData | src/merlincli/insights/llm_client.py:190-204 | a non-dict reply is an error; otherwise raw text is the reply, risks and levels are normalised, and recommendation and rationale are the reply's own values under those keys, defaulting to `NEUTRAL` and the reply text |
| Insights.Generate | src/merlincli/insights/llm_client.py:78-204 | no client or an empty reply gives the fallback; otherwise the insight is read off the parsed or stand-in dict |
| Insights.UnparsableReplyFallsBack | src/merlincli/insights/llm_client.py:180-204 | an unparseable reply yields the regime's recommendation, the reply as rationale and raw text, the fixed risk text and no key levels |
| Json.Lookup | src/merlincli/insights/llm_client.py:191-200 | `get` finds a value iff some entry has the key, and the value found is stored under it |
| Json.LookupOr | src/merlincli/insights/llm_client.py:191-200 | `get` with a default: the stored value when the key is present, else the default |
| Json.LookupFirst | src/merlincli/insights/llm_client.py:191-200 | the first entry under a key is the one found |
| Text.Strip | src/merlincli/insights/llm_client.py:161 | the result is a slice of the input with only whitespace outside it and none at its ends, so exactly the leading and trailing whitespace is removed; whitespace is every character `str.isspace` accepts |
| Text.SplitJoin | src/merlincli/insights/llm_client.py:211 | splitting a newline-joined list of newline-free parts gives the parts back |

## Left out

- Indicator numerics: the EMA, SMA, RSI, MACD, Bollinger bands and rolling volatility of pandas_ta are
  float computations in a foreign library. Each column is an abstract `Library` function from closes
  (or volumes) and a window to optional reals.
- VADER scoring is a foreign lexicon model. The per-document scorer is an argument.
- Float formatting: the `:,.2f` and `:.2f` f-strings depend on float representation. They are the
  `grouped` and `fixed` functions of a `Codec`. `round(…, 3)` is not modelled (see the next line).
- Floating-point arithmetic: every computation the model does itself is on exact reals where Python
  uses doubles. This covers Analysis.Normalize, the weighted composite of Analysis.ComputeRegime, the
  sentiment means, Indicators.VolumeRatio and Indicators.BandPosition. Results can differ by rounding.
  In particular a composite that sits exactly on the ±0.2 thresholds in real arithmetic can fall on the
  other side in doubles: components 0.1, 0.1, 0.5, 0.1 and 0.3 give exactly 0.2 (NEUTRAL) in the model,
  while the double sum is 0.20000000000000004 (LONG).
- Analysis.ComputeRegime: the regime fields are the unrounded values. The code rounds each to three
  decimals for output, and only the LONG/SHORT/NEUTRAL choice uses the unrounded composite.
- `json.loads`, `json.dumps` and `str()` of JSON values are opaque `Codec` functions. A parse failure is
  `None`.
- Json.Lookup: a JSON object stands for a dict as `json.loads` builds it, with one entry per key (a
  repeated key in the text keeps its last value). Distinct keys are not enforced. On an object with a
  repeated key, `Lookup` returns the first entry where Python holds the last value.
- SQLite connections, table creation, `mkdir` and the re-entrant lock are I/O and concurrency. The
  table is a value.
- A payload that fails to decode is not modelled: `decode` is total.
- The LLM network calls and the Gemini retry and rate-limit exception path (llm_client.py lines 83-153)
  go through provider SDKs. The reply text is an argument, and SDK presence is a flag.
- `build_prompt` is a `json.dumps` of a fixed instruction. The prompt is an argument.
- The pipeline, dashboard and CLI modules, and the market and news clients, are glue, presentation and
  network I/O.
- Text.Lower: `str.lower` is modelled on ASCII letters only. Unicode case mapping is not.
- Config.WithEnvOverrides: `Path(…).expanduser()` is the `expand` argument, and `/` on paths is a
  string join without normalisation.
- SeriesNormalizer.SortByTime: pandas' default sort is not stable. The model's stable insertion sort is
  one admissible order, and `DedupOfAnySort` states the de-duplication facts for every sorted
  permutation.
- Indicators.BuildColumns: the function's own contract fixes the shape and the price columns. The
  position, name and library call of every indicator column is stated by the lemma `FrameLayout`. It is
  kept out of the function's contract so that every proof that mentions the frame does not carry it.
- Sentiment.ScoreDocuments: a document whose truthy `text` is not a string is excluded by the
  precondition, because what the analyser does with it is foreign behaviour.
- TtlCache.Replay: the contract only fixes one answer per call. Its meaning is stated through
  `NoResurrection`.
