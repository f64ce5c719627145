/**
 * The regime scorer and the signal bundle (analysis/engine.py). The
 * technical snapshot and the sentiment aggregate are read as dicts of
 * reals with `get` defaults; `isoformat` of a row's timestamp is an
 * argument.
 */
module Analysis {
  import opened Wrappers
  import opened SeriesNormalizer
  import opened Indicators
  import opened Sentiment
  import opened Config

  type Fields = map<string, real>

  datatype Recommendation = Long | Short | Neutral

  /** The label the regime carries. */
  function Label(r: Recommendation): string
  {
    match r
    case Long => "LONG"
    case Short => "SHORT"
    case Neutral => "NEUTRAL"
  }

  const MaxAbs: real := 1000.0

  /** `_normalize`: the value over 1000, clamped to `[-1, 1]`. */
  function Normalize(value: real): (r: real)
    ensures -1.0 <= r <= 1.0
    ensures -MaxAbs <= value <= MaxAbs ==> r * MaxAbs == value
    ensures value >= MaxAbs ==> r == 1.0
    ensures value <= -MaxAbs ==> r == -1.0
  {
    var q := value / MaxAbs;
    if q > 1.0 then 1.0 else if q < -1.0 then -1.0 else q
  }

  lemma NormalizeMonotone(a: real, b: real)
    requires a <= b
    ensures Normalize(a) <= Normalize(b)
  {
    assert a / MaxAbs <= b / MaxAbs;
  }

  /** The regime: the composite, its five components and the recommendation (unrounded). */
  datatype Regime = Regime(composite: real, trendScore: real, momentum: real, sentiment: real,
                           volumePressure: real, macdBias: real, recommendation: Recommendation)

  /** The exclusive ±0.2 thresholds. */
  function Classify(composite: real): (r: Recommendation)
    ensures r == Long <==> composite > 0.2
    ensures r == Short <==> composite < -0.2
    ensures r == Neutral <==> -0.2 <= composite <= 0.2
  {
    if composite > 0.2 then Long else if composite < -0.2 then Short else Neutral
  }

  /** The order LONG > NEUTRAL > SHORT. */
  function Rank(r: Recommendation): int
  {
    match r
    case Short => -1
    case Neutral => 0
    case Long => 1
  }

  /** `_compute_regime`. */
  function ComputeRegime(tech: Fields, sentiment: Fields): (r: Regime)
    ensures r.trendScore == Normalize(DictGet(tech, "ema_trend", 0.0) + DictGet(tech, "sma_trend", 0.0))
    ensures -1.0 <= r.trendScore <= 1.0
    ensures r.momentum * 50.0 == DictGet(tech, "rsi", 50.0) - 50.0
    ensures 0.0 <= DictGet(tech, "rsi", 50.0) <= 100.0 ==> -1.0 <= r.momentum <= 1.0
    ensures r.macdBias == DictGet(tech, "macd", 0.0) - DictGet(tech, "macd_signal", 0.0)
    ensures r.volumePressure == DictGet(tech, "volume_ratio", 1.0) - 1.0
    ensures r.sentiment == DictGet(sentiment, "compound", 0.0)
    ensures r.composite == 0.4 * r.trendScore + 0.2 * r.momentum + 0.2 * r.sentiment
                           + 0.1 * r.macdBias + 0.1 * r.volumePressure
    ensures r.recommendation == Long <==> r.composite > 0.2
    ensures r.recommendation == Short <==> r.composite < -0.2
  {
    var trend := Normalize(DictGet(tech, "ema_trend", 0.0) + DictGet(tech, "sma_trend", 0.0));
    var momentum := (DictGet(tech, "rsi", 50.0) - 50.0) / 50.0;
    var macdBias := DictGet(tech, "macd", 0.0) - DictGet(tech, "macd_signal", 0.0);
    var volPressure := DictGet(tech, "volume_ratio", 1.0) - 1.0;
    var sent := DictGet(sentiment, "compound", 0.0);
    var composite := 0.4 * trend + 0.2 * momentum + 0.2 * sent + 0.1 * macdBias + 0.1 * volPressure;
    Regime(composite, trend, momentum, sent, volPressure, macdBias, Classify(composite))
  }

  /** With every key absent the defaults cancel out: composite 0 and NEUTRAL. */
  lemma DefaultsAreNeutral()
    ensures ComputeRegime(map[], map[]).composite == 0.0
    ensures ComputeRegime(map[], map[]).recommendation == Neutral
  {
  }

  /**
   * The composite, and with it the recommendation, never falls when the
   * summed trends, the RSI, the compound score, the MACD bias or the volume
   * ratio rises with the rest held no lower.
   */
  lemma RegimeMonotone(tech1: Fields, sent1: Fields, tech2: Fields, sent2: Fields)
    requires DictGet(tech1, "ema_trend", 0.0) + DictGet(tech1, "sma_trend", 0.0)
             <= DictGet(tech2, "ema_trend", 0.0) + DictGet(tech2, "sma_trend", 0.0)
    requires DictGet(tech1, "rsi", 50.0) <= DictGet(tech2, "rsi", 50.0)
    requires DictGet(tech1, "macd", 0.0) - DictGet(tech1, "macd_signal", 0.0)
             <= DictGet(tech2, "macd", 0.0) - DictGet(tech2, "macd_signal", 0.0)
    requires DictGet(tech1, "volume_ratio", 1.0) <= DictGet(tech2, "volume_ratio", 1.0)
    requires DictGet(sent1, "compound", 0.0) <= DictGet(sent2, "compound", 0.0)
    ensures ComputeRegime(tech1, sent1).composite <= ComputeRegime(tech2, sent2).composite
    ensures Rank(ComputeRegime(tech1, sent1).recommendation) <= Rank(ComputeRegime(tech2, sent2).recommendation)
  {
    NormalizeMonotone(DictGet(tech1, "ema_trend", 0.0) + DictGet(tech1, "sma_trend", 0.0),
                      DictGet(tech2, "ema_trend", 0.0) + DictGet(tech2, "sma_trend", 0.0));
  }

  /** The snapshot as the dict the scorer reads. */
  function SnapshotFields(s: Snapshot): (m: Fields)
    ensures m.Keys == {"price", "ema_trend", "sma_trend", "rsi", "macd", "macd_signal", "bb_position",
                       "volume_ratio", "volatility"}
    ensures m["price"] == s.price && m["ema_trend"] == s.emaTrend && m["sma_trend"] == s.smaTrend
    ensures m["rsi"] == s.rsi && m["macd"] == s.macd && m["macd_signal"] == s.macdSignal
    ensures m["bb_position"] == s.bbPosition && m["volume_ratio"] == s.volumeRatio && m["volatility"] == s.volatility
  {
    map["price" := s.price, "ema_trend" := s.emaTrend, "sma_trend" := s.smaTrend, "rsi" := s.rsi,
        "macd" := s.macd, "macd_signal" := s.macdSignal, "bb_position" := s.bbPosition,
        "volume_ratio" := s.volumeRatio, "volatility" := s.volatility]
  }

  datatype Meta = Meta(symbol: string, exchange: string, timeframe: string, latestTimestamp: string, price: real)

  datatype SignalBundle = SignalBundle(meta: Meta, technicals: Fields, sentiment: Fields, regime: Regime)

  /** `build_signals`: the meta record, the two inputs as dicts, and the regime. */
  function BuildSignals(market: MarketConfig, bundle: IndicatorBundle, aggregate: Aggregate,
                        isoformat: int -> string): (b: SignalBundle)
    ensures b.meta.price == bundle.snapshot.price
    ensures b.meta.symbol == market.symbol && b.meta.exchange == market.exchange && b.meta.timeframe == market.timeframe
    ensures LastCompleteBelow(bundle.frame.columns, |bundle.frame.timestamps|).None? ==> b.meta.latestTimestamp == ""
    ensures LastCompleteBelow(bundle.frame.columns, |bundle.frame.timestamps|).Some? ==>
              b.meta.latestTimestamp
              == isoformat(bundle.frame.timestamps[LastCompleteBelow(bundle.frame.columns, |bundle.frame.timestamps|).value])
    ensures b.regime.sentiment == aggregate.compound
    ensures b.regime.macdBias == bundle.snapshot.macd - bundle.snapshot.macdSignal
  {
    var tech := SnapshotFields(bundle.snapshot);
    var sentiment := AggregateFields(aggregate);
    var latest := LastCompleteBelow(bundle.frame.columns, |bundle.frame.timestamps|);
    var latestTs := if latest.Some? then isoformat(bundle.frame.timestamps[latest.value]) else "";
    SignalBundle(Meta(market.symbol, market.exchange, market.timeframe, latestTs, tech["price"]),
                 tech, sentiment, ComputeRegime(tech, sentiment))
  }

  /**
   * On the engine's own output, the bundle's MACD bias is the MACD line
   * itself (the signal is never found), and when a row of the frame is
   * complete before forward filling, the reported timestamp is that of
   * the row the snapshot came from.
   */
  lemma SignalsOfComputed(candles: seq<Candle>, lib: Library, market: MarketConfig, aggregate: Aggregate,
                          isoformat: int -> string)
    requires Compute(candles, lib).Success?
    ensures var bundle := Compute(candles, lib).value;
            var b := BuildSignals(market, bundle, aggregate, isoformat);
            && b.regime.macdBias == bundle.snapshot.macd
            && b.meta.price == candles[bundle.latestRow].bar.close
            && (LastCompleteBelow(BuildColumns(candles, lib), |candles|).Some? ==>
                  b.meta.latestTimestamp == isoformat(candles[bundle.latestRow].timestamp))
  {
    var bundle := Compute(candles, lib).value;
    assert bundle.snapshot.macdSignal == 0.0;
    assert bundle.frame.columns == BuildColumns(candles, lib) && |bundle.frame.timestamps| == |candles|;
  }
}
