/**
 * The indicator engine (indicators/engine.py): the integer rules that pick
 * the adaptive windows, the error cases, the frame cleaning, the
 * name-matching lookup of the MACD columns and the derivation of the
 * snapshot from the latest complete row.
 *
 * The indicator numerics (EMA, SMA, RSI, MACD, Bollinger bands, rolling
 * volatility) come from a library and are abstract here: a `Library` value
 * supplies each indicator as a column of optional reals. Generated column
 * names follow the library's convention (`MACD_12_26_9`, `MACDh_…`,
 * `MACDs_…`, `BBL_20_2.0`, `BBM_…`, `BBU_…`, `BBB_…`, `BBP_…`).
 */
module Indicators {
  import opened Wrappers
  import opened Text
  import opened SeriesNormalizer

  /** The fewest candles `compute` accepts. */
  const MinRows: nat := 20
  /** The fixed RSI length. */
  const RsiLength: nat := 14

  /** `min(hi, max(lo, x))`. */
  function Clamp(lo: int, hi: int, x: int): (r: int)
    requires lo <= hi
    ensures lo <= r <= hi
    ensures lo <= x <= hi ==> r == x
    ensures x < lo ==> r == lo
    ensures x > hi ==> r == hi
  {
    if x < lo then lo else if x > hi then hi else x
  }

  /** The four adaptive moving-average windows. */
  datatype TrendWindows = TrendWindows(smaShort: nat, smaLong: nat, emaShort: nat, emaLong: nat)

  /** The trend windows for `n` rows (`//` on a non-negative count is Dafny's `/`). */
  function ChooseTrendWindows(n: nat): (w: TrendWindows)
    ensures 20 <= w.smaShort <= 50 && 50 <= w.smaLong <= 200
    ensures 10 <= w.emaShort <= 21 && 21 <= w.emaLong <= 55
    ensures 60 <= n <= 210 ==> w.smaLong == n - 10
    ensures 80 <= n < 204 ==> w.smaShort == n / 4
    ensures 40 <= n < 88 ==> w.emaShort == n / 4
    ensures 42 <= n < 112 ==> w.emaLong == n / 2
    ensures n < 80 ==> w.smaShort == 20
    ensures n >= 204 ==> w.smaShort == 50
    ensures n < 60 ==> w.smaLong == 50
    ensures n > 210 ==> w.smaLong == 200
    ensures n < 40 ==> w.emaShort == 10
    ensures n >= 88 ==> w.emaShort == 21
    ensures n < 42 ==> w.emaLong == 21
    ensures n >= 112 ==> w.emaLong == 55
  {
    TrendWindows(Clamp(20, 50, n / 4), Clamp(50, 200, n - 10), Clamp(10, 21, n / 4), Clamp(21, 55, n / 2))
  }

  /** Every trend window fits in `n` rows exactly when there are at least 50 rows. */
  lemma TrendWindowsFitIff(n: nat)
    ensures (var w := ChooseTrendWindows(n);
             w.smaShort <= n && w.smaLong <= n && w.emaShort <= n && w.emaLong <= n) <==> n >= 50
  {
    var w := ChooseTrendWindows(n);
    if n >= 50 {
      assert w.smaLong <= n;
    } else {
      assert w.smaLong == 50;
    }
  }

  /** The three MACD windows. */
  datatype MacdWindows = MacdWindows(fast: nat, slow: nat, signal: nat)

  /** The MACD windows: the standard (12, 26, 9) from 26 rows on, else shrunk and clamped. */
  function ChooseMacdWindows(n: nat): (w: MacdWindows)
    ensures n >= 26 ==> w == MacdWindows(12, 26, 9)
    ensures n < 26 ==> 5 <= w.fast <= 8 && 10 <= w.slow <= 12 && 3 <= w.signal <= 5
    ensures MinRows <= n < 26 ==> w == MacdWindows(n / 3, n / 2, n / 5)
    ensures n < 15 ==> w.fast == 5 && w.signal == 3
    ensures 15 <= n < 26 ==> w.fast == n / 3 && w.signal == n / 5
    ensures n < 20 ==> w.slow == 10
    ensures 20 <= n < 26 ==> w.slow == n / 2
    ensures w.fast < w.slow
  {
    if n >= 26 then MacdWindows(12, 26, 9)
    else MacdWindows(Clamp(5, 12, n / 3), Clamp(10, 26, n / 2), Clamp(3, 9, n / 5))
  }

  /** The window shared by the bands, the volume average and the volatility. */
  function SideWindow(n: nat): (w: nat)
    ensures 10 <= w <= 20
    ensures 50 <= n < 105 ==> w == n / 5
    ensures n < 50 ==> w == 10
    ensures n >= 105 ==> w == 20
    ensures n >= MinRows ==> w <= n
  {
    Clamp(10, 20, n / 5)
  }

  /** One indicator column as the library returns it: a value per row, or none where undefined. */
  type Values = seq<Option<real>>

  /** The three MACD outputs. */
  datatype MacdLines = MacdLines(line: Values, histogram: Values, signal: Values)

  /** The five band outputs. */
  datatype BandLines = BandLines(lower: Values, mid: Values, upper: Values, bandwidth: Values, percent: Values)

  /** The indicator library: each indicator as a function of its input series and windows. */
  datatype Library = Library(
    ema: (seq<real>, nat) -> Values,
    sma: (seq<real>, nat) -> Values,
    rsi: (seq<real>, nat) -> Values,
    macd: (seq<real>, nat, nat, nat) -> MacdLines,
    bbands: (seq<real>, nat) -> BandLines,
    volatility: (seq<real>, nat) -> Values)

  /** A named column of the indicator frame. */
  datatype Column = Column(name: string, values: Values)

  /** The indicator frame: one timestamp per row and the columns in order. */
  datatype Frame = Frame(timestamps: seq<int>, columns: seq<Column>)

  /** Aligns a library output to the frame's `n` rows, as concatenation on the index does. */
  function Fit(vs: Values, n: nat): (r: Values)
    ensures |r| == n
    ensures forall i :: 0 <= i < n && i < |vs| ==> r[i] == vs[i]
    ensures forall i :: |vs| <= i < n ==> r[i].None?
  {
    if |vs| >= n then vs[..n] else vs + seq(n - |vs|, _ => None)
  }

  function DigitChar(d: nat): (c: char)
    requires d < 10
    ensures '0' <= c <= '9'
  {
    "0123456789"[d]
  }

  /** The decimal digits of `n`. */
  function NatToString(n: nat): (s: string)
    ensures |s| >= 1
    ensures forall i :: 0 <= i < |s| ==> '0' <= s[i] <= '9'
  {
    if n < 10 then [DigitChar(n)] else NatToString(n / 10) + [DigitChar(n % 10)]
  }

  /** A name in which every `M` is followed by a character other than `A`: it holds no MACD marker. */
  predicate Unmarked(name: string)
  {
    forall i :: 0 <= i < |name| && name[i] == 'M' ==> i + 1 < |name| && name[i + 1] != 'A'
  }

  lemma UnmarkedConcat(a: string, b: string)
    requires Unmarked(a) && Unmarked(b)
    ensures Unmarked(a + b)
  {
    forall i | 0 <= i < |a + b| && (a + b)[i] == 'M' ensures i + 1 < |a + b| && (a + b)[i + 1] != 'A' {
      if i < |a| {
        assert a[i] == 'M';
        assert (a + b)[i + 1] == a[i + 1];
      } else {
        assert b[i - |a|] == 'M';
        assert (a + b)[i + 1] == b[i - |a| + 1];
      }
    }
  }

  /** The names the library gives the three MACD columns. */
  function MacdNames(w: MacdWindows): seq<string>
  {
    var suffix := MacdSuffix(w);
    ["MACD_" + suffix, "MACDh_" + suffix, "MACDs_" + suffix]
  }

  /** The windows as the library writes them into the MACD column names: `fast_slow_signal`. */
  function MacdSuffix(w: MacdWindows): (suffix: string)
    ensures forall i :: 0 <= i < |suffix| ==> suffix[i] != 'M'
  {
    NatToString(w.fast) + "_" + NatToString(w.slow) + "_" + NatToString(w.signal)
  }

  /** The names the library gives the five band columns (two standard deviations). */
  function BandNames(length: nat): (names: seq<string>)
    ensures |names| == 5
    ensures forall j :: 0 <= j < 5 ==> Unmarked(names[j])
  {
    var suffix := NatToString(length) + "_2.0";
    UnmarkedConcat("BBL_", suffix);
    UnmarkedConcat("BBM_", suffix);
    UnmarkedConcat("BBU_", suffix);
    UnmarkedConcat("BBB_", suffix);
    UnmarkedConcat("BBP_", suffix);
    ["BBL_" + suffix, "BBM_" + suffix, "BBU_" + suffix, "BBB_" + suffix, "BBP_" + suffix]
  }

  function Closes(candles: seq<Candle>): (r: seq<real>)
    ensures |r| == |candles| && forall i :: 0 <= i < |r| ==> r[i] == candles[i].bar.close
  {
    seq(|candles|, i requires 0 <= i < |candles| => candles[i].bar.close)
  }

  function Volumes(candles: seq<Candle>): (r: seq<real>)
    ensures |r| == |candles| && forall i :: 0 <= i < |r| ==> r[i] == candles[i].bar.volume
  {
    seq(|candles|, i requires 0 <= i < |candles| => candles[i].bar.volume)
  }

  function Defined(xs: seq<real>): (r: Values)
    ensures |r| == |xs| && forall i :: 0 <= i < |r| ==> r[i] == Some(xs[i])
  {
    seq(|xs|, i requires 0 <= i < |xs| => Some(xs[i]))
  }

  /** The price columns of the input frame. */
  function PriceColumns(candles: seq<Candle>): (cols: seq<Column>)
    ensures |cols| == 5
    ensures forall j :: 0 <= j < 5 ==> |cols[j].values| == |candles|
    ensures cols[0].name == "open" && cols[1].name == "high" && cols[2].name == "low"
    ensures cols[3] == Column("close", Defined(Closes(candles)))
    ensures cols[4] == Column("volume", Defined(Volumes(candles)))
  {
    var n := |candles|;
    [Column("open", seq(n, i requires 0 <= i < n => Some(candles[i].bar.open))),
     Column("high", seq(n, i requires 0 <= i < n => Some(candles[i].bar.high))),
     Column("low", seq(n, i requires 0 <= i < n => Some(candles[i].bar.low))),
     Column("close", Defined(Closes(candles))),
     Column("volume", Defined(Volumes(candles)))]
  }

  /** The moving-average and RSI columns (lines 38-41 and 48 of the engine). */
  function TrendColumns(closes: seq<real>, lib: Library): (cols: seq<Column>)
    ensures |cols| == 5 && forall j :: 0 <= j < 5 ==> |cols[j].values| == |closes|
  {
    var n := |closes|;
    var tw := ChooseTrendWindows(n);
    [Column("ema_21", Fit(lib.ema(closes, tw.emaShort), n)),
     Column("ema_55", Fit(lib.ema(closes, tw.emaLong), n)),
     Column("sma_50", Fit(lib.sma(closes, tw.smaShort), n)),
     Column("sma_200", Fit(lib.sma(closes, tw.smaLong), n)),
     Column("rsi_14", Fit(lib.rsi(closes, RsiLength), n))]
  }

  /** The three MACD columns, named after the windows used. */
  function MacdFrameColumns(closes: seq<real>, lib: Library): (cols: seq<Column>)
    ensures |cols| == 3 && forall j :: 0 <= j < 3 ==> |cols[j].values| == |closes|
  {
    var n := |closes|;
    var mw := ChooseMacdWindows(n);
    var macd := lib.macd(closes, mw.fast, mw.slow, mw.signal);
    var mn := MacdNames(mw);
    [Column(mn[0], Fit(macd.line, n)), Column(mn[1], Fit(macd.histogram, n)), Column(mn[2], Fit(macd.signal, n))]
  }

  /** The five band columns, added only from 10 rows on. */
  function BandColumns(closes: seq<real>, lib: Library): (cols: seq<Column>)
    ensures |closes| >= 10 ==> |cols| == 5
    ensures |closes| < 10 ==> cols == []
    ensures forall j :: 0 <= j < |cols| ==> |cols[j].values| == |closes|
  {
    var n := |closes|;
    if n >= 10 then
      var side := SideWindow(n);
      var bb := lib.bbands(closes, side);
      var bn := BandNames(side);
      [Column(bn[0], Fit(bb.lower, n)), Column(bn[1], Fit(bb.mid, n)), Column(bn[2], Fit(bb.upper, n)),
       Column(bn[3], Fit(bb.bandwidth, n)), Column(bn[4], Fit(bb.percent, n))]
    else []
  }

  /** The volume average and the volatility columns. */
  function SideColumns(candles: seq<Candle>, lib: Library): (cols: seq<Column>)
    ensures |cols| == 2 && forall j :: 0 <= j < 2 ==> |cols[j].values| == |candles|
  {
    var n := |candles|;
    var side := SideWindow(n);
    [Column("vol_sma_20", Fit(lib.sma(Volumes(candles), side), n)),
     Column("volatility_20", Fit(lib.volatility(Closes(candles), side), n))]
  }

  /** The moving-average and RSI columns at positions 5 to 9, with the adaptive windows and the fixed RSI length. */
  predicate TrendLayout(cols: seq<Column>, candles: seq<Candle>, lib: Library)
  {
    var n := |candles|;
    var closes := Closes(candles);
    var tw := ChooseTrendWindows(n);
    && |cols| >= 10
    && cols[5] == Column("ema_21", Fit(lib.ema(closes, tw.emaShort), n))
    && cols[6] == Column("ema_55", Fit(lib.ema(closes, tw.emaLong), n))
    && cols[7] == Column("sma_50", Fit(lib.sma(closes, tw.smaShort), n))
    && cols[8] == Column("sma_200", Fit(lib.sma(closes, tw.smaLong), n))
    && cols[9] == Column("rsi_14", Fit(lib.rsi(closes, RsiLength), n))
  }

  /** The MACD line, histogram and signal at positions 10 to 12, named after the MACD windows. */
  predicate MacdLayout(cols: seq<Column>, candles: seq<Candle>, lib: Library)
  {
    var n := |candles|;
    var mw := ChooseMacdWindows(n);
    var macd := lib.macd(Closes(candles), mw.fast, mw.slow, mw.signal);
    && |cols| >= 13
    && cols[10] == Column("MACD_" + MacdSuffix(mw), Fit(macd.line, n))
    && cols[11] == Column("MACDh_" + MacdSuffix(mw), Fit(macd.histogram, n))
    && cols[12] == Column("MACDs_" + MacdSuffix(mw), Fit(macd.signal, n))
  }

  /** The five band columns at positions 13 to 17, named after the side window. */
  predicate BandLayout(cols: seq<Column>, candles: seq<Candle>, lib: Library)
  {
    var n := |candles|;
    var side := SideWindow(n);
    var bb := lib.bbands(Closes(candles), side);
    var bands := NatToString(side) + "_2.0";
    && |cols| >= 18
    && cols[13] == Column("BBL_" + bands, Fit(bb.lower, n))
    && cols[14] == Column("BBM_" + bands, Fit(bb.mid, n))
    && cols[15] == Column("BBU_" + bands, Fit(bb.upper, n))
    && cols[16] == Column("BBB_" + bands, Fit(bb.bandwidth, n))
    && cols[17] == Column("BBP_" + bands, Fit(bb.percent, n))
  }

  /** The volume average and the volatility as the last two columns, over the side window. */
  predicate SideLayout(cols: seq<Column>, candles: seq<Candle>, lib: Library)
  {
    var n := |candles|;
    var side := SideWindow(n);
    && |cols| >= 2
    && cols[|cols| - 2] == Column("vol_sma_20", Fit(lib.sma(Volumes(candles), side), n))
    && cols[|cols| - 1] == Column("volatility_20", Fit(lib.volatility(Closes(candles), side), n))
  }

  /**
   * Where `compute` puts each indicator column after the five price columns:
   * its position, its name, and the library call and window it holds. The
   * band columns are present only from 10 rows on.
   */
  predicate IndicatorLayout(cols: seq<Column>, candles: seq<Candle>, lib: Library)
  {
    && |cols| == (if |candles| >= 10 then 20 else 15)
    && TrendLayout(cols, candles, lib)
    && MacdLayout(cols, candles, lib)
    && (|candles| >= 10 ==> BandLayout(cols, candles, lib))
    && SideLayout(cols, candles, lib)
  }

  /** The frame `compute` builds: price columns, then every indicator column in the order it adds them. */
  function BuildColumns(candles: seq<Candle>, lib: Library): (cols: seq<Column>)
    ensures forall j :: 0 <= j < |cols| ==> |cols[j].values| == |candles|
    ensures |cols| >= 15 && cols[..5] == PriceColumns(candles)
    ensures PriceLeading(cols, candles)
  {
    var closes := Closes(candles);
    PriceColumns(candles) + TrendColumns(closes, lib) + MacdFrameColumns(closes, lib)
    + BandColumns(closes, lib) + SideColumns(candles, lib)
  }

  /** The engine's frame has the indicator columns where, and as, `compute` adds them. */
  lemma FrameLayout(candles: seq<Candle>, lib: Library)
    ensures IndicatorLayout(BuildColumns(candles, lib), candles, lib)
  {
    var closes := Closes(candles);
    var p := PriceColumns(candles);
    var t := TrendColumns(closes, lib);
    var m := MacdFrameColumns(closes, lib);
    var b := BandColumns(closes, lib);
    var sc := SideColumns(candles, lib);
    var all := p + t + m + b + sc;
    assert all == BuildColumns(candles, lib);
    Placed(p, t, m + b + sc);
    assert all == p + t + (m + b + sc);
    TrendGroup(candles, lib, all);
    Placed(p + t, m, b + sc);
    assert all == (p + t) + m + (b + sc);
    MacdGroup(candles, lib, all);
    if |candles| >= 10 {
      Placed(p + t + m, b, sc);
      BandGroup(candles, lib, all);
    }
    assert all[|all| - 2] == sc[0] && all[|all| - 1] == sc[1];
  }

  /** A group in the middle of a concatenation sits right after the groups before it. */
  lemma Placed(a: seq<Column>, b: seq<Column>, c: seq<Column>)
    ensures forall j :: 0 <= j < |b| ==> (a + b + c)[|a| + j] == b[j]
  {
  }

  lemma TrendGroup(candles: seq<Candle>, lib: Library, all: seq<Column>)
    requires |all| >= 10 && all[5..10] == TrendColumns(Closes(candles), lib)
    ensures TrendLayout(all, candles, lib)
  {
    assert forall j :: 5 <= j < 10 ==> all[j] == all[5..10][j - 5];
  }

  lemma MacdGroup(candles: seq<Candle>, lib: Library, all: seq<Column>)
    requires |all| >= 13 && all[10..13] == MacdFrameColumns(Closes(candles), lib)
    ensures MacdLayout(all, candles, lib)
  {
    assert forall j :: 10 <= j < 13 ==> all[j] == all[10..13][j - 10];
  }

  lemma BandGroup(candles: seq<Candle>, lib: Library, all: seq<Column>)
    requires |candles| >= 10
    requires |all| >= 18 && all[13..18] == BandColumns(Closes(candles), lib)
    ensures BandLayout(all, candles, lib)
  {
    assert forall j :: 13 <= j < 18 ==> all[j] == all[13..18][j - 13];
  }

  function Names(cols: seq<Column>): (names: seq<string>)
    ensures |names| == |cols| && forall j :: 0 <= j < |cols| ==> names[j] == cols[j].name
  {
    seq(|cols|, j requires 0 <= j < |cols| => cols[j].name)
  }

  /** Every column holds exactly `n` values. */
  predicate Shaped(cols: seq<Column>, n: nat)
  {
    forall j :: 0 <= j < |cols| ==> |cols[j].values| == n
  }

  /** Row `i` has a value in every column (survives `dropna()`). */
  predicate RowComplete(cols: seq<Column>, i: nat)
  {
    forall j :: 0 <= j < |cols| ==> i < |cols[j].values| && cols[j].values[i].Some?
  }

  /** The last complete row below `bound`, if any. */
  function LastCompleteBelow(cols: seq<Column>, bound: nat): (r: Option<nat>)
    ensures r.Some? ==> r.value < bound && RowComplete(cols, r.value)
    ensures r.Some? ==> forall i :: r.value < i < bound ==> !RowComplete(cols, i)
    ensures r.None? ==> forall i :: 0 <= i < bound ==> !RowComplete(cols, i)
  {
    if bound == 0 then None
    else if RowComplete(cols, bound - 1) then Some(bound - 1)
    else LastCompleteBelow(cols, bound - 1)
  }

  /** Some value at or before index `i` is defined. */
  predicate DefinedBy(vs: Values, i: int)
  {
    exists j :: 0 <= j <= i && j < |vs| && vs[j].Some?
  }

  /** `ffill()` of one column: an undefined value takes the last defined value before it. */
  function FFillValues(vs: Values, carry: Option<real>): (r: Values)
    ensures |r| == |vs|
    ensures forall i :: 0 <= i < |vs| && vs[i].Some? ==> r[i] == vs[i]
    ensures forall i :: 0 <= i < |vs| ==> (r[i].Some? <==> carry.Some? || DefinedBy(vs, i))
  {
    if vs == [] then []
    else
      var c := if vs[0].Some? then vs[0] else carry;
      var t := FFillValues(vs[1..], c);
      forall i | 1 <= i < |vs| ensures DefinedBy(vs, i) <==> vs[0].Some? || DefinedBy(vs[1..], i - 1) {
        if DefinedBy(vs, i) {
          var j :| 0 <= j <= i && j < |vs| && vs[j].Some?;
          if j > 0 {
            assert vs[1..][j - 1].Some?;
          }
        }
        if DefinedBy(vs[1..], i - 1) {
          var j :| 0 <= j <= i - 1 && j < |vs[1..]| && vs[1..][j].Some?;
          assert vs[j + 1].Some?;
        }
      }
      assert forall i :: 1 <= i < |vs| ==> vs[i] == vs[1..][i - 1];
      [c] + t
  }

  function FFillColumns(cols: seq<Column>): (r: seq<Column>)
    ensures |r| == |cols|
    ensures forall j :: 0 <= j < |cols| ==> r[j] == Column(cols[j].name, FFillValues(cols[j].values, None))
  {
    seq(|cols|, j requires 0 <= j < |cols| => Column(cols[j].name, FFillValues(cols[j].values, None)))
  }

  /** A series with no value at all. */
  predicate Undefined(vs: Values)
  {
    forall i :: 0 <= i < |vs| ==> vs[i].None?
  }

  /** The column never holds a value. */
  predicate NeverDefined(col: Column)
  {
    Undefined(col.values)
  }

  /** The last row of the filled frame is complete exactly when no column is undefined throughout. */
  lemma FilledLastRowCompleteIff(cols: seq<Column>, n: nat)
    requires Shaped(cols, n) && n > 0
    ensures RowComplete(FFillColumns(cols), n - 1) <==> forall j :: 0 <= j < |cols| ==> !NeverDefined(cols[j])
  {
    var f := FFillColumns(cols);
    if forall j :: 0 <= j < |cols| ==> !NeverDefined(cols[j]) {
      forall j | 0 <= j < |cols| ensures n - 1 < |f[j].values| && f[j].values[n - 1].Some? {
        var i :| 0 <= i < |cols[j].values| && cols[j].values[i].Some?;
        assert DefinedBy(cols[j].values, n - 1);
      }
    } else {
      var j :| 0 <= j < |cols| && NeverDefined(cols[j]);
      assert !DefinedBy(cols[j].values, n - 1);
      assert f[j].values[n - 1].None?;
    }
  }

  /** A complete row of the raw frame means no column is undefined throughout. */
  lemma CompleteRowMeansAllDefined(cols: seq<Column>, i: nat)
    requires RowComplete(cols, i)
    ensures forall j :: 0 <= j < |cols| ==> !NeverDefined(cols[j])
  {
    forall j | 0 <= j < |cols| ensures !NeverDefined(cols[j]) {
      assert cols[j].values[i].Some?;
    }
  }

  /** One cell of a row: the column name and its (defined) value. */
  datatype Cell = Cell(name: string, value: real)

  /** Row `i` of a frame whose row `i` is complete, as name/value cells in column order. */
  function RowCells(cols: seq<Column>, i: nat): (row: seq<Cell>)
    requires RowComplete(cols, i)
    ensures |row| == |cols|
    ensures forall j :: 0 <= j < |cols| ==> row[j] == Cell(cols[j].name, cols[j].values[i].value)
  {
    seq(|cols|, j requires 0 <= j < |cols| => Cell(cols[j].name, cols[j].values[i].value))
  }

  /** `Series.get(name)`: the value of the first cell so named. */
  function Get(row: seq<Cell>, name: string): (r: Option<real>)
    ensures r.Some? <==> exists j :: 0 <= j < |row| && row[j].name == name
    ensures r.Some? ==> exists j :: 0 <= j < |row| && row[j] == Cell(name, r.value)
  {
    if row == [] then None
    else if row[0].name == name then Some(row[0].value)
    else
      var r := Get(row[1..], name);
      assert forall j :: 1 <= j < |row| ==> row[j] == row[1..][j - 1];
      r
  }

  /** `Series.get(name, default)`. */
  function GetOr(row: seq<Cell>, name: string, default: real): real
  {
    Get(row, name).GetOr(default)
  }

  /** The column recognised as the MACD line: contains `MACD_` and neither `MACDs_` nor `MACDh_`. */
  predicate IsMacdLineName(name: string)
  {
    Contains(name, "MACD_") && !Contains(name, "MACDs_") && !Contains(name, "MACDh_")
  }

  /** The column recognised as the MACD signal: the `elif` branch, reached only inside the `MACD_` test. */
  predicate IsMacdSignalName(name: string)
  {
    Contains(name, "MACD_") && Contains(name, "MACDs_")
  }

  /** The result of the column scan: the MACD line and signal column names, if found. */
  datatype MacdColumns = MacdColumns(line: Option<string>, signal: Option<string>)

  /** Position `j` holds the last element of `xs` that satisfies `p`. */
  ghost predicate LastAt<T>(xs: seq<T>, p: T -> bool, j: int)
  {
    0 <= j < |xs| && p(xs[j]) && forall k :: j < k < |xs| ==> !p(xs[k])
  }

  /**
   * `found` is what a loop that keeps overwriting it with each element
   * satisfying `p` ends with: the last such element, or none when no element
   * satisfies `p`.
   */
  ghost predicate LastMatch<T>(xs: seq<T>, p: T -> bool, found: Option<T>)
  {
    && (found.None? <==> forall j :: 0 <= j < |xs| ==> !p(xs[j]))
    && (found.Some? ==> exists j :: LastAt(xs, p, j) && xs[j] == found.value)
  }

  /** One more iteration of such a loop: a matching element replaces what was found. */
  lemma LastMatchStep<T>(xs: seq<T>, p: T -> bool, found: Option<T>, x: T)
    requires LastMatch(xs, p, found)
    ensures LastMatch(xs + [x], p, if p(x) then Some(x) else found)
  {
    var ys := xs + [x];
    assert forall j :: 0 <= j < |xs| ==> ys[j] == xs[j];
    if p(x) {
      assert LastAt(ys, p, |xs|);
    } else if found.Some? {
      var j :| LastAt(xs, p, j) && xs[j] == found.value;
      assert LastAt(ys, p, j);
    }
  }

  /** The scan over the column names; the last match of each kind wins. */
  function FindMacdColumns(names: seq<string>): (r: MacdColumns)
    ensures LastMatch(names, IsMacdLineName, r.line)
    ensures LastMatch(names, IsMacdSignalName, r.signal)
  {
    if names == [] then MacdColumns(None, None)
    else
      var init := names[..|names| - 1];
      var last := names[|names| - 1];
      var r := FindMacdColumns(init);
      assert names == init + [last];
      LastMatchStep(init, IsMacdLineName, r.line, last);
      LastMatchStep(init, IsMacdSignalName, r.signal, last);
      // `if "MACD_" in col: if no s/h marker: line; elif "MACDs_" in col: signal`,
      // regrouped: the two tests below are exclusive.
      if IsMacdLineName(last) then MacdColumns(Some(last), r.signal)
      else if IsMacdSignalName(last) then MacdColumns(r.line, Some(last))
      else r
  }

  /** `sub` does not occur in `s` when `s` has none of the first character of `sub` past index 0 and no match at 0. */
  lemma NoOccurrence(s: string, sub: string)
    requires |sub| >= 1
    requires forall i :: 1 <= i < |s| ==> s[i] != sub[0]
    requires !OccursAt(s, sub, 0)
    ensures !Contains(s, sub)
  {
    forall i | 1 <= i <= |s| - |sub| ensures !OccursAt(s, sub, i) {
      assert s[i..i + |sub|][0] == s[i];
    }
  }

  /** A name whose only `M` is its first character and whose fifth character is not `_` never contains `MACD_`. */
  lemma NotMacdUnderscore(name: string)
    requires forall i :: 1 <= i < |name| ==> name[i] != 'M'
    requires |name| >= 5 ==> name[4] != '_'
    ensures !Contains(name, "MACD_")
  {
    if |name| >= 5 {
      assert name[0..5][4] != "MACD_"[4];
    }
    NoOccurrence(name, "MACD_");
  }

  /** An unmarked name contains none of the MACD markers, all of which start with `MA`. */
  lemma NoMacdMarker(name: string)
    requires Unmarked(name)
    ensures !Contains(name, "MACD_") && !Contains(name, "MACDs_") && !Contains(name, "MACDh_")
  {
    NoMaPrefixed(name, "MACD_");
    NoMaPrefixed(name, "MACDs_");
    NoMaPrefixed(name, "MACDh_");
  }

  lemma NoMaPrefixed(name: string, sub: string)
    requires Unmarked(name)
    requires |sub| >= 2 && sub[0] == 'M' && sub[1] == 'A'
    ensures !Contains(name, sub)
  {
    forall i | 0 <= i <= |name| - |sub| ensures !OccursAt(name, sub, i) {
      assert name[i..i + |sub|][0] == name[i] && name[i..i + |sub|][1] == name[i + 1];
      assert name[i] != 'M' || name[i + 1] != 'A';
    }
  }

  /** The scan over two groups of columns: a match in the later group overrides one in the earlier. */
  lemma {:induction false} FindMacdOfConcat(a: seq<string>, b: seq<string>)
    ensures FindMacdColumns(a + b)
            == MacdColumns(if FindMacdColumns(b).line.Some? then FindMacdColumns(b).line else FindMacdColumns(a).line,
                           if FindMacdColumns(b).signal.Some? then FindMacdColumns(b).signal else FindMacdColumns(a).signal)
  {
    if b == [] {
      assert a + b == a;
    } else {
      var init := b[..|b| - 1];
      FindMacdOfConcat(a, init);
      assert (a + b)[..|a + b| - 1] == a + init;
      assert (a + b)[|a + b| - 1] == b[|b| - 1];
    }
  }

  /** Columns none of whose names carries a MACD marker leave the scan empty. */
  lemma ScanOfUnmarked(cols: seq<Column>)
    requires forall j :: 0 <= j < |cols| ==> Unmarked(cols[j].name)
    ensures FindMacdColumns(Names(cols)) == MacdColumns(None, None)
  {
    forall j | 0 <= j < |cols| ensures !IsMacdLineName(Names(cols)[j]) && !IsMacdSignalName(Names(cols)[j]) {
      NoMacdMarker(cols[j].name);
    }
  }

  /** Names none of which carries a MACD marker leave the scan empty. */
  lemma ScanOfUnmarkedNames(names: seq<string>)
    requires forall j :: 0 <= j < |names| ==> Unmarked(names[j])
    ensures FindMacdColumns(names) == MacdColumns(None, None)
  {
    forall j | 0 <= j < |names| ensures !IsMacdLineName(names[j]) && !IsMacdSignalName(names[j]) {
      NoMacdMarker(names[j]);
    }
  }

  /** The MACD group: the `MACD_` column is the line; neither `MACDh_` nor `MACDs_` contains `MACD_`. */
  lemma ScanOfMacdGroup(closes: seq<real>, lib: Library)
    ensures FindMacdColumns(Names(MacdFrameColumns(closes, lib)))
            == MacdColumns(Some(MacdNames(ChooseMacdWindows(|closes|))[0]), None)
  {
    var mw := ChooseMacdWindows(|closes|);
    var suffix := MacdSuffix(mw);
    var names := Names(MacdFrameColumns(closes, lib));
    assert names == ["MACD_" + suffix, "MACDh_" + suffix, "MACDs_" + suffix];
    MacdLineNamed(suffix);
    MacdOtherNamed("MACDh_", suffix);
    MacdOtherNamed("MACDs_", suffix);
    ScanOfThree("MACD_" + suffix, "MACDh_" + suffix, "MACDs_" + suffix);
  }

  /** `MACD_` followed by digits and underscores names the MACD line. */
  lemma MacdLineNamed(suffix: string)
    requires forall i :: 0 <= i < |suffix| ==> suffix[i] != 'M'
    ensures IsMacdLineName("MACD_" + suffix)
  {
    var name := "MACD_" + suffix;
    assert OccursAt(name, "MACD_", 0);
    assert !OccursAt(name, "MACDs_", 0) && !OccursAt(name, "MACDh_", 0) by {
      assert name[4] == '_';
    }
    NoOccurrence(name, "MACDs_");
    NoOccurrence(name, "MACDh_");
  }

  /** The histogram and signal columns match neither test: they do not contain `MACD_`. */
  lemma MacdOtherNamed(marker: string, suffix: string)
    requires marker == "MACDh_" || marker == "MACDs_"
    requires forall i :: 0 <= i < |suffix| ==> suffix[i] != 'M'
    ensures !IsMacdLineName(marker + suffix) && !IsMacdSignalName(marker + suffix)
  {
    var name := marker + suffix;
    assert name[4] == marker[4];
    NotMacdUnderscore(name);
  }

  /** The scan over a line column followed by two unmatched columns binds the line only. */
  lemma ScanOfThree(a: string, b: string, c: string)
    requires IsMacdLineName(a)
    requires !IsMacdLineName(b) && !IsMacdSignalName(b) && !IsMacdLineName(c) && !IsMacdSignalName(c)
    ensures FindMacdColumns([a, b, c]) == MacdColumns(Some(a), None)
  {
    assert [a][..0] == [];
    assert FindMacdColumns([a]) == MacdColumns(Some(a), None);
    assert [a, b][..1] == [a];
    assert FindMacdColumns([a, b]) == MacdColumns(Some(a), None);
    assert [a, b, c][..2] == [a, b];
  }

  lemma NamesConcat(a: seq<Column>, b: seq<Column>)
    ensures Names(a + b) == Names(a) + Names(b)
  {
  }

  /** The scan adds unmatched groups around the one group that binds a line only. */
  lemma ScanOfGroups(p: seq<string>, t: seq<string>, m: seq<string>, b: seq<string>, sc: seq<string>, line: string)
    requires FindMacdColumns(p) == MacdColumns(None, None) && FindMacdColumns(t) == MacdColumns(None, None)
    requires FindMacdColumns(m) == MacdColumns(Some(line), None)
    requires FindMacdColumns(b) == MacdColumns(None, None) && FindMacdColumns(sc) == MacdColumns(None, None)
    ensures FindMacdColumns(p + t + m + b + sc) == MacdColumns(Some(line), None)
  {
    FindMacdOfConcat(p, t);
    FindMacdOfConcat(p + t, m);
    FindMacdOfConcat(p + t + m, b);
    FindMacdOfConcat(p + t + m + b, sc);
  }

  /** The band and side groups carry no MACD marker. */
  lemma ScanOfBandsAndSide(candles: seq<Candle>, lib: Library)
    ensures FindMacdColumns(Names(BandColumns(Closes(candles), lib))) == MacdColumns(None, None)
    ensures FindMacdColumns(Names(SideColumns(candles, lib))) == MacdColumns(None, None)
  {
    var closes := Closes(candles);
    ScanOfUnmarked(BandColumns(closes, lib));
    ScanOfUnmarked(SideColumns(candles, lib));
  }

  /**
   * With the library's names, the scan binds the `MACD_…` column as the line
   * and never binds a signal: `MACDs_…` does not contain `MACD_`.
   */
  lemma MacdScanOfFrame(candles: seq<Candle>, lib: Library)
    ensures FindMacdColumns(Names(BuildColumns(candles, lib)))
            == MacdColumns(Some(MacdNames(ChooseMacdWindows(|candles|))[0]), None)
  {
    var closes := Closes(candles);
    var p := PriceColumns(candles);
    var t := TrendColumns(closes, lib);
    var m := MacdFrameColumns(closes, lib);
    var b := BandColumns(closes, lib);
    var sc := SideColumns(candles, lib);
    FrameNames(candles, lib);
    ScanOfPrice(candles);
    ScanOfTrend(closes, lib);
    ScanOfMacdGroup(closes, lib);
    ScanOfBandsAndSide(candles, lib);
    ScanOfGroups(Names(p), Names(t), Names(m), Names(b), Names(sc), MacdNames(ChooseMacdWindows(|candles|))[0]);
  }

  /** The price columns carry no MACD marker. */
  lemma ScanOfPrice(candles: seq<Candle>)
    ensures FindMacdColumns(Names(PriceColumns(candles))) == MacdColumns(None, None)
  {
    var names := ["open", "high", "low", "close", "volume"];
    assert Names(PriceColumns(candles)) == names;
    assert Unmarked(names[0]) && Unmarked(names[1]) && Unmarked(names[2]);
    assert Unmarked(names[3]) && Unmarked(names[4]);
    ScanOfUnmarkedNames(names);
  }

  /** The moving-average and RSI columns carry no MACD marker. */
  lemma ScanOfTrend(closes: seq<real>, lib: Library)
    ensures FindMacdColumns(Names(TrendColumns(closes, lib))) == MacdColumns(None, None)
  {
    var names := ["ema_21", "ema_55", "sma_50", "sma_200", "rsi_14"];
    assert Names(TrendColumns(closes, lib)) == names;
    TrendNamesUnmarked(names);
    ScanOfUnmarkedNames(names);
  }

  lemma TrendNamesUnmarked(names: seq<string>)
    requires names == ["ema_21", "ema_55", "sma_50", "sma_200", "rsi_14"]
    ensures forall j :: 0 <= j < |names| ==> Unmarked(names[j])
  {
    assert Unmarked(names[0]) && Unmarked(names[1]) && Unmarked(names[2]);
    assert Unmarked(names[3]) && Unmarked(names[4]);
  }

  /** The frame's names are the groups' names in order. */
  lemma FrameNames(candles: seq<Candle>, lib: Library)
    ensures var closes := Closes(candles);
            Names(BuildColumns(candles, lib))
            == Names(PriceColumns(candles)) + Names(TrendColumns(closes, lib)) + Names(MacdFrameColumns(closes, lib))
               + Names(BandColumns(closes, lib)) + Names(SideColumns(candles, lib))
  {
    var closes := Closes(candles);
    var p := PriceColumns(candles);
    var t := TrendColumns(closes, lib);
    var m := MacdFrameColumns(closes, lib);
    var b := BandColumns(closes, lib);
    var sc := SideColumns(candles, lib);
    NamesConcat(p, t);
    NamesConcat(p + t, m);
    NamesConcat(p + t + m, b);
    NamesConcat(p + t + m + b, sc);
  }

  /** The latest-state features. */
  datatype Snapshot = Snapshot(price: real, emaTrend: real, smaTrend: real, rsi: real, macd: real,
                               macdSignal: real, bbPosition: real, volumeRatio: real, volatility: real)

  /** `volume / vol_sma` when the average is positive, else 1.0. */
  function VolumeRatio(volume: real, average: real): (r: real)
    ensures average > 0.0 ==> r * average == volume
    ensures average <= 0.0 ==> r == 1.0
    ensures average > 0.0 ==> (r == 1.0 <==> volume == average)
    ensures volume >= 0.0 ==> r >= 0.0
  {
    if average > 0.0 then volume / average else 1.0
  }

  /** A cell taken as the upper band: its name contains `BBU_`. */
  predicate IsUpperBandCell(c: Cell)
  {
    Contains(c.name, "BBU_")
  }

  /** A cell taken as the lower band: the `elif` branch, a name containing `BBL_` but not `BBU_`. */
  predicate IsLowerBandCell(c: Cell)
  {
    !Contains(c.name, "BBU_") && Contains(c.name, "BBL_")
  }

  /** The Bollinger scan over the row's cells: the cells it settles on as upper and lower band, the last of each kind. */
  function ScanBands(row: seq<Cell>): (r: (Option<Cell>, Option<Cell>))
    ensures LastMatch(row, IsUpperBandCell, r.0)
    ensures LastMatch(row, IsLowerBandCell, r.1)
  {
    if row == [] then (None, None)
    else
      var init := row[..|row| - 1];
      var last := row[|row| - 1];
      var r := ScanBands(init);
      assert row == init + [last];
      LastMatchStep(init, IsUpperBandCell, r.0, last);
      LastMatchStep(init, IsLowerBandCell, r.1, last);
      if IsUpperBandCell(last) then (Some(last), r.1)
      else if IsLowerBandCell(last) then (r.0, Some(last))
      else r
  }

  /** The value of a cell the scan found, if it found one. */
  function ValueOf(c: Option<Cell>): (v: Option<real>)
    ensures v.Some? <==> c.Some?
    ensures c.Some? ==> v.value == c.value.value
  {
    if c.Some? then Some(c.value.value) else None
  }

  lemma UnitQuotient(a: real, b: real)
    requires 0.0 <= a <= b && b > 0.0
    ensures 0.0 <= a / b <= 1.0
  {
    assert (a / b) * b == a;
  }

  /** `(close - lower) / (upper - lower)`, or 0.0 when a band or the close is missing or the width is zero. */
  function BandPosition(close: Option<real>, upper: Option<real>, lower: Option<real>): (r: real)
    ensures close.None? || upper.None? || lower.None? ==> r == 0.0
    ensures close.Some? && upper.Some? && lower.Some? && upper.value - lower.value != 0.0 ==>
              r * (upper.value - lower.value) == close.value - lower.value
    ensures close.Some? && upper.Some? && lower.Some? && upper.value == lower.value ==> r == 0.0
  {
    if close.None? || upper.None? || lower.None? then 0.0
    else
      var width := upper.value - lower.value;
      if width == 0.0 then 0.0 else (close.value - lower.value) / width
  }

  /** A close between the bands has a band position in [0, 1]. */
  lemma BandPositionWithinBands(close: real, upper: real, lower: real)
    requires lower <= close <= upper
    ensures 0.0 <= BandPosition(Some(close), Some(upper), Some(lower)) <= 1.0
  {
    if upper - lower != 0.0 {
      UnitQuotient(close - lower, upper - lower);
    }
  }

  /** `_bollinger_position`: 0.0 when the row has no upper band, no lower band or no close. */
  function BollingerPosition(row: seq<Cell>): (r: real)
    ensures (forall j :: 0 <= j < |row| ==> !IsUpperBandCell(row[j])) ==> r == 0.0
    ensures (forall j :: 0 <= j < |row| ==> !IsLowerBandCell(row[j])) ==> r == 0.0
    ensures Get(row, "close").None? ==> r == 0.0
  {
    var (upper, lower) := ScanBands(row);
    BandPosition(Get(row, "close"), ValueOf(upper), ValueOf(lower))
  }

  /** With bands present, the position is that of the close between the last upper-band cell and the last lower-band cell. */
  lemma BollingerOfLastBands(row: seq<Cell>, j: int, k: int)
    requires LastAt(row, IsUpperBandCell, j) && LastAt(row, IsLowerBandCell, k)
    ensures BollingerPosition(row) == BandPosition(Get(row, "close"), Some(row[j].value), Some(row[k].value))
  {
    var (upper, lower) := ScanBands(row);
    var j' :| LastAt(row, IsUpperBandCell, j') && row[j'] == upper.value;
    var k' :| LastAt(row, IsLowerBandCell, k') && row[k'] == lower.value;
    LastAtUnique(row, IsUpperBandCell, j, j');
    LastAtUnique(row, IsLowerBandCell, k, k');
  }

  /** Only one position is the last to satisfy `p`. */
  lemma LastAtUnique<T>(xs: seq<T>, p: T -> bool, j: int, j': int)
    requires LastAt(xs, p, j) && LastAt(xs, p, j')
    ensures j == j'
  {
  }

  /**
   * A trend: the short average minus the long one, where a missing average
   * is read as the close.
   */
  function Trend(short: Option<real>, long: Option<real>, close: real): (t: real)
    ensures short.Some? && long.Some? ==> t == short.value - long.value
    ensures short.Some? && long.None? ==> t == short.value - close
    ensures short.None? && long.Some? ==> t == close - long.value
    ensures short.None? && long.None? ==> t == 0.0
  {
    short.GetOr(close) - long.GetOr(close)
  }

  /** The snapshot from the latest row, with the source's defaults and guards. */
  function DeriveSnapshot(row: seq<Cell>, cols: MacdColumns): (s: Snapshot)
    requires Get(row, "close").Some?
    ensures s.price == Get(row, "close").value
    ensures Get(row, "sma_50").None? && Get(row, "sma_200").None? ==> s.smaTrend == 0.0
    ensures Get(row, "ema_21").None? && Get(row, "ema_55").None? ==> s.emaTrend == 0.0
    ensures Get(row, "rsi_14").None? ==> s.rsi == 50.0
    ensures cols.line.None? ==> s.macd == 0.0
    ensures cols.signal.None? ==> s.macdSignal == 0.0
    ensures Get(row, "vol_sma_20").None? ==> s.volumeRatio == GetOr(row, "volume", 0.0)
    ensures Get(row, "volatility_20").None? ==> s.volatility == 0.0
    ensures Get(row, "ema_21").Some? && Get(row, "ema_55").Some? ==>
              s.emaTrend == Get(row, "ema_21").value - Get(row, "ema_55").value
    ensures Get(row, "ema_21").Some? && Get(row, "ema_55").None? ==> s.emaTrend == Get(row, "ema_21").value - s.price
    ensures Get(row, "ema_21").None? && Get(row, "ema_55").Some? ==> s.emaTrend == s.price - Get(row, "ema_55").value
    ensures Get(row, "sma_50").Some? && Get(row, "sma_200").Some? ==>
              s.smaTrend == Get(row, "sma_50").value - Get(row, "sma_200").value
    ensures Get(row, "sma_50").Some? && Get(row, "sma_200").None? ==> s.smaTrend == Get(row, "sma_50").value - s.price
    ensures Get(row, "sma_50").None? && Get(row, "sma_200").Some? ==> s.smaTrend == s.price - Get(row, "sma_200").value
    ensures Get(row, "rsi_14").Some? ==> s.rsi == Get(row, "rsi_14").value
    ensures cols.line.Some? ==> s.macd == GetOr(row, cols.line.value, 0.0)
    ensures cols.signal.Some? ==> s.macdSignal == GetOr(row, cols.signal.value, 0.0)
    ensures Get(row, "vol_sma_20").Some? ==> s.volumeRatio == VolumeRatio(GetOr(row, "volume", 0.0), Get(row, "vol_sma_20").value)
    ensures Get(row, "volatility_20").Some? ==> s.volatility == Get(row, "volatility_20").value
    ensures s.bbPosition == BollingerPosition(row)
  {
    var close := Get(row, "close").value;
    Snapshot(
      price := close,
      emaTrend := Trend(Get(row, "ema_21"), Get(row, "ema_55"), close),
      smaTrend := Trend(Get(row, "sma_50"), Get(row, "sma_200"), close),
      rsi := Get(row, "rsi_14").GetOr(50.0),
      macd := if cols.line.Some? then GetOr(row, cols.line.value, 0.0) else 0.0,
      macdSignal := if cols.signal.Some? then GetOr(row, cols.signal.value, 0.0) else 0.0,
      bbPosition := BollingerPosition(row),
      volumeRatio := VolumeRatio(GetOr(row, "volume", 0.0), Get(row, "vol_sma_20").GetOr(1.0)),
      volatility := Get(row, "volatility_20").GetOr(0.0))
  }

  /** Why `compute` raises. */
  datatype IndicatorError =
    | InsufficientData(required: nat, got: nat)
    | NoValidRows(available: nat)

  /** What `compute` returns: the frame, the index of the row the snapshot came from, the snapshot. */
  datatype IndicatorBundle = IndicatorBundle(frame: Frame, latestRow: nat, snapshot: Snapshot)

  /** Which row `iloc[-1]` picks: the last complete raw row, else the last row complete after `ffill()`, else none. */
  datatype Latest = FromRaw(i: nat) | FromFilled(i: nat) | NoRow

  function PickLatest(cols: seq<Column>, n: nat): (p: Latest)
    ensures p.FromRaw? ==> LastCompleteBelow(cols, n) == Some(p.i)
    ensures p.FromFilled? ==> LastCompleteBelow(cols, n).None? && LastCompleteBelow(FFillColumns(cols), n) == Some(p.i)
    ensures p.NoRow? <==> LastCompleteBelow(cols, n).None? && LastCompleteBelow(FFillColumns(cols), n).None?
    ensures LastCompleteBelow(cols, n).Some? ==> p == FromRaw(LastCompleteBelow(cols, n).value)
  {
    match LastCompleteBelow(cols, n)
    case Some(i) => FromRaw(i)
    case None =>
      match LastCompleteBelow(FFillColumns(cols), n)
      case Some(i) => FromFilled(i)
      case None => NoRow
  }

  /** The cells of the picked row. */
  function LatestCells(cols: seq<Column>, n: nat, p: Latest): (row: seq<Cell>)
    requires p == PickLatest(cols, n) && !p.NoRow?
  {
    if p.FromRaw? then RowCells(cols, p.i) else RowCells(FFillColumns(cols), p.i)
  }

  /** The picked row of the engine's frame reads the candle's close and finds no MACD signal column. */
  lemma LatestOfFrame(candles: seq<Candle>, lib: Library, p: Latest)
    requires p == PickLatest(BuildColumns(candles, lib), |candles|) && !p.NoRow?
    ensures p.i < |candles|
    ensures Get(LatestCells(BuildColumns(candles, lib), |candles|, p), "close") == Some(candles[p.i].bar.close)
  {
    var cols := BuildColumns(candles, lib);
    if p.FromRaw? {
      CloseOfRow(cols, candles, p.i);
    } else {
      FilledPriceLeading(cols, candles);
      CloseOfRow(FFillColumns(cols), candles, p.i);
    }
  }

  /** The frame opens with the open, high, low and close columns, the close column holding every close. */
  predicate PriceLeading(cols: seq<Column>, candles: seq<Candle>)
  {
    && |cols| >= 4
    && cols[0].name == "open" && cols[1].name == "high" && cols[2].name == "low"
    && cols[3].name == "close" && |cols[3].values| == |candles|
    && forall i :: 0 <= i < |candles| ==> cols[3].values[i] == Some(candles[i].bar.close)
  }

  /** Forward filling keeps the price columns in front, and a close column without gaps as it is. */
  lemma FilledPriceLeading(cols: seq<Column>, candles: seq<Candle>)
    requires PriceLeading(cols, candles)
    ensures PriceLeading(FFillColumns(cols), candles)
  {
    var f := FFillColumns(cols);
    forall i | 0 <= i < |candles| ensures f[3].values[i] == Some(candles[i].bar.close) {
      assert cols[3].values[i].Some?;
    }
  }

  /** `get("close")` on a complete row of such a frame reads that row's close. */
  lemma CloseOfRow(cols: seq<Column>, candles: seq<Candle>, i: nat)
    requires PriceLeading(cols, candles) && RowComplete(cols, i) && i < |candles|
    ensures Get(RowCells(cols, i), "close") == Some(candles[i].bar.close)
  {
    var row := RowCells(cols, i);
    assert row[3] == Cell("close", candles[i].bar.close);
    CloseIsFirstClose(row, candles[i].bar.close);
  }

  /** The indicator frame over the candles' timestamps. */
  function FrameOf(candles: seq<Candle>, cols: seq<Column>): (f: Frame)
    ensures f.columns == cols && |f.timestamps| == |candles|
    ensures forall k :: 0 <= k < |candles| ==> f.timestamps[k] == candles[k].timestamp
  {
    Frame(seq(|candles|, k requires 0 <= k < |candles| => candles[k].timestamp), cols)
  }

  /**
   * The snapshot of a row that carries every feature column: each feature is
   * read from its cell, the MACD from the cell of the line column, and the
   * signal stays 0.0.
   */
  predicate SnapshotOfRow(s: Snapshot, row: seq<Cell>, line: string)
  {
    && Get(row, "close").Some? && s.price == Get(row, "close").value
    && Get(row, "ema_21").Some? && Get(row, "ema_55").Some?
    && s.emaTrend == Get(row, "ema_21").value - Get(row, "ema_55").value
    && Get(row, "sma_50").Some? && Get(row, "sma_200").Some?
    && s.smaTrend == Get(row, "sma_50").value - Get(row, "sma_200").value
    && Get(row, "rsi_14").Some? && s.rsi == Get(row, "rsi_14").value
    && Get(row, line).Some? && s.macd == Get(row, line).value
    && s.macdSignal == 0.0
    && s.bbPosition == BollingerPosition(row)
    && Get(row, "volume").Some? && Get(row, "vol_sma_20").Some?
    && s.volumeRatio == VolumeRatio(Get(row, "volume").value, Get(row, "vol_sma_20").value)
    && Get(row, "volatility_20").Some? && s.volatility == Get(row, "volatility_20").value
  }

  /** A cell at a known position makes `get` of its name defined. */
  lemma CellPresent(row: seq<Cell>, j: nat, name: string)
    requires j < |row| && row[j].name == name
    ensures Get(row, name).Some?
  {
  }

  /** Every feature cell is present in the row, so the snapshot reads each one from its cell. */
  lemma SnapshotOfFullRow(row: seq<Cell>, line: string)
    requires Get(row, "close").Some? && Get(row, "volume").Some?
    requires Get(row, "ema_21").Some? && Get(row, "ema_55").Some? && Get(row, "sma_50").Some?
    requires Get(row, "sma_200").Some? && Get(row, "rsi_14").Some? && Get(row, line).Some?
    requires Get(row, "vol_sma_20").Some? && Get(row, "volatility_20").Some?
    ensures SnapshotOfRow(DeriveSnapshot(row, MacdColumns(Some(line), None)), row, line)
  {
  }

  /** The names of the feature columns of the engine's frame, by position. */
  lemma FrameFeatureNames(candles: seq<Candle>, lib: Library)
    ensures var cols := BuildColumns(candles, lib);
            && |cols| >= 15
            && cols[3].name == "close" && cols[4].name == "volume"
            && cols[5].name == "ema_21" && cols[6].name == "ema_55" && cols[7].name == "sma_50"
            && cols[8].name == "sma_200" && cols[9].name == "rsi_14"
            && cols[10].name == MacdNames(ChooseMacdWindows(|candles|))[0]
            && cols[|cols| - 2].name == "vol_sma_20" && cols[|cols| - 1].name == "volatility_20"
  {
    var cols := BuildColumns(candles, lib);
    FrameLayout(candles, lib);
    assert cols[..5] == PriceColumns(candles);
    assert cols[3] == cols[..5][3] && cols[4] == cols[..5][4];
  }

  /** The picked row has one cell per column, named after it. */
  lemma LatestCellNames(cols: seq<Column>, n: nat, p: Latest)
    requires p == PickLatest(cols, n) && !p.NoRow?
    ensures var row := LatestCells(cols, n, p);
            |row| == |cols| && forall j :: 0 <= j < |cols| ==> row[j].name == cols[j].name
  {
  }

  /** The picked row of the engine's frame carries every feature cell. */
  lemma FeatureCellsOfEngineRow(candles: seq<Candle>, lib: Library, p: Latest)
    requires p == PickLatest(BuildColumns(candles, lib), |candles|) && !p.NoRow?
    ensures var row := LatestCells(BuildColumns(candles, lib), |candles|, p);
            && Get(row, "close").Some? && Get(row, "volume").Some?
            && Get(row, "ema_21").Some? && Get(row, "ema_55").Some? && Get(row, "sma_50").Some?
            && Get(row, "sma_200").Some? && Get(row, "rsi_14").Some?
            && Get(row, MacdNames(ChooseMacdWindows(|candles|))[0]).Some?
            && Get(row, "vol_sma_20").Some? && Get(row, "volatility_20").Some?
  {
    var cols := BuildColumns(candles, lib);
    var row := LatestCells(cols, |candles|, p);
    FrameFeatureNames(candles, lib);
    LatestCellNames(cols, |candles|, p);
    var k := |row|;
    CellPresent(row, 3, cols[3].name);
    CellPresent(row, 4, cols[4].name);
    CellPresent(row, 5, cols[5].name);
    CellPresent(row, 6, cols[6].name);
    CellPresent(row, 7, cols[7].name);
    CellPresent(row, 8, cols[8].name);
    CellPresent(row, 9, cols[9].name);
    CellPresent(row, 10, cols[10].name);
    CellPresent(row, k - 2, cols[k - 2].name);
    CellPresent(row, k - 1, cols[k - 1].name);
  }

  /** `compute`. */
  function Compute(candles: seq<Candle>, lib: Library): (r: Result<IndicatorBundle, IndicatorError>)
    ensures r == Failure(InsufficientData(MinRows, |candles|)) <==> |candles| < MinRows
    ensures r.Failure? && r.error.NoValidRows? ==> |candles| >= MinRows
    ensures r.Success? ==> r.value.latestRow < |candles|
                           && r.value.snapshot.price == candles[r.value.latestRow].bar.close
                           && r.value.snapshot.macdSignal == 0.0
    ensures r.Success? ==> r.value.frame.columns == BuildColumns(candles, lib)
                           && |r.value.frame.timestamps| == |candles|
                           && forall k :: 0 <= k < |candles| ==> r.value.frame.timestamps[k] == candles[k].timestamp
    ensures r.Success? && LastCompleteBelow(BuildColumns(candles, lib), |candles|).Some? ==>
              r.value.latestRow == LastCompleteBelow(BuildColumns(candles, lib), |candles|).value
    ensures r.Success? <==> |candles| >= MinRows && !PickLatest(BuildColumns(candles, lib), |candles|).NoRow?
    ensures r.Success? ==>
              var p := PickLatest(BuildColumns(candles, lib), |candles|);
              r.value.latestRow == p.i
              && SnapshotOfRow(r.value.snapshot, LatestCells(BuildColumns(candles, lib), |candles|, p),
                               MacdNames(ChooseMacdWindows(|candles|))[0])
  {
    var n := |candles|;
    if n < MinRows then Failure(InsufficientData(MinRows, n))
    else
      var cols := BuildColumns(candles, lib);
      var p := PickLatest(cols, n);
      if p.NoRow? then Failure(NoValidRows(n))
      else
        LatestOfFrame(candles, lib, p);
        MacdScanOfFrame(candles, lib);
        FeatureCellsOfEngineRow(candles, lib, p);
        SnapshotOfFullRow(LatestCells(cols, n, p), MacdNames(ChooseMacdWindows(n))[0]);
        var row := LatestCells(cols, n, p);
        Success(IndicatorBundle(FrameOf(candles, cols), p.i,
                                DeriveSnapshot(row, FindMacdColumns(Names(cols)))))
  }

  /** In a row whose first four cells are open, high, low, close, `get("close")` reads the fourth. */
  lemma CloseIsFirstClose(row: seq<Cell>, close: real)
    requires |row| >= 4 && row[3] == Cell("close", close)
    requires row[0].name == "open" && row[1].name == "high" && row[2].name == "low"
    ensures Get(row, "close") == Some(close)
  {
    assert row[0].name != "close";
    assert Get(row, "close") == Get(row[1..], "close");
    assert row[1..][0].name != "close";
    assert Get(row[1..], "close") == Get(row[2..], "close") by { assert row[1..][1..] == row[2..]; }
    assert row[2..][0].name != "close";
    assert Get(row[2..], "close") == Get(row[3..], "close") by { assert row[2..][1..] == row[3..]; }
    assert row[3..][0] == Cell("close", close);
  }

  /**
   * `compute` finds no valid row exactly when it has enough candles but some
   * column of its frame is undefined on every row: `dropna()` then keeps
   * nothing, and `ffill()` has nothing to carry into that column.
   */
  lemma NoValidRowsIff(candles: seq<Candle>, lib: Library)
    ensures Compute(candles, lib) == Failure(NoValidRows(|candles|))
            <==> |candles| >= MinRows
                 && exists j :: 0 <= j < |BuildColumns(candles, lib)| && NeverDefined(BuildColumns(candles, lib)[j])
  {
    var n := |candles|;
    var cols := BuildColumns(candles, lib);
    if n >= MinRows {
      if exists j :: 0 <= j < |cols| && NeverDefined(cols[j]) {
        UndefinedColumnMeansNoRow(cols, n);
      } else {
        DefinedColumnsGiveRow(cols, n);
      }
    }
  }

  /** A column without any value leaves no row complete, raw or filled. */
  lemma UndefinedColumnMeansNoRow(cols: seq<Column>, n: nat)
    requires Shaped(cols, n)
    requires exists j :: 0 <= j < |cols| && NeverDefined(cols[j])
    ensures PickLatest(cols, n) == NoRow
  {
    var f := FFillColumns(cols);
    var j :| 0 <= j < |cols| && NeverDefined(cols[j]);
    forall i | 0 <= i < n ensures !RowComplete(cols, i) && !RowComplete(f, i) {
      assert cols[j].values[i].None?;
      assert !DefinedBy(cols[j].values, i);
      assert f[j].values[i].None?;
    }
  }

  /** When every column holds some value, the filled frame's last row is complete. */
  lemma DefinedColumnsGiveRow(cols: seq<Column>, n: nat)
    requires Shaped(cols, n) && n > 0
    requires forall j :: 0 <= j < |cols| ==> !NeverDefined(cols[j])
    ensures !PickLatest(cols, n).NoRow?
  {
    var f := FFillColumns(cols);
    FilledLastRowCompleteIff(cols, n);
    assert RowComplete(f, n - 1);
    assert LastCompleteBelow(f, n).Some?;
  }

  /** The library leaves a simple moving average undefined throughout when its window exceeds the series. */
  ghost predicate ShortSmaUndefined(lib: Library)
  {
    forall xs: seq<real>, w: nat :: w > |xs| ==> Undefined(lib.sma(xs, w))
  }

  /** The fourth trend column is `sma_200`, computed over the long window. */
  lemma LongSmaColumn(candles: seq<Candle>, lib: Library)
    ensures |BuildColumns(candles, lib)| > 8
    ensures BuildColumns(candles, lib)[8]
            == Column("sma_200", Fit(lib.sma(Closes(candles), ChooseTrendWindows(|candles|).smaLong), |candles|))
  {
    var closes := Closes(candles);
    var p := PriceColumns(candles);
    var t := TrendColumns(closes, lib);
    var rest := MacdFrameColumns(closes, lib) + BandColumns(closes, lib) + SideColumns(candles, lib);
    assert BuildColumns(candles, lib) == p + t + rest;
    assert (p + t + rest)[8] == t[3];
  }

  /**
   * The long moving-average window never drops below 50, so with such a
   * library every series of 20 to 49 candles is rejected for having no
   * valid row, although it passes the 20-candle minimum.
   */
  lemma ShortSeriesHaveNoValidRows(candles: seq<Candle>, lib: Library)
    requires ShortSmaUndefined(lib)
    requires MinRows <= |candles| < 50
    ensures Compute(candles, lib) == Failure(NoValidRows(|candles|))
  {
    var n := |candles|;
    var cols := BuildColumns(candles, lib);
    var vs := lib.sma(Closes(candles), ChooseTrendWindows(n).smaLong);
    LongSmaColumn(candles, lib);
    assert Undefined(vs);
    assert NeverDefined(cols[8]);
    NoValidRowsIff(candles, lib);
  }
}
