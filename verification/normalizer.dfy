/**
 * The candle-series normaliser (data/manager.py): drop incomplete rows, sort
 * by timestamp, keep the last row of each timestamp, snap onto the regular
 * grid of the timeframe (`asfreq`) and forward-fill the gaps.
 *
 * Timestamps are integer milliseconds since the epoch.
 */
module SeriesNormalizer {
  import opened Wrappers

  /** The numeric fields of one candle. */
  datatype Bar = Bar(open: real, high: real, low: real, close: real, volume: real)

  /** A candle with every field present. */
  datatype Candle = Candle(timestamp: int, bar: Bar)

  /** A row as fetched: any field may be missing (NaN / NaT). */
  datatype RawRow = RawRow(timestamp: Option<int>, open: Option<real>, high: Option<real>,
                           low: Option<real>, close: Option<real>, volume: Option<real>)

  /** One point of the regular grid: its timestamp and, unless it is a gap, its bar. */
  datatype Slot = Slot(timestamp: int, bar: Option<Bar>)

  const MillisPerMinute: nat := 60000

  /** `_freq_from_timeframe`, as a number of minutes: the six known labels, and one hour for anything else. */
  function FreqMinutes(timeframe: string): (m: nat)
    ensures timeframe == "1m" ==> m == 1
    ensures timeframe == "5m" ==> m == 5
    ensures timeframe == "15m" ==> m == 15
    ensures timeframe == "1h" ==> m == 60
    ensures timeframe == "4h" ==> m == 240
    ensures timeframe == "1d" ==> m == 1440
    ensures timeframe !in {"1m", "5m", "15m", "1h", "4h", "1d"} ==> m == 60
    ensures m > 0 && 1440 % m == 0
  {
    match timeframe
    case "1m" => 1
    case "5m" => 5
    case "15m" => 15
    case "1h" => 60
    case "4h" => 240
    case "1d" => 1440
    case _ => 60
  }

  /** The grid step of a timeframe, in milliseconds. */
  function StepMillis(timeframe: string): (step: nat)
    ensures step > 0 && step % MillisPerMinute == 0
  {
    FreqMinutes(timeframe) * MillisPerMinute
  }

  predicate Complete(r: RawRow)
  {
    r.timestamp.Some? && r.open.Some? && r.high.Some? && r.low.Some? && r.close.Some? && r.volume.Some?
  }

  function ToCandle(r: RawRow): Candle
    requires Complete(r)
  {
    Candle(r.timestamp.value, Bar(r.open.value, r.high.value, r.low.value, r.close.value, r.volume.value))
  }

  function ToRaw(c: Candle): (r: RawRow)
    ensures Complete(r) && ToCandle(r) == c
  {
    RawRow(Some(c.timestamp), Some(c.bar.open), Some(c.bar.high), Some(c.bar.low),
           Some(c.bar.close), Some(c.bar.volume))
  }

  /** The raw rows a normalised series is written back as, one complete row per candle. */
  function ToRaws(s: seq<Candle>): (rows: seq<RawRow>)
    ensures |rows| == |s|
    ensures forall i :: 0 <= i < |s| ==> Complete(rows[i]) && ToCandle(rows[i]) == s[i]
  {
    if s == [] then [] else [ToRaw(s[0])] + ToRaws(s[1..])
  }

  /** `dropna()`: keep the complete rows, in their order. */
  function DropIncomplete(rows: seq<RawRow>): (cs: seq<Candle>)
    ensures |cs| <= |rows|
    ensures forall i :: 0 <= i < |rows| && Complete(rows[i]) ==> ToCandle(rows[i]) in cs
    ensures forall c :: c in cs ==> exists i :: 0 <= i < |rows| && Complete(rows[i]) && ToCandle(rows[i]) == c
    ensures (forall i :: 0 <= i < |rows| ==> Complete(rows[i])) ==> |cs| == |rows|
    ensures cs == [] <==> forall i :: 0 <= i < |rows| ==> !Complete(rows[i])
  {
    if rows == [] then []
    else if Complete(rows[0]) then [ToCandle(rows[0])] + DropIncomplete(rows[1..])
    else DropIncomplete(rows[1..])
  }

  predicate SortedByTime(s: seq<Candle>)
  {
    forall i, j :: 0 <= i < j < |s| ==> s[i].timestamp <= s[j].timestamp
  }

  predicate StrictlyIncreasing(s: seq<Candle>)
  {
    forall i, j :: 0 <= i < j < |s| ==> s[i].timestamp < s[j].timestamp
  }

  /** Inserts `c` into a sorted series after every row with the same or an earlier timestamp. */
  function Insert(c: Candle, s: seq<Candle>): (r: seq<Candle>)
    requires SortedByTime(s)
    ensures SortedByTime(r)
    ensures multiset(r) == multiset(s) + multiset{c}
    ensures |r| == |s| + 1
  {
    if s == [] || c.timestamp < s[0].timestamp then
      SortedCons(c, s);
      [c] + s
    else
      var t := Insert(c, s[1..]);
      assert s == [s[0]] + s[1..];
      NoLaterHeadCons(s[0], c, s[1..], t);
      [s[0]] + t
  }

  /** A candle no later than `c` and than every candle of `u` can go in front of any sorted arrangement of them. */
  lemma NoLaterHeadCons(x: Candle, c: Candle, u: seq<Candle>, t: seq<Candle>)
    requires x.timestamp <= c.timestamp
    requires forall k :: 0 <= k < |u| ==> x.timestamp <= u[k].timestamp
    requires SortedByTime(t) && multiset(t) == multiset(u) + multiset{c}
    ensures SortedByTime([x] + t)
  {
    forall k | 0 <= k < |t| ensures x.timestamp <= t[k].timestamp {
      assert t[k] in multiset(u) + multiset{c};
      if t[k] != c {
        assert t[k] in u;
      }
    }
    SortedCons(x, t);
  }

  /** A candle no later than every candle of a sorted series can go in front of it. */
  lemma SortedCons(x: Candle, t: seq<Candle>)
    requires SortedByTime(t)
    requires forall k :: 0 <= k < |t| ==> x.timestamp <= t[k].timestamp
    ensures SortedByTime([x] + t)
  {
    forall i, j | 0 <= i < j < |[x] + t| ensures ([x] + t)[i].timestamp <= ([x] + t)[j].timestamp {
      if i > 0 {
        assert ([x] + t)[i] == t[i - 1];
      }
      assert ([x] + t)[j] == t[j - 1];
    }
  }

  /**
   * `sort_values("timestamp")`. The source's sort is not stable; this is the
   * stable order, one of the orders it may produce. `DedupOfAnySort` states
   * what holds whichever order the sort picks.
   */
  function SortByTime(cs: seq<Candle>): (r: seq<Candle>)
    ensures SortedByTime(r)
    ensures multiset(r) == multiset(cs)
    ensures |r| == |cs|
  {
    if cs == [] then []
    else
      assert cs == cs[..|cs| - 1] + [cs[|cs| - 1]];
      Insert(cs[|cs| - 1], SortByTime(cs[..|cs| - 1]))
  }

  /** `index.duplicated(keep="last")` on a sorted series: the last row of each run of equal timestamps survives. */
  function DedupLast(s: seq<Candle>): (r: seq<Candle>)
    requires SortedByTime(s)
    ensures StrictlyIncreasing(r)
    ensures |r| <= |s|
    ensures forall c :: c in r ==> c in s
    ensures s != [] ==> r != [] && r[0].timestamp == s[0].timestamp && r[|r| - 1] == s[|s| - 1]
  {
    if |s| <= 1 then s
    else
      var t := DedupLast(s[1..]);
      assert forall c :: c in s[1..] ==> c in s;
      if s[0].timestamp == s[1].timestamp then t
      else
        EarlierHeadCons(s[0], s[1..], t);
        [s[0]] + t
  }

  /** A candle earlier than the first of a sorted series precedes every candle drawn from that series. */
  lemma EarlierHeadCons(x: Candle, u: seq<Candle>, t: seq<Candle>)
    requires SortedByTime(u) && u != []
    requires x.timestamp < u[0].timestamp
    requires StrictlyIncreasing(t)
    requires forall c :: c in t ==> c in u
    ensures StrictlyIncreasing([x] + t)
  {
    forall k | 0 <= k < |t| ensures x.timestamp < t[k].timestamp {
      assert t[k] in u;
      var i :| 0 <= i < |u| && u[i] == t[k];
      assert u[0].timestamp <= u[i].timestamp;
    }
    StrictCons(x, t);
  }

  /** A candle strictly earlier than every candle of a strictly increasing series can go in front of it. */
  lemma StrictCons(x: Candle, t: seq<Candle>)
    requires StrictlyIncreasing(t)
    requires forall k :: 0 <= k < |t| ==> x.timestamp < t[k].timestamp
    ensures StrictlyIncreasing([x] + t)
  {
    forall i, j | 0 <= i < j < |[x] + t| ensures ([x] + t)[i].timestamp < ([x] + t)[j].timestamp {
      if i > 0 {
        assert ([x] + t)[i] == t[i - 1];
      }
      assert ([x] + t)[j] == t[j - 1];
    }
  }

  /** The row that closes a run of equal timestamps in a sorted series. */
  predicate LastOfRun(s: seq<Candle>, i: int)
    requires 0 <= i < |s|
  {
    i == |s| - 1 || s[i + 1].timestamp != s[i].timestamp
  }

  /** De-duplication keeps exactly the rows that close a run: those survive and nothing else does. */
  lemma DedupKeepsLastOfEachRun(s: seq<Candle>)
    requires SortedByTime(s)
    ensures forall i :: 0 <= i < |s| && LastOfRun(s, i) ==> s[i] in DedupLast(s)
    ensures forall c :: c in DedupLast(s) ==> exists i :: 0 <= i < |s| && LastOfRun(s, i) && s[i] == c
  {
    DedupKeepsRunEnds(s);
    DedupOnlyRunEnds(s);
  }

  lemma {:induction false} DedupKeepsRunEnds(s: seq<Candle>)
    requires SortedByTime(s)
    ensures forall i :: 0 <= i < |s| && LastOfRun(s, i) ==> s[i] in DedupLast(s)
  {
    if |s| > 1 {
      DedupKeepsRunEnds(s[1..]);
      forall i | 0 <= i < |s| && LastOfRun(s, i) ensures s[i] in DedupLast(s) {
        if i > 0 {
          assert s[i] == s[1..][i - 1];
          assert LastOfRun(s[1..], i - 1);
        }
      }
    }
  }

  lemma {:induction false} DedupOnlyRunEnds(s: seq<Candle>)
    requires SortedByTime(s)
    ensures forall c :: c in DedupLast(s) ==> exists i :: 0 <= i < |s| && LastOfRun(s, i) && s[i] == c
  {
    if |s| > 1 {
      var t := DedupLast(s[1..]);
      DedupOnlyRunEnds(s[1..]);
      forall c | c in DedupLast(s) ensures exists i :: 0 <= i < |s| && LastOfRun(s, i) && s[i] == c {
        if c in t {
          var i :| 0 <= i < |s[1..]| && LastOfRun(s[1..], i) && s[1..][i] == c;
          assert LastOfRun(s, i + 1);
        } else {
          assert c == s[0] && LastOfRun(s, 0);
        }
      }
    }
  }

  /** Every timestamp of the sorted input survives de-duplication (with one row). */
  lemma {:induction false} DedupKeepsEveryTimestamp(s: seq<Candle>)
    requires SortedByTime(s)
    ensures forall i :: 0 <= i < |s| ==> exists j :: 0 <= j < |DedupLast(s)| && DedupLast(s)[j].timestamp == s[i].timestamp
  {
    if |s| > 1 {
      var r := DedupLast(s);
      var t := DedupLast(s[1..]);
      DedupKeepsEveryTimestamp(s[1..]);
      forall i | 0 <= i < |s| ensures exists j :: 0 <= j < |r| && r[j].timestamp == s[i].timestamp {
        if i > 0 {
          assert s[i] == s[1..][i - 1];
          var j :| 0 <= j < |t| && t[j].timestamp == s[i].timestamp;
          if s[0].timestamp == s[1].timestamp {
            assert r[j].timestamp == s[i].timestamp;
          } else {
            assert r[j + 1].timestamp == s[i].timestamp;
          }
        } else {
          assert r[0].timestamp == s[0].timestamp;
        }
      }
    } else {
      assert DedupLast(s) == s;
      forall i | 0 <= i < |s| ensures exists j :: 0 <= j < |DedupLast(s)| && DedupLast(s)[j].timestamp == s[i].timestamp {
        assert DedupLast(s)[i] == s[i];
      }
    }
  }

  /** A series without duplicate timestamps is left as it is. */
  lemma {:induction false} DedupOfStrictIsIdentity(s: seq<Candle>)
    requires StrictlyIncreasing(s)
    ensures DedupLast(s) == s
  {
    if |s| > 1 {
      DedupOfStrictIsIdentity(s[1..]);
    }
  }

  /** The bar of the row stamped `t`, if there is one. */
  function BarAt(r: seq<Candle>, t: int): (b: Option<Bar>)
    ensures b.Some? <==> exists i :: 0 <= i < |r| && r[i].timestamp == t
    ensures StrictlyIncreasing(r) ==> forall i :: 0 <= i < |r| && r[i].timestamp == t ==> b == Some(r[i].bar)
  {
    if r == [] then None
    else if r[0].timestamp == t then Some(r[0].bar)
    else
      assert forall i :: 1 <= i < |r| ==> r[i] == r[1..][i - 1];
      BarAt(r[1..], t)
  }

  /** The number of grid points from the first to the last timestamp of a sorted, non-empty series. */
  function GridLength(r: seq<Candle>, step: nat): (n: nat)
    requires r != [] && SortedByTime(r) && step > 0
    ensures n >= 1
  {
    (r[|r| - 1].timestamp - r[0].timestamp) / step + 1
  }

  /** `asfreq`: reindex onto the grid from the first timestamp in steps of `step`; a point with no row is a gap. */
  function AsFreq(r: seq<Candle>, step: nat): (g: seq<Slot>)
    requires StrictlyIncreasing(r) && step > 0
    ensures r == [] ==> g == []
    ensures r != [] ==> |g| == GridLength(r, step)
    ensures forall k :: 0 <= k < |g| ==> g[k].timestamp == r[0].timestamp + k * step
    ensures forall k :: 0 <= k < |g| ==> g[k].bar == BarAt(r, g[k].timestamp)
  {
    if r == [] then []
    else seq(GridLength(r, step), k => Slot(r[0].timestamp + k * step, BarAt(r, r[0].timestamp + k * step)))
  }

  /** `ffill()`: a gap takes the bar of the point before it (`carry` before the first point). */
  function FFill(g: seq<Slot>, carry: Option<Bar>): (r: seq<Slot>)
    ensures |r| == |g|
    ensures forall k :: 0 <= k < |g| ==> r[k].timestamp == g[k].timestamp
    ensures forall k :: 0 <= k < |g| && g[k].bar.Some? ==> r[k].bar == g[k].bar
    ensures |g| > 0 && g[0].bar.None? ==> r[0].bar == carry
    ensures forall k :: 0 < k < |g| && g[k].bar.None? ==> r[k].bar == r[k - 1].bar
    ensures (carry.Some? || (|g| > 0 && g[0].bar.Some?)) ==> forall k :: 0 <= k < |r| ==> r[k].bar.Some?
  {
    if g == [] then []
    else
      var b := if g[0].bar.Some? then g[0].bar else carry;
      var t := FFill(g[1..], b);
      assert forall k :: 1 <= k < |g| ==> g[k] == g[1..][k - 1];
      [Slot(g[0].timestamp, b)] + t
  }

  /** Reads the filled grid back as candles. */
  function ToCandles(g: seq<Slot>): (cs: seq<Candle>)
    requires forall k :: 0 <= k < |g| ==> g[k].bar.Some?
    ensures |cs| == |g|
    ensures forall k :: 0 <= k < |g| ==> cs[k] == Candle(g[k].timestamp, g[k].bar.value)
  {
    seq(|g|, k requires 0 <= k < |g| => Candle(g[k].timestamp, g[k].bar.value))
  }

  /** Timestamps `t0 + k * step` with a positive step are strictly increasing, one step apart. */
  lemma GridTimestamps(out: seq<Candle>, t0: int, step: nat)
    requires step > 0
    requires forall k :: 0 <= k < |out| ==> out[k].timestamp == t0 + k * step
    ensures StrictlyIncreasing(out)
    ensures forall k :: 0 < k < |out| ==> out[k].timestamp - out[k - 1].timestamp == step
  {
    forall i, j | 0 <= i < j < |out| ensures out[i].timestamp < out[j].timestamp {
      assert out[j].timestamp - out[i].timestamp == (j - i) * step;
    }
    forall k | 0 < k < |out| ensures out[k].timestamp - out[k - 1].timestamp == step {
      assert k * step - (k - 1) * step == step;
    }
  }

  /**
   * Everything after the sort: de-duplicate, snap onto the grid, fill the gaps.
   * Stated for ANY timestamp-sorted series, so it covers whichever order the
   * unstable sort produces.
   */
  function PrepareSorted(s: seq<Candle>, step: nat): (out: seq<Candle>)
    requires SortedByTime(s) && step > 0
    ensures s == [] <==> out == []
    ensures s != [] ==> |out| == (s[|s| - 1].timestamp - s[0].timestamp) / step + 1
    ensures forall k :: 0 <= k < |out| ==> out[k].timestamp == s[0].timestamp + k * step
    ensures StrictlyIncreasing(out)
  {
    var d := DedupLast(s);
    if d == [] then []
    else
      var out := ToCandles(FilledGrid(d, step));
      GridTimestamps(out, s[0].timestamp, step);
      out
  }

  /** `prepare_ohlcv`: the whole normaliser for the given timeframe label. */
  function PrepareOhlcv(rows: seq<RawRow>, timeframe: string): (out: seq<Candle>)
    ensures out == [] <==> forall i :: 0 <= i < |rows| ==> !Complete(rows[i])
    ensures StrictlyIncreasing(out)
    ensures forall k :: 0 < k < |out| ==> out[k].timestamp - out[k - 1].timestamp == StepMillis(timeframe)
  {
    var cs := DropIncomplete(rows);
    var out := PrepareSorted(SortByTime(cs), StepMillis(timeframe));
    GridTimestamps(out, if out == [] then 0 else out[0].timestamp, StepMillis(timeframe));
    out
  }

  /*
   * What the normaliser promises about its output, proved from the
   * definitions above.
   */

  /**
   * Whatever order the unstable sort leaves duplicates in, de-duplication
   * yields one row per timestamp of the complete input rows, and each row
   * it keeps is one of the complete input rows with that timestamp.
   */
  lemma DedupOfAnySort(rows: seq<RawRow>, sorted: seq<Candle>)
    requires SortedByTime(sorted) && multiset(sorted) == multiset(DropIncomplete(rows))
    ensures StrictlyIncreasing(DedupLast(sorted))
    ensures forall c :: c in DedupLast(sorted) ==>
              exists i :: 0 <= i < |rows| && Complete(rows[i]) && ToCandle(rows[i]) == c
    ensures forall i :: 0 <= i < |rows| && Complete(rows[i]) ==>
              exists j :: 0 <= j < |DedupLast(sorted)| && DedupLast(sorted)[j].timestamp == rows[i].timestamp.value
  {
    var cs := DropIncomplete(rows);
    var d := DedupLast(sorted);
    forall c | c in d ensures exists i :: 0 <= i < |rows| && Complete(rows[i]) && ToCandle(rows[i]) == c {
      assert c in multiset(sorted);
      assert c in cs;
    }
    DedupKeepsEveryTimestamp(sorted);
    forall i | 0 <= i < |rows| && Complete(rows[i])
      ensures exists j :: 0 <= j < |d| && d[j].timestamp == rows[i].timestamp.value
    {
      var c := ToCandle(rows[i]);
      assert c in multiset(cs);
      assert c in sorted;
      var m :| 0 <= m < |sorted| && sorted[m] == c;
      var j :| 0 <= j < |d| && d[j].timestamp == sorted[m].timestamp;
    }
  }

  lemma MulMonotone(a: int, b: int, c: nat)
    requires a <= b
    ensures a * c <= b * c
  {
    assert b * c - a * c == (b - a) * c;
  }

  lemma DivMonotone(a: int, b: int, c: nat)
    requires a <= b && c > 0
    ensures a / c <= b / c
  {
    if a / c > b / c {
      MulMonotone(b / c + 1, a / c, c);
      assert false;
    }
  }

  /** Quotient and remainder are unique: Euclidean division recovers `q` and `r`. */
  lemma DivModUnique(x: int, step: nat, q: int, r: int)
    requires step > 0 && x == q * step + r && 0 <= r < step
    ensures x / step == q && x % step == r
  {
    var q', r' := x / step, x % step;
    assert x == q' * step + r';
    assert (q' + 1) * step == q' * step + step;
    assert (q + 1) * step == q * step + step;
    if q' < q {
      MulMonotone(q' + 1, q, step);
      assert false;
    }
    if q' > q {
      MulMonotone(q + 1, q', step);
      assert false;
    }
  }

  lemma MultipleIsOnGrid(t0: int, step: nat, k: int)
    requires step > 0
    ensures OnGrid(t0 + k * step, t0, step)
  {
    DivModUnique(k * step, step, k, 0);
  }

  /** A point on the grid is the start plus a whole number of steps. */
  lemma OnGridIsMultiple(t: int, t0: int, step: nat)
    requires step > 0 && OnGrid(t, t0, step)
    ensures t == t0 + ((t - t0) / step) * step
  {
    var x := t - t0;
    assert x == (x / step) * step + x % step;
  }

  /** A grid point later than the `(k-1)`-th one is at or after the `k`-th one. */
  lemma NextGridPoint(t0: int, step: nat, k: int, t: int)
    requires step > 0 && OnGrid(t, t0, step)
    requires t0 + (k - 1) * step < t
    ensures t0 + k * step <= t
  {
    var m := (t - t0) / step;
    OnGridIsMultiple(t, t0, step);
    assert (k - 1) * step == k * step - step;
    if m <= k - 1 {
      MulMonotone(m, k - 1, step);
      assert false;
    }
    MulMonotone(k, m, step);
  }

  /** `t` is a point of the grid of `step` that starts at `t0`. */
  predicate OnGrid(t: int, t0: int, step: nat)
    requires step > 0
  {
    (t - t0) % step == 0
  }

  /** Row `i` is the last row of `d` that lies on the grid (of `step`, from `d[0]`) at or before `t`. */
  predicate LastOnGridAtOrBefore(d: seq<Candle>, step: nat, i: int, t: int)
    requires d != [] && step > 0
  {
    && 0 <= i < |d|
    && OnGrid(d[i].timestamp, d[0].timestamp, step)
    && d[i].timestamp <= t
    && forall j :: i < j < |d| && OnGrid(d[j].timestamp, d[0].timestamp, step) ==> d[j].timestamp > t
  }

  /** The filled grid of a de-duplicated series, as `PrepareSorted` builds it. */
  function FilledGrid(d: seq<Candle>, step: nat): (f: seq<Slot>)
    requires StrictlyIncreasing(d) && d != [] && step > 0
    ensures |f| == GridLength(d, step)
    ensures forall k :: 0 <= k < |f| ==> f[k].timestamp == d[0].timestamp + k * step && f[k].bar.Some?
    ensures forall k :: 0 <= k < |f| && AsFreq(d, step)[k].bar.Some? ==> f[k].bar == AsFreq(d, step)[k].bar
    ensures forall k :: 0 < k < |f| && AsFreq(d, step)[k].bar.None? ==> f[k].bar == f[k - 1].bar
  {
    var g := AsFreq(d, step);
    assert g[0].bar.Some? by { assert d[0].timestamp == g[0].timestamp; }
    FFill(g, None)
  }

  /** The slot-level statement behind `GridPointIsLastOnGridRow`. */
  lemma {:induction false} FilledSlotIsLastOnGridRow(d: seq<Candle>, step: nat, k: nat)
    requires StrictlyIncreasing(d) && d != [] && step > 0
    requires k < GridLength(d, step)
    ensures exists i :: LastOnGridAtOrBefore(d, step, i, d[0].timestamp + k * step)
                       && FilledGrid(d, step)[k].bar == Some(d[i].bar)
  {
    var g := AsFreq(d, step);
    var f := FilledGrid(d, step);
    var t := d[0].timestamp + k * step;
    assert g[k].bar == BarAt(d, t);
    if g[k].bar.Some? {
      var i :| 0 <= i < |d| && d[i].timestamp == t;
      OwnRowIsLastOnGrid(d, step, k, i);
      assert f[k].bar == Some(d[i].bar);
    } else {
      assert k > 0 by { assert d[0].timestamp == g[0].timestamp; }
      FilledSlotIsLastOnGridRow(d, step, k - 1);
      var i :| LastOnGridAtOrBefore(d, step, i, d[0].timestamp + (k - 1) * step)
               && f[k - 1].bar == Some(d[i].bar);
      LastOnGridExtends(d, step, k, i);
      assert f[k].bar == Some(d[i].bar);
    }
  }

  /** A row stamped exactly on a grid point is the last on-grid row up to that point. */
  lemma OwnRowIsLastOnGrid(d: seq<Candle>, step: nat, k: int, i: int)
    requires StrictlyIncreasing(d) && d != [] && step > 0
    requires 0 <= i < |d| && d[i].timestamp == d[0].timestamp + k * step
    ensures LastOnGridAtOrBefore(d, step, i, d[i].timestamp)
  {
    MultipleIsOnGrid(d[0].timestamp, step, k);
  }

  /** The last on-grid row up to one grid point stays the last up to the next, when no row sits on that next point. */
  lemma LastOnGridExtends(d: seq<Candle>, step: nat, k: int, i: int)
    requires d != [] && step > 0
    requires LastOnGridAtOrBefore(d, step, i, d[0].timestamp + (k - 1) * step)
    requires forall j :: 0 <= j < |d| ==> d[j].timestamp != d[0].timestamp + k * step
    ensures LastOnGridAtOrBefore(d, step, i, d[0].timestamp + k * step)
  {
    var t0 := d[0].timestamp;
    var t := t0 + k * step;
    assert t0 + (k - 1) * step <= t by { MulMonotone(k - 1, k, step); }
    forall j | i < j < |d| && OnGrid(d[j].timestamp, t0, step) ensures d[j].timestamp > t {
      NextGridPoint(t0, step, k, d[j].timestamp);
    }
  }

  /**
   * Each grid point of the output carries the bar of the last de-duplicated
   * input row that is on the grid and not later than that point: its own row
   * when one is stamped exactly there, else the filled-forward bar.
   */
  lemma GridPointIsLastOnGridRow(s: seq<Candle>, step: nat, k: nat)
    requires SortedByTime(s) && step > 0
    requires k < |PrepareSorted(s, step)|
    ensures exists i :: LastOnGridAtOrBefore(DedupLast(s), step, i, PrepareSorted(s, step)[k].timestamp)
                       && PrepareSorted(s, step)[k].bar == DedupLast(s)[i].bar
  {
    FilledSlotIsLastOnGridRow(DedupLast(s), step, k);
  }

  /** A whole number of steps that fits in `x` is at most `x / step`. */
  lemma MultipleBelowDiv(k: int, step: nat, x: int)
    requires step > 0 && k * step <= x
    ensures k <= x / step
  {
    var q := x / step;
    assert x == q * step + x % step;
    assert (q + 1) * step == q * step + step;
    if q < k {
      MulMonotone(q + 1, k, step);
      assert false;
    }
  }

  /**
   * A de-duplicated row on the grid (stamped `k` whole steps after the first
   * row) keeps its values: it is the output row at grid index `k`.
   */
  lemma OnGridRowIsKept(s: seq<Candle>, step: nat, i: nat, k: nat)
    requires SortedByTime(s) && step > 0
    requires i < |DedupLast(s)|
    requires DedupLast(s)[i].timestamp == DedupLast(s)[0].timestamp + k * step
    ensures k < |PrepareSorted(s, step)|
    ensures PrepareSorted(s, step)[k] == DedupLast(s)[i]
  {
    FilledSlotAtRow(DedupLast(s), step, i, k);
  }

  /** The slot-level statement behind `OnGridRowIsKept`. */
  lemma FilledSlotAtRow(d: seq<Candle>, step: nat, i: nat, k: nat)
    requires StrictlyIncreasing(d) && d != [] && step > 0
    requires i < |d| && d[i].timestamp == d[0].timestamp + k * step
    ensures k < GridLength(d, step)
    ensures FilledGrid(d, step)[k] == Slot(d[i].timestamp, Some(d[i].bar))
  {
    assert d[i].timestamp <= d[|d| - 1].timestamp;
    MultipleBelowDiv(k, step, d[|d| - 1].timestamp - d[0].timestamp);
    var g := AsFreq(d, step);
    assert g[k].timestamp == d[i].timestamp;
  }

  /** A grid point with no input row repeats the bar of the output row before it. */
  lemma GapCopiesPreviousRow(s: seq<Candle>, step: nat, k: nat)
    requires SortedByTime(s) && step > 0
    requires 0 < k < |PrepareSorted(s, step)|
    requires forall c :: c in s ==> c.timestamp != PrepareSorted(s, step)[k].timestamp
    ensures PrepareSorted(s, step)[k].bar == PrepareSorted(s, step)[k - 1].bar
  {
    var d := DedupLast(s);
    var g := AsFreq(d, step);
    assert g[k].timestamp == PrepareSorted(s, step)[k].timestamp;
    forall i | 0 <= i < |d| ensures d[i].timestamp != g[k].timestamp {
      assert d[i] in d;
    }
  }

  /** A series already on the grid of `step`: consecutive timestamps exactly one step apart. */
  predicate IsRegular(s: seq<Candle>, step: nat)
  {
    forall k :: 0 < k < |s| ==> s[k].timestamp - s[k - 1].timestamp == step
  }

  lemma {:induction false} RegularTimestamps(s: seq<Candle>, step: nat, k: nat)
    requires IsRegular(s, step) && k < |s|
    ensures s[k].timestamp == s[0].timestamp + k * step
  {
    if k > 0 {
      RegularTimestamps(s, step, k - 1);
    }
  }

  lemma {:induction false} DropIncompleteOfComplete(s: seq<Candle>)
    ensures DropIncomplete(ToRaws(s)) == s
  {
    if s != [] {
      DropIncompleteOfComplete(s[1..]);
      DropIncompleteCons(ToRaw(s[0]), ToRaws(s[1..]));
    }
  }

  /** A complete row in front survives `dropna()` as the first candle. */
  lemma DropIncompleteCons(r: RawRow, rows: seq<RawRow>)
    requires Complete(r)
    ensures DropIncomplete([r] + rows) == [ToCandle(r)] + DropIncomplete(rows)
  {
    assert ([r] + rows)[1..] == rows;
  }

  lemma {:induction false} InsertLatestAppends(c: Candle, s: seq<Candle>)
    requires SortedByTime(s)
    requires forall i :: 0 <= i < |s| ==> s[i].timestamp <= c.timestamp
    ensures Insert(c, s) == s + [c]
  {
    if s != [] {
      InsertLatestAppends(c, s[1..]);
      assert [s[0]] + (s[1..] + [c]) == s + [c];
    }
  }

  lemma {:induction false} SortOfSortedIsIdentity(s: seq<Candle>)
    requires SortedByTime(s)
    ensures SortByTime(s) == s
  {
    if s != [] {
      var init := s[..|s| - 1];
      SortOfSortedIsIdentity(init);
      InsertLatestAppends(s[|s| - 1], init);
      assert init + [s[|s| - 1]] == s;
    }
  }

  /** A regular series is strictly increasing, sits on its own grid and spans exactly its length in grid points. */
  lemma RegularIsOwnGrid(s: seq<Candle>, step: nat)
    requires IsRegular(s, step) && step > 0 && s != []
    ensures StrictlyIncreasing(s)
    ensures forall k :: 0 <= k < |s| ==> s[k].timestamp == s[0].timestamp + k * step
    ensures GridLength(s, step) == |s|
  {
    forall k | 0 <= k < |s| ensures s[k].timestamp == s[0].timestamp + k * step {
      RegularTimestamps(s, step, k);
    }
    GridTimestamps(s, s[0].timestamp, step);
    var n := |s|;
    RegularTimestamps(s, step, n - 1);
    DivModUnique(s[n - 1].timestamp - s[0].timestamp, step, n - 1, 0);
  }

  /** Snapping a regular series onto its own grid and filling gives back its candles. */
  lemma FilledGridOfRegular(s: seq<Candle>, step: nat)
    requires IsRegular(s, step) && step > 0 && s != []
    ensures StrictlyIncreasing(s)
    ensures ToCandles(FilledGrid(s, step)) == s
  {
    RegularIsOwnGrid(s, step);
    var f := FilledGrid(s, step);
    forall k | 0 <= k < |s| ensures f[k] == Slot(s[k].timestamp, Some(s[k].bar)) {
      FilledSlotAtRow(s, step, k, k);
    }
    var out := ToCandles(f);
    forall k | 0 <= k < |s| ensures out[k] == s[k] {
    }
  }

  /** On a regular series, de-duplication, grid snapping and filling change nothing. */
  lemma PrepareSortedOfRegular(s: seq<Candle>, step: nat)
    requires IsRegular(s, step) && step > 0
    ensures SortedByTime(s)
    ensures PrepareSorted(s, step) == s
  {
    if s != [] {
      FilledGridOfRegular(s, step);
      DedupOfStrictIsIdentity(s);
      assert DedupLast(s) == s;
    }
  }

  /** Normalising an already-normalised series (regular, hence sorted and duplicate-free) returns it unchanged. */
  lemma PrepareIsIdempotent(s: seq<Candle>, timeframe: string)
    requires IsRegular(s, StepMillis(timeframe))
    ensures PrepareOhlcv(ToRaws(s), timeframe) == s
  {
    DropIncompleteOfComplete(s);
    PrepareSortedOfRegular(s, StepMillis(timeframe));
    SortOfSortedIsIdentity(s);
  }
}
