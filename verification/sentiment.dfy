/**
 * The sentiment aggregator (sentiment/engine.py). The VADER analyser is
 * the `scorer` argument: any function from text to the four polarity
 * scores. A document is a dict of JSON fields; a row of the frame is the
 * document with the four scores merged in.
 */
module Sentiment {
  import opened Wrappers
  import opened Json

  type Document = map<string, Json>

  /** The analyser's output for one text. */
  datatype Scores = Scores(compound: real, pos: real, neg: real, neu: real)

  /** The aggregate: the mean of each axis, the document count, and the bias when there is a document. */
  datatype Aggregate = Aggregate(compound: real, pos: real, neg: real, neu: real, buzz: nat, bias: Option<real>)

  /** The frame's rows and the aggregate. */
  datatype SentimentResult = SentimentResult(rows: seq<Document>, aggregate: Aggregate)

  /** A document the analyser accepts: a truthy `text` field is a string. */
  predicate Scorable(doc: Document)
  {
    "text" in doc && Truthy(doc["text"]) ==> doc["text"].JStr?
  }

  /** `doc.get("text") or ""`. */
  function TextOf(doc: Document): (t: string)
    requires Scorable(doc)
    ensures t == "" <==> "text" !in doc || !Truthy(doc["text"])
    ensures t != "" ==> doc["text"] == JStr(t)
  {
    if "text" in doc && Truthy(doc["text"]) then doc["text"].s else ""
  }

  const ScoreKeys: set<string> := {"compound", "pos", "neg", "neu"}

  /** The score fields of a row. */
  function ScoreFields(s: Scores): (m: map<string, Json>)
    ensures m.Keys == ScoreKeys
  {
    map["compound" := JNum(s.compound), "pos" := JNum(s.pos), "neg" := JNum(s.neg), "neu" := JNum(s.neu)]
  }

  /** `{**doc, **scores}`: the scores override document fields of the same name. */
  function RowOf(doc: Document, s: Scores): (row: Document)
    ensures row.Keys == doc.Keys + ScoreKeys
    ensures row["compound"] == JNum(s.compound) && row["pos"] == JNum(s.pos)
    ensures row["neg"] == JNum(s.neg) && row["neu"] == JNum(s.neu)
    ensures forall k :: k in doc && k !in ScoreKeys ==> row[k] == doc[k]
  {
    doc + ScoreFields(s)
  }

  function Sum(xs: seq<real>): real
  {
    if xs == [] then 0.0 else Sum(xs[..|xs| - 1]) + xs[|xs| - 1]
  }

  /** The arithmetic mean of a non-empty series. */
  function Mean(xs: seq<real>): (m: real)
    requires |xs| > 0
    ensures m * |xs| as real == Sum(xs)
  {
    Sum(xs) / |xs| as real
  }

  function Compounds(ss: seq<Scores>): (r: seq<real>)
    ensures |r| == |ss| && forall i :: 0 <= i < |ss| ==> r[i] == ss[i].compound
  {
    seq(|ss|, i requires 0 <= i < |ss| => ss[i].compound)
  }

  function Positives(ss: seq<Scores>): (r: seq<real>)
    ensures |r| == |ss| && forall i :: 0 <= i < |ss| ==> r[i] == ss[i].pos
  {
    seq(|ss|, i requires 0 <= i < |ss| => ss[i].pos)
  }

  function Negatives(ss: seq<Scores>): (r: seq<real>)
    ensures |r| == |ss| && forall i :: 0 <= i < |ss| ==> r[i] == ss[i].neg
  {
    seq(|ss|, i requires 0 <= i < |ss| => ss[i].neg)
  }

  function Neutrals(ss: seq<Scores>): (r: seq<real>)
    ensures |r| == |ss| && forall i :: 0 <= i < |ss| ==> r[i] == ss[i].neu
  {
    seq(|ss|, i requires 0 <= i < |ss| => ss[i].neu)
  }

  /** `_aggregate`: all zeros and no bias for an empty frame, else the means, the count and `pos - neg`. */
  function AggregateScores(ss: seq<Scores>): (a: Aggregate)
    ensures a.buzz == |ss|
    ensures a.bias.Some? <==> |ss| > 0
    ensures |ss| == 0 ==> a == Aggregate(0.0, 0.0, 0.0, 0.0, 0, None)
    ensures |ss| > 0 ==> a.compound * |ss| as real == Sum(Compounds(ss))
    ensures |ss| > 0 ==> a.pos * |ss| as real == Sum(Positives(ss))
    ensures |ss| > 0 ==> a.neg * |ss| as real == Sum(Negatives(ss))
    ensures |ss| > 0 ==> a.neu * |ss| as real == Sum(Neutrals(ss))
    ensures a.bias.Some? ==> a.bias.value == a.pos - a.neg
  {
    if ss == [] then Aggregate(0.0, 0.0, 0.0, 0.0, 0, None)
    else
      var pos := Mean(Positives(ss));
      var neg := Mean(Negatives(ss));
      Aggregate(Mean(Compounds(ss)), pos, neg, Mean(Neutrals(ss)), |ss|, Some(pos - neg))
  }

  /** The scores of each document, in input order. */
  function ScoresOf(docs: seq<Document>, scorer: string -> Scores): (ss: seq<Scores>)
    requires forall i :: 0 <= i < |docs| ==> Scorable(docs[i])
    ensures |ss| == |docs| && forall i :: 0 <= i < |docs| ==> ss[i] == scorer(TextOf(docs[i]))
  {
    seq(|docs|, i requires 0 <= i < |docs| => scorer(TextOf(docs[i])))
  }

  /** `score_documents`: one row per document, in order, and the aggregate of their scores. */
  function ScoreDocuments(docs: seq<Document>, scorer: string -> Scores): (r: SentimentResult)
    requires forall i :: 0 <= i < |docs| ==> Scorable(docs[i])
    ensures |r.rows| == |docs|
    ensures forall i :: 0 <= i < |docs| ==> r.rows[i] == RowOf(docs[i], scorer(TextOf(docs[i])))
    ensures r.aggregate.buzz == |docs|
    ensures r.aggregate.bias.Some? <==> |docs| > 0
    ensures |docs| == 0 ==> r.aggregate == Aggregate(0.0, 0.0, 0.0, 0.0, 0, None)
    ensures r.aggregate == AggregateScores(ScoresOf(docs, scorer))
  {
    var ss := ScoresOf(docs, scorer);
    SentimentResult(seq(|docs|, i requires 0 <= i < |docs| => RowOf(docs[i], ss[i])), AggregateScores(ss))
  }

  /** A sum of terms within `[lo, hi]` lies between `n * lo` and `n * hi`. */
  lemma {:induction false} SumWithin(xs: seq<real>, lo: real, hi: real)
    requires forall i :: 0 <= i < |xs| ==> lo <= xs[i] <= hi
    ensures |xs| as real * lo <= Sum(xs) <= |xs| as real * hi
  {
    if xs != [] {
      var init := xs[..|xs| - 1];
      assert forall i :: 0 <= i < |init| ==> init[i] == xs[i];
      SumWithin(init, lo, hi);
      assert |xs| as real * lo == |init| as real * lo + lo;
      assert |xs| as real * hi == |init| as real * hi + hi;
    }
  }

  /** A mean of terms within `[lo, hi]` lies within `[lo, hi]`. */
  lemma MeanWithin(xs: seq<real>, lo: real, hi: real)
    requires |xs| > 0
    requires forall i :: 0 <= i < |xs| ==> lo <= xs[i] <= hi
    ensures lo <= Mean(xs) <= hi
  {
    SumWithin(xs, lo, hi);
    var n := |xs| as real;
    assert (Mean(xs) - lo) * n >= 0.0;
    assert (hi - Mean(xs)) * n >= 0.0;
  }

  /** If the analyser keeps every compound score in `[-1, 1]`, so is the aggregate compound. */
  lemma AggregateCompoundWithinUnit(docs: seq<Document>, scorer: string -> Scores)
    requires forall i :: 0 <= i < |docs| ==> Scorable(docs[i])
    requires forall t :: -1.0 <= scorer(t).compound <= 1.0
    ensures -1.0 <= ScoreDocuments(docs, scorer).aggregate.compound <= 1.0
  {
    var ss := ScoresOf(docs, scorer);
    if |ss| > 0 {
      MeanWithin(Compounds(ss), -1.0, 1.0);
    }
  }

  /** The sum of differences is the difference of the sums. */
  lemma {:induction false} SumOfDifferences(xs: seq<real>, ys: seq<real>)
    requires |xs| == |ys|
    ensures Sum(seq(|xs|, i requires 0 <= i < |xs| => xs[i] - ys[i])) == Sum(xs) - Sum(ys)
  {
    var d := seq(|xs|, i requires 0 <= i < |xs| => xs[i] - ys[i]);
    if xs != [] {
      var n := |xs| - 1;
      SumOfDifferences(xs[..n], ys[..n]);
      assert d[..n] == seq(n, i requires 0 <= i < n => xs[..n][i] - ys[..n][i]);
    }
  }

  /** Two reals with the same product by a positive factor are equal. */
  lemma CancelFactor(x: real, y: real, n: real)
    requires n > 0.0 && x * n == y * n
    ensures x == y
  {
    assert (x - y) * n == 0.0;
  }

  /** Per-document `pos - neg`. */
  function Differences(ss: seq<Scores>): (r: seq<real>)
    ensures |r| == |ss| && forall i :: 0 <= i < |ss| ==> r[i] == ss[i].pos - ss[i].neg
  {
    seq(|ss|, i requires 0 <= i < |ss| => ss[i].pos - ss[i].neg)
  }

  /** The bias of a non-empty aggregate is the mean of the per-document `pos - neg`. */
  lemma BiasIsMeanOfDifferences(ss: seq<Scores>)
    requires |ss| > 0
    ensures AggregateScores(ss).bias == Some(Mean(Differences(ss)))
  {
    var d := Differences(ss);
    SumOfDifferences(Positives(ss), Negatives(ss));
    assert d == seq(|ss|, i requires 0 <= i < |ss| => Positives(ss)[i] - Negatives(ss)[i]);
    var a := AggregateScores(ss);
    var n := |ss| as real;
    calc {
      (a.pos - a.neg) * n;
      a.pos * n - a.neg * n;
      Sum(Positives(ss)) - Sum(Negatives(ss));
      Sum(d);
      Mean(d) * n;
    }
    CancelFactor(a.pos - a.neg, Mean(d), n);
  }

  /** The aggregate as the dict `build_signals` reads: the four means and the count, plus `bias` when present. */
  function AggregateFields(a: Aggregate): (m: map<string, real>)
    ensures m.Keys == ScoreKeys + {"buzz"} + (if a.bias.Some? then {"bias"} else {})
    ensures m["compound"] == a.compound && m["pos"] == a.pos && m["neg"] == a.neg && m["neu"] == a.neu
    ensures m["buzz"] == a.buzz as real
    ensures a.bias.Some? ==> m["bias"] == a.bias.value
  {
    var base := map["compound" := a.compound, "pos" := a.pos, "neg" := a.neg, "neu" := a.neu, "buzz" := a.buzz as real];
    if a.bias.Some? then base["bias" := a.bias.value] else base
  }
}
