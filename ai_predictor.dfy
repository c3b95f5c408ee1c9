/** The rule-based direction predictor (components/ai_predictor.py, class AIPredictor):
    four features of the last candle are computed with guarded divisions, and the
    number of strictly positive ones sets the probabilities, direction and confidence. */
module AiPredictor {
  import opened Common
  import opened Columns

  /** A fully numeric candle (after `dropna()` nothing is NaN). */
  datatype Candle = Candle(open: real, high: real, low: real, close: real, volume: real)

  datatype Features = Features(ret1: real, mom5: real, volMom: real, body: real)

  datatype Prediction = Prediction(direction: string, probUp: real, probDown: real,
                                   confidence: real, explanations: seq<string>)

  /** `predict` either returns its dictionary or lets an exception escape. */
  datatype PredictResult = Returned(prediction: Prediction) | Raises(error: PredictError)
  datatype PredictError = MissingOhlcv(missing: seq<Field>) | NoRowsLeft

  const TooFewMessage := "❗ Data terlalu sedikit untuk AI analisis."

  predicate Complete(row: seq<Option<real>>) { AllSome(row) }

  /** Reads one NaN-free row through the column map. */
  function RowCandle(row: seq<Option<real>>, m: map<Field, nat>): Candle
    requires Complete(row)
    requires forall f :: f in Fields ==> f in m && m[f] < |row|
  {
    assert Open in Fields && High in Fields && Low in Fields && Close in Fields && Volume in Fields;
    Candle(row[m[Open]].value, row[m[High]].value, row[m[Low]].value,
           row[m[Close]].value, row[m[Volume]].value)
  }

  /** `_normalize_ohlcv`: all five fields are mandatory, and `dropna()` removes every
      row holding a NaN in any column, whether or not it is one of the five. */
  function NormalizeOhlcv(t: Table): (r: Option<seq<Candle>>)
    ensures r.None? <==> exists f :: f in Fields && f !in ColumnMap(t.columns)
    ensures r.Some? ==> r.value == CompleteCandles(t, ColumnMap(t.columns))
    ensures r.Some? ==> |r.value| <= |t.rows|
    ensures r.Some? && (forall i :: 0 <= i < |t.rows| ==> Complete(t.rows[i])) ==> |r.value| == |t.rows|
  {
    var m := ColumnMap(t.columns);
    if |MissingOf(m, Fields)| > 0 then None
    else
      assert (forall i :: 0 <= i < |t.rows| ==> Complete(t.rows[i])) ==> KeepWhere(t.rows, Complete) == t.rows by {
        if forall i :: 0 <= i < |t.rows| ==> Complete(t.rows[i]) { KeepWhereAll(t.rows, Complete); }
      }
      Some(CompleteCandles(t, m))
  }

  /** The candles of the NaN-free rows, in table order: the j-th candle is read from
      the j-th row that `dropna()` keeps, and every NaN-free row yields one. */
  function CompleteCandles(t: Table, m: map<Field, nat>): (cs: seq<Candle>)
    requires forall f :: f in m ==> m[f] < |t.columns|
    requires forall f :: f in Fields ==> f in m
    ensures |cs| == |KeptPositions(t.rows, Complete)| <= |t.rows|
    ensures forall j :: 0 <= j < |cs| ==>
      var i := KeptPositions(t.rows, Complete)[j];
      Complete(t.rows[i]) && cs[j] == RowCandle(t.rows[i], m)
    ensures forall i :: 0 <= i < |t.rows| && Complete(t.rows[i]) ==> RowCandle(t.rows[i], m) in cs
  {
    var idx := KeptPositions(t.rows, Complete);
    forall j | 0 <= j < |idx| ensures idx[j] < |t.rows| && Complete(t.rows[idx[j]]) {
      KeptAt(t.rows, Complete, j);
    }
    var cs := seq(|idx|, j requires 0 <= j < |idx| => RowCandle(t.rows[idx[j]], m));
    assert forall i :: 0 <= i < |t.rows| && Complete(t.rows[i]) ==> RowCandle(t.rows[i], m) in cs by {
      forall i | 0 <= i < |t.rows| && Complete(t.rows[i]) ensures RowCandle(t.rows[i], m) in cs {
        KeptCovers(t.rows, Complete, i);
        var j :| 0 <= j < |idx| && idx[j] == i;
        assert cs[j] == RowCandle(t.rows[i], m);
      }
    }
    cs
  }

  function Closes(cs: seq<Candle>): seq<real> { seq(|cs|, i requires 0 <= i < |cs| => cs[i].close) }

  function Mean(xs: seq<real>): real
    requires |xs| > 0
  { Sum(xs) / |xs| as real }

  /** Percentage change from `base` to `x`, 0 when the base is 0. */
  function PctChange(base: real, x: real): (r: real)
    ensures base == 0.0 ==> r == 0.0
    ensures base > 0.0 ==> (r > 0.0 <==> x > base)
    ensures base < 0.0 ==> (r > 0.0 <==> x < base)
  {
    if base != 0.0 then
      var d := x - base;
      assert base > 0.0 ==> (d / base > 0.0 <==> d > 0.0);
      assert base < 0.0 ==> (d / base > 0.0 <==> d < 0.0);
      d / base * 100.0
    else 0.0
  }

  /** The volume baseline: the mean volume of the last min(21, n) candles, the last
      one included. */
  function BaseVolume(cs: seq<Candle>): real
    requires |cs| > 0
  {
    var last := |cs| - 1;
    var start := if last - 20 > 0 then last - 20 else 0;
    Mean(seq(last + 1 - start, k requires 0 <= k < last + 1 - start => cs[start + k].volume))
  }

  /** `_extract_features` on the normalised candles. */
  function ExtractFeatures(cs: seq<Candle>): (f: Features)
    requires |cs| > 0
    ensures |cs| == 1 ==> f.ret1 == 0.0
    ensures |cs| >= 2 && cs[|cs| - 2].close == 0.0 ==> f.ret1 == 0.0
    ensures |cs| >= 2 && cs[|cs| - 2].close > 0.0 ==> (f.ret1 > 0.0 <==> cs[|cs| - 1].close > cs[|cs| - 2].close)
    ensures |cs| < 6 ==> f.mom5 == f.ret1
    ensures |cs| >= 6 && cs[|cs| - 6].close == 0.0 ==> f.mom5 == f.ret1
    ensures |cs| >= 6 && cs[|cs| - 6].close > 0.0 ==> (f.mom5 > 0.0 <==> cs[|cs| - 1].close > cs[|cs| - 6].close)
    ensures BaseVolume(cs) == 0.0 ==> f.volMom == 0.0
    ensures BaseVolume(cs) > 0.0 ==> (f.volMom > 0.0 <==> cs[|cs| - 1].volume > BaseVolume(cs))
    ensures cs[|cs| - 1].open == 0.0 ==> f.body == 0.0
    ensures cs[|cs| - 1].open > 0.0 ==> (f.body > 0.0 <==> cs[|cs| - 1].close > cs[|cs| - 1].open)
  {
    var last := |cs| - 1;
    var ret1 := if last >= 1 then PctChange(cs[last - 1].close, cs[last].close) else 0.0;
    var mom5 := if last >= 5 && cs[last - 5].close != 0.0 then PctChange(cs[last - 5].close, cs[last].close) else ret1;
    var volMom := PctChange(BaseVolume(cs), cs[last].volume);
    var body := PctChange(cs[last].open, cs[last].close);
    Features(ret1, mom5, volMom, body)
  }

  function AsSeq(f: Features): seq<real> { [f.ret1, f.mom5, f.volMom, f.body] }

  const Positive: seq<string> := [
    "📈 Return candle terakhir positif.",
    "🚀 Momentum 5 candle terakhir bullish.",
    "📊 Volume berada di atas rata-rata (market aktif).",
    "💚 Candle body bullish (close > open)."]

  const Negative: seq<string> := [
    "📉 Return candle terakhir negatif.",
    "🔻 Momentum 5 candle terakhir bearish.",
    "💤 Volume di bawah rata-rata (market lemah).",
    "❤️ Candle body bearish (close < open)."]

  /** One line per feature: the positive message for a strictly positive feature,
      the negative message otherwise (zero included). */
  function Explanations(f: Features): (expl: seq<string>)
    ensures |expl| == 4
    ensures forall k :: 0 <= k < 4 ==> expl[k] == if AsSeq(f)[k] > 0.0 then Positive[k] else Negative[k]
  {
    seq(4, k requires 0 <= k < 4 => if AsSeq(f)[k] > 0.0 then Positive[k] else Negative[k])
  }

  /** `_explain_feats`: appends one message per feature, in feature order. */
  method ExplainFeats(f: Features) returns (expl: seq<string>)
    ensures expl == Explanations(f)
  {
    expl := [];
    if f.ret1 > 0.0 { expl := expl + [Positive[0]]; } else { expl := expl + [Negative[0]]; }
    if f.mom5 > 0.0 { expl := expl + [Positive[1]]; } else { expl := expl + [Negative[1]]; }
    if f.volMom > 0.0 { expl := expl + [Positive[2]]; } else { expl := expl + [Negative[2]]; }
    if f.body > 0.0 { expl := expl + [Positive[3]]; } else { expl := expl + [Negative[3]]; }
  }

  /** `sum(1 for x in feats if x > 0)` */
  function CountPositive(xs: seq<real>): (n: nat)
    ensures n <= |xs|
  {
    if |xs| == 0 then 0 else CountPositive(xs[..|xs| - 1]) + (if xs[|xs| - 1] > 0.0 then 1 else 0)
  }

  /** The probability, direction and confidence from the positive-feature count. */
  function FromScore(score: nat, expl: seq<string>): (p: Prediction)
    requires score <= 4
    ensures p.probUp == score as real / 4.0 && p.probUp + p.probDown == 1.0
    ensures p.direction == "UP" <==> score >= 2
    ensures p.direction == "UP" || p.direction == "DOWN"
    ensures p.confidence == Abs(p.probUp - p.probDown)
    ensures p.probUp in {0.0, 0.25, 0.5, 0.75, 1.0}
    ensures p.confidence in {0.0, 0.5, 1.0}
    ensures p.confidence == 0.0 <==> score == 2
    ensures p.explanations == expl
  {
    var probUp := score as real / 4.0;
    var probDown := 1.0 - probUp;
    var direction := if probUp >= 0.5 then "UP" else "DOWN";
    Prediction(direction, probUp, probDown, Abs(probUp - probDown), expl)
  }

  function NotAvailable(): Prediction { Prediction("N/A", 0.0, 0.0, 0.0, [TooFewMessage]) }

  /** `predict(df)`. The five-row guard looks at the raw frame; normalisation can
      still leave no row, in which case indexing the last candle raises. */
  function Predict(t: Table): (r: PredictResult)
    ensures |t.rows| < 5 ==> r == Returned(NotAvailable())
    ensures r.Raises? ==> |t.rows| >= 5
    ensures r.Raises? <==> |t.rows| >= 5 && (NormalizeOhlcv(t).None? || |NormalizeOhlcv(t).value| == 0)
    ensures |t.rows| >= 5 && r.Returned? ==>
      var p := r.prediction;
      && p.probUp in {0.0, 0.25, 0.5, 0.75, 1.0}
      && p.probUp + p.probDown == 1.0
      && (p.direction == "UP" <==> p.probUp >= 0.5)
      && (p.direction == "UP" || p.direction == "DOWN")
      && p.confidence == Abs(p.probUp - p.probDown)
      && p.confidence in {0.0, 0.5, 1.0}
      && |p.explanations| == 4
    ensures |t.rows| >= 5 && r.Returned? ==>
      var f := ExtractFeatures(CompleteCandles(t, ColumnMap(t.columns)));
      r.prediction == FromScore(CountPositive(AsSeq(f)), Explanations(f))
  {
    if |t.rows| < 5 then Returned(NotAvailable())
    else match NormalizeOhlcv(t)
      case None => Raises(MissingOhlcv(MissingOf(ColumnMap(t.columns), Fields)))
      case Some(cs) =>
        if |cs| == 0 then Raises(NoRowsLeft)
        else
          var feats := ExtractFeatures(cs);
          var score := CountPositive(AsSeq(feats));
          Returned(FromScore(score, Explanations(feats)))
  }

  /** The direction is UP exactly when at least two of the four features are
      strictly positive. */
  lemma {:induction false} DirectionIsMajority(cs: seq<Candle>)
    requires |cs| > 0
    ensures var f := ExtractFeatures(cs);
      FromScore(CountPositive(AsSeq(f)), Explanations(f)).direction == "UP" <==>
      (if f.ret1 > 0.0 then 1 else 0) + (if f.mom5 > 0.0 then 1 else 0) +
      (if f.volMom > 0.0 then 1 else 0) + (if f.body > 0.0 then 1 else 0) >= 2
  {
    var f := ExtractFeatures(cs);
    CountFour(f.ret1, f.mom5, f.volMom, f.body);
  }

  lemma CountFour(a: real, b: real, c: real, d: real)
    ensures CountPositive([a, b, c, d]) ==
      (if a > 0.0 then 1 else 0) + (if b > 0.0 then 1 else 0) +
      (if c > 0.0 then 1 else 0) + (if d > 0.0 then 1 else 0)
  {
    assert [a, b, c, d][..3] == [a, b, c];
    assert [a, b, c][..2] == [a, b];
    assert [a, b][..1] == [a];
    assert [a][..0] == [];
    assert CountPositive([a]) == (if a > 0.0 then 1 else 0);
    assert CountPositive([a, b]) == CountPositive([a]) + (if b > 0.0 then 1 else 0);
    assert CountPositive([a, b, c]) == CountPositive([a, b]) + (if c > 0.0 then 1 else 0);
    assert CountPositive([a, b, c, d]) == CountPositive([a, b, c]) + (if d > 0.0 then 1 else 0);
  }
}
