/** The three-signal reversal estimate of components/reversal_probability.py: the
    columns must carry their exact standard names, a NaN RSI reads as neutral, and the
    integer score in [-4, 4] is scaled in steps of 20. */
module ReversalProbability {
  import opened Common
  import opened Columns
  import opened Rolling

  const Up := "UP"
  const Down := "DOWN"
  const NotAvailable := "N/A"

  const TooFewMessage := "Data terlalu sedikit untuk analisa reversal."
  const RsiOversold := "RSI Oversold → potensi Reversal UP."
  const RsiOverbought := "RSI Overbought → potensi Reversal DOWN."
  const RsiNeutral := "RSI di zona netral."
  const StrongBull := "Candle bullish kuat → mendukung Reversal UP."
  const StrongBear := "Candle bearish kuat → mendukung Reversal DOWN."
  const SmallBody := "Body candle kecil → sinyal lemah."
  const GreenSpike := "Volume spike pada candle hijau → tekanan beli kuat."
  const RedSpike := "Volume spike pada candle merah → tekanan jual kuat."
  const FlatSpike := "Volume spike tetapi body netral."
  const NormalVolume := "Volume normal → tidak ada dorongan besar."

  function MissingMessage(f: Field): string {
    "Kolom " + StdName(f) + " tidak tersedia."
  }

  datatype Features = Features(rsi: real, bodyPct: Option<real>, volRatio: real)

  /** The RSI proxy with NaN read as 50. */
  function RsiOrNeutral(closes: seq<Option<real>>): (r: real)
    requires |closes| > 0
    ensures 0.0 <= r <= 100.0
    ensures RsiProxyLast(closes).None? ==> r == 50.0
  {
    match RsiProxyLast(closes)
    case None => 50.0
    case Some(x) => x
  }

  function FeaturesOf(bars: seq<Bar>): (f: Features)
    requires |bars| > 0
    ensures 0.0 <= f.rsi <= 100.0
  {
    var last := bars[|bars| - 1];
    Features(RsiOrNeutral(seq(|bars|, i requires 0 <= i < |bars| => bars[i].close)),
             BodyPct(last.open, last.close),
             VolumeRatio(seq(|bars|, i requires 0 <= i < |bars| => bars[i].volume)))
  }

  function RsiPoints(rsi: real): int { if rsi < 30.0 then 2 else if rsi > 70.0 then -2 else 0 }

  function BodyPoints(p: Option<real>): int { if Gt(p, 1.0) then 1 else if Lt(p, -1.0) then -1 else 0 }

  /** A spike pushes the way the body points; a flat or NaN body pushes nowhere. */
  function VolumePoints(f: Features): int {
    if f.volRatio > 1.3 then (if Gt(f.bodyPct, 0.0) then 1 else if Lt(f.bodyPct, 0.0) then -1 else 0)
    else 0
  }

  function Score(f: Features): (s: int)
    ensures -4 <= s <= 4
    ensures f.volRatio <= 1.3 ==> -3 <= s <= 3
  { RsiPoints(f.rsi) + BodyPoints(f.bodyPct) + VolumePoints(f) }

  /** One line per signal, in the order RSI, body, volume. */
  function Signals(f: Features): (s: seq<string>)
    ensures |s| == 3
    ensures s[0] == RsiOversold <==> f.rsi < 30.0
    ensures s[0] == RsiOverbought <==> f.rsi > 70.0
    ensures s[1] == SmallBody <==> BodyPoints(f.bodyPct) == 0
    ensures s[2] == NormalVolume <==> f.volRatio <= 1.3
  {
    [ if f.rsi < 30.0 then RsiOversold else if f.rsi > 70.0 then RsiOverbought else RsiNeutral,
      if Gt(f.bodyPct, 1.0) then StrongBull else if Lt(f.bodyPct, -1.0) then StrongBear else SmallBody,
      if f.volRatio > 1.3 then
        (if Gt(f.bodyPct, 0.0) then GreenSpike else if Lt(f.bodyPct, 0.0) then RedSpike else FlatSpike)
      else NormalVolume ]
  }

  /** The scoring block as written: each signal appends its line and adjusts the score. */
  method ScoreFeatures(f: Features) returns (score: int, signals: seq<string>)
    ensures score == Score(f)
    ensures signals == Signals(f)
  {
    signals := [];
    score := 0;
    if f.rsi < 30.0 {
      signals := signals + [RsiOversold];
      score := score + 2;
    } else if f.rsi > 70.0 {
      signals := signals + [RsiOverbought];
      score := score - 2;
    } else {
      signals := signals + [RsiNeutral];
    }
    if Gt(f.bodyPct, 1.0) {
      signals := signals + [StrongBull];
      score := score + 1;
    } else if Lt(f.bodyPct, -1.0) {
      signals := signals + [StrongBear];
      score := score - 1;
    } else {
      signals := signals + [SmallBody];
    }
    if f.volRatio > 1.3 {
      if Gt(f.bodyPct, 0.0) {
        signals := signals + [GreenSpike];
        score := score + 1;
      } else if Lt(f.bodyPct, 0.0) {
        signals := signals + [RedSpike];
        score := score - 1;
      } else {
        signals := signals + [FlatSpike];
      }
    } else {
      signals := signals + [NormalVolume];
    }
  }

  /** `int(min(100, max(0, (score + 3) * 20)))` */
  function Probability(score: int): (p: int)
    ensures 0 <= p <= 100
  { Trunc(Clamp(0.0, 100.0, (score + 3) as real * 20.0)) }

  /** The probability moves in steps of 20, and crosses 55 exactly between score -1
      and score 0: a neutral reading is called UP. */
  lemma {:induction false} ProbabilitySteps(score: int)
    requires -4 <= score <= 4
    ensures Probability(score) % 20 == 0
    ensures Probability(score) >= 55 <==> score >= 0
  {
    if score <= -3 {
      assert Probability(score) == 0;
    } else if score <= 2 {
      assert (score + 3) as real * 20.0 == ((score + 3) * 20) as real;
      assert Probability(score) == (score + 3) * 20;
    } else {
      assert Probability(score) == 100;
    }
  }

  datatype Estimate = Estimate(prob: int, direction: string, signals: seq<string>)

  function CalcReversal(t: Table): (r: Estimate)
    ensures r.direction == NotAvailable <==> |t.rows| < 25 || FirstGap(ExactColumns(t.columns)).Some?
    ensures r.direction == NotAvailable ==> r.prob == 0 && |r.signals| == 1
    ensures |t.rows| < 25 ==> r.signals == [TooFewMessage]
    ensures |t.rows| >= 25 && FirstGap(ExactColumns(t.columns)).Some? ==>
      r.signals == [MissingMessage(FirstGap(ExactColumns(t.columns)).value)]
    ensures r.direction != NotAvailable ==>
      var f := FeaturesOf(ReadBars(t, ExactColumns(t.columns)));
      && r.prob == Probability(Score(f)) && r.prob % 20 == 0
      && (r.direction == Up <==> Score(f) >= 0)
      && (r.direction == Down <==> Score(f) < 0)
      && r.signals == Signals(f)
  {
    if |t.rows| < 25 then Estimate(0, NotAvailable, [TooFewMessage])
    else
      var m := ExactColumns(t.columns);
      match FirstGap(m)
      case Some(f) => Estimate(0, NotAvailable, [MissingMessage(f)])
      case None =>
        var f := FeaturesOf(ReadBars(t, m));
        var score := Score(f);
        var prob := Probability(score);
        ProbabilitySteps(score);
        Estimate(prob, if prob >= 55 then Up else Down, Signals(f))
  }
}
