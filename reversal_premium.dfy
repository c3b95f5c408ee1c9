/** The weighted reversal scorer of components/reversal_premium.py: four features of
    the last bar (RSI proxy, body size, volume spike, range expansion) add up to an
    integer score in [-5, 5], which is scaled to a probability and a direction. */
module ReversalPremium {
  import opened Common
  import opened Columns
  import opened Rolling

  const Up := "UP"
  const Down := "DOWN"
  const Neutral := "NEUTRAL"

  const RsiOversold := "🟢 RSI Oversold → UP reversal bias"
  const RsiOverbought := "🔴 RSI Overbought → DOWN reversal bias"
  const RsiNeutral := "⚪ RSI neutral"
  const BullishBody := "📈 Bullish candle body"
  const BearishBody := "📉 Bearish candle body"
  const VolumeSpike := "💥 Volume spike detected"
  const Expansion := "⚡ Volatility expansion → strong shift potential"

  /** The body as a percentage of the open; a zero open gives an infinity of the
      body's sign, or NaN for a zero body. */
  function BodyPct(b: Bar): (e: Ext)
    requires HasOpenClose(b)
    ensures e.NaN? <==> b.open.value == 0.0 && b.close.value == 0.0
    ensures ExtGt(e, 0.0) <==>
      (b.open.value > 0.0 && b.close.value > b.open.value) ||
      (b.open.value < 0.0 && b.close.value < b.open.value) ||
      (b.open.value == 0.0 && b.close.value > 0.0)
  {
    var o, c := b.open.value, b.close.value;
    var body := c - o;
    if o != 0.0 then
      assert body / o > 0.0 <==> (o > 0.0 && body > 0.0) || (o < 0.0 && body < 0.0) by {
        SignOfQuotient(body, o);
      }
      Fin(body / o * 100.0)
    else if body > 0.0 then PosInf
    else if body < 0.0 then NegInf
    else NaN
  }

  lemma SignOfQuotient(x: real, y: real)
    requires y != 0.0
    ensures x / y > 0.0 <==> (y > 0.0 && x > 0.0) || (y < 0.0 && x < 0.0)
  {
    var q := x / y;
    assert q * y == x;
    if y > 0.0 {
      if q > 0.0 { assert x > 0.0; }
      if x > 0.0 { assert q > 0.0; }
    } else {
      if q > 0.0 { assert x < 0.0; }
      if x < 0.0 { assert q > 0.0; }
    }
  }

  // ---------------------------------------------------------------------------
  // Features and scoring
  // ---------------------------------------------------------------------------

  datatype Features = Features(rsi: Option<real>, bodyPct: Ext, volRatio: real, expansion: bool)

  /** `last_vol > volat * 1.2`, false when either side is NaN. */
  predicate Expands(last: Option<real>, mean: Option<real>) {
    last.Some? && mean.Some? && last.value > mean.value * 1.2
  }

  function FeaturesOf(bars: seq<Bar>): (f: Features)
    requires |bars| > 0 && HasOpenClose(bars[|bars| - 1])
    ensures f.rsi.Some? ==> 0.0 <= f.rsi.value <= 100.0
  {
    var ranges := Ranges(bars);
    Features(RsiProxyLast(Closes(bars)), BodyPct(bars[|bars| - 1]), VolumeRatio(Volumes(bars)),
             Expands(ranges[|bars| - 1], RollingMeanLast(ranges, 10)))
  }

  /** RSI below 30 scores +2, above 70 scores -2; NaN scores nothing. */
  function RsiPoints(rsi: Option<real>): int {
    if Lt(rsi, 30.0) then 2 else if Gt(rsi, 70.0) then -2 else 0
  }

  function BodyPoints(p: Ext): int {
    if ExtGt(p, 1.0) then 1 else if ExtLt(p, -1.0) then -1 else 0
  }

  /** The side a spike or an expansion pushes: up for a positive body, down otherwise
      (a zero or NaN body counts as down). */
  function Lean(p: Ext): int {
    if ExtGt(p, 0.0) then 1 else -1
  }

  function PremiumScore(f: Features): (s: int)
    ensures -5 <= s <= 5
    ensures f.volRatio <= 1.4 && !f.expansion ==> -3 <= s <= 3
  {
    RsiPoints(f.rsi) + BodyPoints(f.bodyPct) + (if f.volRatio > 1.4 then Lean(f.bodyPct) else 0)
      + (if f.expansion then Lean(f.bodyPct) else 0)
  }

  function PremiumExplanations(f: Features): (e: seq<string>)
    ensures 1 <= |e| <= 4
    ensures e[0] == RsiOversold <==> Lt(f.rsi, 30.0)
    ensures e[0] == RsiOverbought <==> !Lt(f.rsi, 30.0) && Gt(f.rsi, 70.0)
    ensures VolumeSpike in e <==> f.volRatio > 1.4
    ensures Expansion in e <==> f.expansion
  {
    [RsiLine(f.rsi)] + BodyLines(f.bodyPct) + (if f.volRatio > 1.4 then [VolumeSpike] else [])
      + (if f.expansion then [Expansion] else [])
  }

  function RsiLine(rsi: Option<real>): string {
    if Lt(rsi, 30.0) then RsiOversold else if Gt(rsi, 70.0) then RsiOverbought else RsiNeutral
  }

  function BodyLines(p: Ext): seq<string> {
    if ExtGt(p, 1.0) then [BullishBody] else if ExtLt(p, -1.0) then [BearishBody] else []
  }

  /** The scoring block as the detector runs it: each feature adds its points and
      appends its line in turn. */
  method ScoreFeatures(f: Features) returns (score: int, explanations: seq<string>)
    ensures score == PremiumScore(f)
    ensures explanations == PremiumExplanations(f)
  {
    score := 0;
    explanations := [];
    if Lt(f.rsi, 30.0) {
      score := score + 2;
      explanations := explanations + [RsiOversold];
    } else if Gt(f.rsi, 70.0) {
      score := score - 2;
      explanations := explanations + [RsiOverbought];
    } else {
      explanations := explanations + [RsiNeutral];
    }
    assert score == RsiPoints(f.rsi) && explanations == [RsiLine(f.rsi)];
    if ExtGt(f.bodyPct, 1.0) {
      score := score + 1;
      explanations := explanations + [BullishBody];
    } else if ExtLt(f.bodyPct, -1.0) {
      score := score - 1;
      explanations := explanations + [BearishBody];
    }
    assert score == RsiPoints(f.rsi) + BodyPoints(f.bodyPct);
    assert explanations == [RsiLine(f.rsi)] + BodyLines(f.bodyPct);
    ghost var before := explanations;
    if f.volRatio > 1.4 {
      explanations := explanations + [VolumeSpike];
      score := score + (if ExtGt(f.bodyPct, 0.0) then 1 else -1);
    }
    assert explanations == before + (if f.volRatio > 1.4 then [VolumeSpike] else []);
    if f.expansion {
      explanations := explanations + [Expansion];
      score := score + (if ExtGt(f.bodyPct, 0.0) then 1 else -1);
    }
  }

  // ---------------------------------------------------------------------------
  // Output scaling
  // ---------------------------------------------------------------------------

  /** `int(min(100, max(0, (score + 4) * 12.5)))` */
  function PremiumProb(score: int): (p: int)
    ensures 0 <= p <= 100
  { Trunc(Clamp(0.0, 100.0, (score + 4) as real * 12.5)) }

  /** `abs(prob - 50) / 50` */
  function Confidence(prob: int): (c: real)
    requires 0 <= prob <= 100
    ensures 0.0 <= c <= 1.0
    ensures c == 0.0 <==> prob == 50
  { Abs((prob - 50) as real) / 50.0 }

  function DirectionOf(prob: int): (d: string)
    ensures d == Up <==> prob > 58
    ensures d == Down <==> prob < 42
    ensures d == Neutral <==> 42 <= prob <= 58
  { if prob > 58 then Up else if prob < 42 then Down else Neutral }

  /** The scale has no probability between 37 and 62 except 50, so the direction is the
      sign of the score. */
  lemma {:induction false} DirectionIsScoreSign(score: int)
    requires -5 <= score <= 5
    ensures DirectionOf(PremiumProb(score)) == Up <==> score >= 1
    ensures DirectionOf(PremiumProb(score)) == Down <==> score <= -1
    ensures DirectionOf(PremiumProb(score)) == Neutral <==> score == 0
  {
    var x := (score + 4) as real * 12.5;
    if score <= -4 {
      assert PremiumProb(score) == 0;
    } else if score == -3 {
      assert x == 12.5;
      assert PremiumProb(score) == 12;
    } else if score == -2 {
      assert PremiumProb(score) == 25;
    } else if score == -1 {
      assert x == 37.5;
      assert PremiumProb(score) == 37;
    } else if score == 0 {
      assert PremiumProb(score) == 50;
    } else if score == 1 {
      assert x == 62.5;
      assert PremiumProb(score) == 62;
    } else if score == 2 {
      assert PremiumProb(score) == 75;
    } else if score == 3 {
      assert x == 87.5;
      assert PremiumProb(score) == 87;
    } else {
      assert PremiumProb(score) == 100;
    }
  }

  // ---------------------------------------------------------------------------
  // The detector
  // ---------------------------------------------------------------------------

  datatype PremiumResult = PremiumResult(prob: int, direction: string, confidence: real,
                                         explanations: seq<string>)

  /** `max(14, int(n * 0.15))` */
  function MinRequired(n: nat): (m: int)
    ensures n < m <==> n < 14
  { var d := Trunc(n as real * 0.15); if d > 14 then d else 14 }

  function DataErrorMessage(f: Field): string {
    "Data error: 'Missing column: " + StdName(f) + "'"
  }

  function InsufficientMessage(n: nat): string {
    "Data insufficient: " + NatToString(n) + "/14 candles"
  }

  function PremiumReversal(t: Table): (r: PremiumResult)
    ensures 0 <= r.prob <= 100 && 0.0 <= r.confidence <= 1.0 && |r.explanations| >= 1
    ensures r.direction in {Up, Down, Neutral}
    ensures RequireAllThenDrop(t, ColumnMap(t.columns)).MissingColumn? ==>
      r == PremiumResult(0, Neutral, 0.0, [DataErrorMessage(RequireAllThenDrop(t, ColumnMap(t.columns)).field)])
    ensures RequireAllThenDrop(t, ColumnMap(t.columns)).Candles? && |RequireAllThenDrop(t, ColumnMap(t.columns)).bars| < 14 ==>
      r == PremiumResult(0, Neutral, 0.0, [InsufficientMessage(|RequireAllThenDrop(t, ColumnMap(t.columns)).bars|)])
    ensures RequireAllThenDrop(t, ColumnMap(t.columns)).Candles? && |RequireAllThenDrop(t, ColumnMap(t.columns)).bars| >= 14 ==>
      var f := FeaturesOf(RequireAllThenDrop(t, ColumnMap(t.columns)).bars);
      && (r.direction == Up <==> PremiumScore(f) >= 1)
      && (r.direction == Down <==> PremiumScore(f) <= -1)
      && r.prob == PremiumProb(PremiumScore(f))
      && r.confidence == Confidence(r.prob)
      && r.explanations == PremiumExplanations(f)
  {
    match RequireAllThenDrop(t, ColumnMap(t.columns))
    case MissingColumn(field) => PremiumResult(0, Neutral, 0.0, [DataErrorMessage(field)])
    case Candles(bars) =>
      var n := |bars|;
      if n < MinRequired(n) then PremiumResult(0, Neutral, 0.0, [InsufficientMessage(n)])
      else
        var f := FeaturesOf(bars);
        var score := PremiumScore(f);
        var prob := PremiumProb(score);
        DirectionIsScoreSign(score);
        PremiumResult(prob, DirectionOf(prob), Confidence(prob), PremiumExplanations(f))
  }
}
