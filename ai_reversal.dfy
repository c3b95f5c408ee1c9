/** The hammer / shooting-star detector (components/ai_reversal.py): after the OHLCV
    columns are resolved and rows without open or close are dropped, only the last
    candle's wicks and body decide the signal. */
module AiReversal {
  import opened Common
  import opened Columns

  const NoSignal := "NO_SIGNAL"
  const ReversalUp := "REVERSAL_UP"
  const ReversalDown := "REVERSAL_DOWN"

  const TooFewMessage := "Data terlalu sedikit untuk deteksi reversal."
  const HammerMessage := "🟢 Bullish hammer terdeteksi."
  const ShootingStarMessage := "🔴 Bearish shooting star terdeteksi."
  const NoClearMessage := "No clear reversal signal detected."

  /** `f"Data error: {e}"` for the `KeyError` raised on missing columns: the string
      of a `KeyError` is the repr of its argument, which holds single quotes and is
      therefore wrapped in double quotes. */
  function DataErrorMessage(missing: seq<Field>, columns: seq<string>): (msg: string)
  {
    var e := "\"Missing OHLC columns: " + ListRepr(StdNames(missing)) +
      ". Available: " + ListRepr(columns) + "\"";
    assert ("Data error: " + e)[..12] == "Data error: ";
    "Data error: " + e
  }

  /** Open, High, Low and Close are mandatory here; Volume is optional. */
  const Mandatory: seq<Field> := [Open, High, Low, Close]

  datatype OhlcFrame = OhlcRows(bars: seq<Bar>) | MissingOhlc(missing: seq<Field>)

  /** Resolve the columns, fail listing every mandatory field without a column, then
      drop the rows whose open or close is NaN. */
  function NormalizeOhlcv(t: Table): (r: OhlcFrame)
    ensures r.MissingOhlc? <==> exists f :: f in Mandatory && f !in ColumnMap(t.columns)
    ensures r.MissingOhlc? ==> forall f :: f in r.missing <==> f in Mandatory && f !in ColumnMap(t.columns)
    ensures r.OhlcRows? ==> r.bars == KeepWhere(ReadBars(t, ColumnMap(t.columns)), HasOpenClose)
    ensures r.OhlcRows? ==> |r.bars| <= |t.rows| && forall i :: 0 <= i < |r.bars| ==> HasOpenClose(r.bars[i])
  {
    var m := ColumnMap(t.columns);
    var missing := MissingOf(m, Mandatory);
    if |missing| > 0 then MissingOhlc(missing)
    else
      KeepWhereMembers(ReadBars(t, m), HasOpenClose);
      OhlcRows(KeepWhere(ReadBars(t, m), HasOpenClose))
  }

  /** `min(open, close) - low`, NaN when low is NaN. */
  function LowerWick(b: Bar): (w: Option<real>)
    requires HasOpenClose(b)
    ensures b.low.Some? && b.low.value <= b.open.value && b.low.value <= b.close.value ==>
      w.Some? && w.value >= 0.0
  {
    Sub(if b.close.value > b.open.value then b.open else b.close, b.low)
  }

  /** `high - max(open, close)`, NaN when high is NaN. */
  function UpperWick(b: Bar): (w: Option<real>)
    requires HasOpenClose(b)
    ensures b.high.Some? && b.open.value <= b.high.value && b.close.value <= b.high.value ==>
      w.Some? && w.value >= 0.0
  {
    Sub(b.high, if b.close.value > b.open.value then b.close else b.open)
  }

  function Body(b: Bar): (r: real)
    requires HasOpenClose(b)
    ensures r >= 0.0 && (r == 0.0 <==> b.close.value == b.open.value)
  { Abs(b.close.value - b.open.value) }

  /** The wick/body rule on one candle: a bullish candle whose lower wick exceeds
      2.5 x sensitivity bodies is a hammer; a bearish one whose upper wick does is a
      shooting star. */
  function Classify(b: Bar, sensitivity: real): (s: string)
    requires HasOpenClose(b)
    ensures s == ReversalUp <==>
      b.close.value > b.open.value && Gt(LowerWick(b), Body(b) * (2.5 * sensitivity))
    ensures s == ReversalDown <==>
      b.close.value < b.open.value && Gt(UpperWick(b), Body(b) * (2.5 * sensitivity))
    ensures b.close.value == b.open.value ==> s == NoSignal
    ensures s == NoSignal || s == ReversalUp || s == ReversalDown
  {
    var c, o := b.close.value, b.open.value;
    var threshold := Body(b) * (2.5 * sensitivity);
    if Gt(LowerWick(b), threshold) && c > o then ReversalUp
    else if Gt(UpperWick(b), threshold) && c < o then ReversalDown
    else NoSignal
  }

  function Explain(s: string): string {
    if s == ReversalUp then HammerMessage
    else if s == ReversalDown then ShootingStarMessage
    else NoClearMessage
  }

  /** The detector on already normalised candles. */
  function DetectOnBars(bars: seq<Bar>, sensitivity: real): (r: (string, seq<string>))
    requires forall i :: 0 <= i < |bars| ==> HasOpenClose(bars[i])
    ensures |bars| < 5 ==> r == (NoSignal, [TooFewMessage])
    ensures |bars| >= 5 ==> r.0 == Classify(bars[|bars| - 1], sensitivity)
    ensures |r.1| == 1
  {
    if |bars| < 5 then (NoSignal, [TooFewMessage])
    else
      var s := Classify(bars[|bars| - 1], sensitivity);
      (s, [Explain(s)])
  }

  /** `detect_reversal(df, sensitivity)`: the signal and its single explanation. */
  function DetectReversal(t: Table, sensitivity: real): (r: (string, seq<string>))
    ensures r.0 == NoSignal || r.0 == ReversalUp || r.0 == ReversalDown
    ensures |r.1| == 1
    ensures NormalizeOhlcv(t).MissingOhlc? ==>
      r == (NoSignal, [DataErrorMessage(NormalizeOhlcv(t).missing, t.columns)])
    ensures NormalizeOhlcv(t).OhlcRows? && |NormalizeOhlcv(t).bars| < 5 ==> r == (NoSignal, [TooFewMessage])
    ensures NormalizeOhlcv(t).OhlcRows? && |NormalizeOhlcv(t).bars| >= 5 ==>
      var bars := NormalizeOhlcv(t).bars;
      r.0 == Classify(bars[|bars| - 1], sensitivity) && r.1 == [Explain(r.0)]
  {
    match NormalizeOhlcv(t)
    case MissingOhlc(missing) => (NoSignal, [DataErrorMessage(missing, t.columns)])
    case OhlcRows(bars) => DetectOnBars(bars, sensitivity)
  }

  /** With at least five surviving candles, the signal is the rule applied to the
      last row of the frame whose open and close are both present. */
  lemma LastCompleteRowDecides(t: Table, sensitivity: real, i: nat)
    requires NormalizeOhlcv(t).OhlcRows? && |NormalizeOhlcv(t).bars| >= 5
    requires i < |t.rows| && HasOpenClose(ReadBars(t, ColumnMap(t.columns))[i])
    requires forall k :: i < k < |t.rows| ==> !HasOpenClose(ReadBars(t, ColumnMap(t.columns))[k])
    ensures DetectReversal(t, sensitivity).0 == Classify(ReadBars(t, ColumnMap(t.columns))[i], sensitivity)
  {
    LastKeptDecides(ReadBars(t, ColumnMap(t.columns)), sensitivity, i);
  }

  lemma LastKeptDecides(bars: seq<Bar>, sensitivity: real, i: nat)
    requires |KeepWhere(bars, HasOpenClose)| >= 5
    requires i < |bars| && HasOpenClose(bars[i])
    requires forall k :: i < k < |bars| ==> !HasOpenClose(bars[k])
    ensures forall j :: 0 <= j < |KeepWhere(bars, HasOpenClose)| ==> HasOpenClose(KeepWhere(bars, HasOpenClose)[j])
    ensures DetectOnBars(KeepWhere(bars, HasOpenClose), sensitivity).0 == Classify(bars[i], sensitivity)
  {
    KeepWhereMembers(bars, HasOpenClose);
    KeepWhereLast(bars, HasOpenClose, i);
  }

  /** Once five candles survive normalisation, everything but the last one is
      irrelevant. */
  lemma OnlyLastCandleMatters(bars1: seq<Bar>, bars2: seq<Bar>, sensitivity: real)
    requires forall i :: 0 <= i < |bars1| ==> HasOpenClose(bars1[i])
    requires forall i :: 0 <= i < |bars2| ==> HasOpenClose(bars2[i])
    requires |bars1| >= 5 && |bars2| >= 5 && bars1[|bars1| - 1] == bars2[|bars2| - 1]
    ensures DetectOnBars(bars1, sensitivity) == DetectOnBars(bars2, sensitivity)
  {}

  /** The signal is never one of the plain labels "UP" or "DOWN". */
  lemma NeverPlainLabels(t: Table, sensitivity: real)
    ensures DetectReversal(t, sensitivity).0 != "UP"
    ensures DetectReversal(t, sensitivity).0 != "DOWN"
  {
    var s := DetectReversal(t, sensitivity).0;
    assert s == NoSignal || s == ReversalUp || s == ReversalDown;
    assert NoSignal[0] == 'N' && ReversalUp[0] == 'R' && ReversalDown[0] == 'R';
    assert "UP"[0] == 'U' && "DOWN"[0] == 'D';
  }
}
