/** Decision fusion (components/ai_final_engine.py): the trend direction and the
    reversal signal select one of five decisions through a fixed if/elif table; the
    smart-money bias only appears inside reason strings. */
module FinalEngine {
  import opened Common
  import AiReversal

  /** The `trend_result` dictionary: only its direction is used. */
  datatype TrendResult = TrendResult(direction: string, confidence: real)

  datatype Decision = Buy | Sell | ReversalBuy | TakeProfit | Wait

  function Label(d: Decision): string {
    match d
    case Buy => "BUY"
    case Sell => "SELL"
    case ReversalBuy => "REVERSAL BUY"
    case TakeProfit => "TAKE PROFIT"
    case Wait => "WAIT"
  }

  /** The four results: decision, reasons, the reversal signal and the smart-money bias. */
  datatype Fusion = Fusion(decision: Decision, reasons: seq<string>, reversalSignal: string, smart: string)

  function SmartReason(smart: string): string { "Smart Money: " + smart }

  predicate IsUpOrDown(s: string) { s == "UP" || s == "DOWN" }

  /** The fusion table. */
  function Fuse(trendDir: string, reversalSignal: string, smart: string): (r: Fusion)
    ensures r.decision == Buy <==> trendDir == "UP" && reversalSignal == "UP"
    ensures r.decision == Sell <==> trendDir == "DOWN" && reversalSignal == "DOWN"
    ensures r.decision == ReversalBuy <==> trendDir == "DOWN" && reversalSignal == "UP"
    ensures r.decision == TakeProfit <==> trendDir == "UP" && reversalSignal == "DOWN"
    ensures r.decision == Wait <==> !(IsUpOrDown(trendDir) && IsUpOrDown(reversalSignal))
    ensures 2 <= |r.reasons| <= 3
    ensures forall i :: 0 <= i < |r.reasons| ==> |r.reasons[i]| > 0
    ensures r.reversalSignal == reversalSignal && r.smart == smart
  {
    if trendDir == "UP" && reversalSignal == "UP" then
      Fusion(Buy, ["Trend bullish", "Reversal hammer terdeteksi", SmartReason(smart)], reversalSignal, smart)
    else if trendDir == "DOWN" && reversalSignal == "DOWN" then
      Fusion(Sell, ["Trend bearish", "Reversal bearish wick terdeteksi", SmartReason(smart)], reversalSignal, smart)
    else if trendDir == "DOWN" && reversalSignal == "UP" then
      Fusion(ReversalBuy, ["Trend turun tapi reversal terdeteksi", "Potensi pembalikan arah"], reversalSignal, smart)
    else if trendDir == "UP" && reversalSignal == "DOWN" then
      Fusion(TakeProfit, ["Trend naik tapi reversal bearish terdeteksi", "Potensi market top"], reversalSignal, smart)
    else
      Fusion(Wait, ["Tidak ada alignment antara trend & reversal", SmartReason(smart)], reversalSignal, smart)
  }

  /** `final_decision_engine` as written: the detector's own labels are compared
      against "UP" and "DOWN", which it never produces, so the result is always WAIT. */
  function FinalDecisionEngine(t: Table, trend: TrendResult, sensitivity: real, smart: string): (r: Fusion)
    ensures r.decision == Wait
    ensures r.reversalSignal == AiReversal.DetectReversal(t, sensitivity).0 && r.smart == smart
    ensures r.reasons == ["Tidak ada alignment antara trend & reversal", SmartReason(smart)]
  {
    var (signal, _) := AiReversal.DetectReversal(t, sensitivity);
    AiReversal.NeverPlainLabels(t, sensitivity);
    Fuse(trend.direction, signal, smart)
  }

  /** The decision is a function of the two directions alone; the bias reaches only
      the reasons. */
  lemma SmartMoneyIsAdvisory(trendDir: string, reversalSignal: string, smart1: string, smart2: string)
    ensures Fuse(trendDir, reversalSignal, smart1).decision == Fuse(trendDir, reversalSignal, smart2).decision
  {
  }

  /** The trend confidence is read but never used. */
  lemma ConfidenceIsUnused(t: Table, dir: string, c1: real, c2: real, sensitivity: real, smart: string)
    ensures FinalDecisionEngine(t, TrendResult(dir, c1), sensitivity, smart)
         == FinalDecisionEngine(t, TrendResult(dir, c2), sensitivity, smart)
  {
  }

  /** The detector's labels mapped onto the table's vocabulary. */
  function AsDirection(signal: string): (d: string)
    ensures signal == AiReversal.ReversalUp ==> d == "UP"
    ensures signal == AiReversal.ReversalDown ==> d == "DOWN"
    ensures signal == AiReversal.NoSignal ==> !IsUpOrDown(d)
  {
    if signal == AiReversal.ReversalUp then "UP"
    else if signal == AiReversal.ReversalDown then "DOWN"
    else signal
  }

  /** The engine with the labels reconciled: each decision of the table is taken
      exactly when the trend direction and the detector's label match its row. */
  function FinalDecisionEngineCorrected(t: Table, trend: TrendResult, sensitivity: real, smart: string): (r: Fusion)
    ensures var s := AiReversal.DetectReversal(t, sensitivity).0;
      && (r.decision == Buy <==> trend.direction == "UP" && s == AiReversal.ReversalUp)
      && (r.decision == Sell <==> trend.direction == "DOWN" && s == AiReversal.ReversalDown)
      && (r.decision == ReversalBuy <==> trend.direction == "DOWN" && s == AiReversal.ReversalUp)
      && (r.decision == TakeProfit <==> trend.direction == "UP" && s == AiReversal.ReversalDown)
      && (r.decision == Wait <==> s == AiReversal.NoSignal || !IsUpOrDown(trend.direction))
      && r.reversalSignal == s
  {
    var (signal, _) := AiReversal.DetectReversal(t, sensitivity);
    var fused := Fuse(trend.direction, AsDirection(signal), smart);
    fused.(reversalSignal := signal)
  }
}
