/** The domestic-versus-foreign battle meter of components/indo_battle_meter.py: the
    score is coerced to an integer, clamped to 0..100, and read as a bar width, a flow
    label and a side text. */
module BattleMeter {
  import opened Common

  /** What `render_battle_meter` may be handed as its score. */
  datatype ScoreInput =
    | IntVal(i: int)        // an int (or a bool)
    | FloatVal(x: real)     // a finite float
    | NonFinite             // NaN or an infinity: `int()` raises
    | Text(s: string)       // a string, parsed by `int()`
    | Other                 // None or any other object: `int()` raises

  const DefaultScore: int := 50

  /** `int(score)`, falling back to 50 whenever the conversion raises. */
  function Coerce(v: ScoreInput): (r: int)
    ensures v.IntVal? ==> r == v.i
    ensures v.FloatVal? && v.x >= 0.0 ==> r as real <= v.x < r as real + 1.0
    ensures v.FloatVal? && v.x < 0.0 ==> r as real - 1.0 < v.x <= r as real
    ensures v.NonFinite? || v.Other? ==> r == DefaultScore
    ensures v.Text? ==> r == (if ParseInt(v.s).Some? then ParseInt(v.s).value else DefaultScore)
  {
    match v
    case IntVal(i) => i
    case FloatVal(x) => Trunc(x)
    case NonFinite => DefaultScore
    case Text(s) => if ParseInt(s).Some? then ParseInt(s).value else DefaultScore
    case Other => DefaultScore
  }

  const Accumulation := "🟢 Foreign Accumulation — asing agresif beli"
  const Distribution := "🔴 Foreign Distribution — asing agresif jual"
  const Balanced := "⚪ Balanced Flow — tarik menarik lokal vs asing"

  const ForeignDominant := "Kekuatan asing sedikit lebih dominan."
  const SellPressure := "Tekanan jual asing lebih besar, waspada koreksi."
  const Even := "Kekuatan lokal dan asing relatif seimbang."

  function LabelOf(score: int): (l: string)
    ensures l == Accumulation <==> score >= 70
    ensures l == Distribution <==> score <= 30
    ensures l == Balanced <==> 30 < score < 70
  { if score >= 70 then Accumulation else if score <= 30 then Distribution else Balanced }

  function SideOf(score: int): (s: string)
    ensures s == ForeignDominant <==> score > 55
    ensures s == SellPressure <==> score < 45
    ensures s == Even <==> 45 <= score <= 55
  { if score > 55 then ForeignDominant else if score < 45 then SellPressure else Even }

  /** What the meter shows: the clamped score, the bar width in percent, and two texts. */
  datatype Meter = Meter(score: int, width: int, status: string, side: string)

  function RenderBattleMeter(v: ScoreInput): (m: Meter)
    ensures 0 <= m.score <= 100 && m.width == m.score
    ensures 0 <= Coerce(v) <= 100 ==> m.score == Coerce(v)
    ensures Coerce(v) < 0 ==> m.score == 0
    ensures Coerce(v) > 100 ==> m.score == 100
    ensures m.status == LabelOf(m.score) && m.side == SideOf(m.score)
  {
    var score := ClampInt(0, 100, Coerce(v));
    Meter(score, score, LabelOf(score), SideOf(score))
  }

  /** The label and the side text never contradict each other: accumulation always
      comes with foreign dominance, distribution with selling pressure. */
  lemma LabelAgreesWithSide(v: ScoreInput)
    ensures var m := RenderBattleMeter(v);
      && (m.status == Accumulation ==> m.side == ForeignDominant)
      && (m.status == Distribution ==> m.side == SellPressure)
      && (m.side == Even ==> m.status == Balanced)
  {}

  /** Anything `int()` rejects is shown as an evenly balanced meter at 50. */
  lemma UnconvertibleIsBalanced(v: ScoreInput)
    requires v.NonFinite? || v.Other? || (v.Text? && ParseInt(v.s).None?)
    ensures RenderBattleMeter(v) == Meter(DefaultScore, DefaultScore, Balanced, Even)
  {}

  /** A score given as its decimal text reads the same as the number itself. */
  lemma TextScoreMatchesNumber(i: int)
    ensures RenderBattleMeter(Text(IntToString(i))) == RenderBattleMeter(IntVal(i))
  {
    IntToStringRoundTrip(i);
  }
}
