/** The trade-signal rule of components/signals.py: on the last row, a close above
    EMA20 with RSI below 70 confirms a buy, a close below EMA20 with RSI above 30
    confirms a sell, and anything else waits. */
module Signals {
  import opened Common

  datatype Signal = ConfirmedBuy | ConfirmedSell | Wait | Raises

  /** A comparison `a > b` between two cells: false when either is NaN. */
  predicate Above(a: Option<real>, b: Option<real>) { a.Some? && b.Some? && a.value > b.value }

  /** The RSI cell of the last row, or the column missing (a `KeyError` if it is read). */
  datatype RsiCell = Present(v: Option<real>) | Absent

  /** `buy = close > ema and rsi < 70`, `sell = close < ema and rsi > 30`, then
      `if buy … elif sell … else …`; `and` reads the RSI only when the price test
      holds, so a missing RSI column raises only then. */
  function Decide(close: Option<real>, ema: Option<real>, rsi: RsiCell): (s: Signal)
    ensures s == ConfirmedBuy <==> Above(close, ema) && rsi.Present? && Lt(rsi.v, 70.0)
    ensures s == ConfirmedSell <==> Above(ema, close) && rsi.Present? && Gt(rsi.v, 30.0)
    ensures s == Raises <==> rsi.Absent? && (Above(close, ema) || Above(ema, close))
    ensures close.Some? && close == ema ==> s == Wait
  {
    if Above(close, ema) then
      if rsi.Absent? then Raises
      else if Lt(rsi.v, 70.0) then ConfirmedBuy
      else Wait
    else if Above(ema, close) then
      if rsi.Absent? then Raises
      else if Gt(rsi.v, 30.0) then ConfirmedSell
      else Wait
    else Wait
  }

  /** `df[name].iloc[-1]` */
  function LastCell(t: Table, name: string): (r: Option<real>)
    requires name in t.columns && |t.rows| > 0
    ensures r == t.rows[|t.rows| - 1][IndexOf(t.columns, name).value]
  { ColumnNamed(t, name)[|t.rows| - 1] }

  function RsiOf(t: Table): (c: RsiCell)
    requires |t.rows| > 0
    ensures c.Absent? <==> "RSI" !in t.columns
  { if "RSI" in t.columns then Present(LastCell(t, "RSI")) else Absent }

  /** `render_signals`: an empty frame or a missing `close` or `EMA20` column raises. */
  function RenderSignals(t: Table): (s: Signal)
    ensures |t.rows| == 0 || "close" !in t.columns || "EMA20" !in t.columns ==> s == Raises
    ensures |t.rows| > 0 && "close" in t.columns && "EMA20" in t.columns ==>
      s == Decide(LastCell(t, "close"), LastCell(t, "EMA20"), RsiOf(t))
  {
    if |t.rows| == 0 || "close" !in t.columns || "EMA20" !in t.columns then Raises
    else Decide(LastCell(t, "close"), LastCell(t, "EMA20"), RsiOf(t))
  }

  /** Only the last row counts: two frames with the same columns and the same last row
      give the same signal, whatever came before. */
  lemma {:induction false} OnlyLastRowMatters(t: Table, u: Table)
    requires t.columns == u.columns && |t.rows| > 0 && |u.rows| > 0
    requires t.rows[|t.rows| - 1] == u.rows[|u.rows| - 1]
    ensures RenderSignals(t) == RenderSignals(u)
  {
    if "close" in t.columns && "EMA20" in t.columns {
      assert LastCell(t, "close") == LastCell(u, "close");
      assert LastCell(t, "EMA20") == LastCell(u, "EMA20");
      assert RsiOf(t) == RsiOf(u);
    }
  }
}
