/** The smart-money status of components/smartmoney.py: bullish when the last close is
    above the open five rows back, bearish otherwise. */
module SmartMoney {
  import opened Common

  const Bullish := "BULLISH"
  const Bearish := "BEARISH"

  /** The status shown, or the `KeyError`/`IndexError` the lookups raise. */
  datatype Outcome = Status(status: string) | Raises

  function Cell(t: Table, name: string, i: nat): (r: Option<real>)
    requires name in t.columns && i < |t.rows|
    ensures r == t.rows[i][IndexOf(t.columns, name).value]
  { ColumnNamed(t, name)[i] }

  /** `render_smartmoney`: `close` of the last row against `open` of the fifth row from
      the end; NaN on either side compares false and reads bearish. */
  function RenderSmartMoney(t: Table): (r: Outcome)
    ensures r.Raises? <==> |t.rows| < 5 || "close" !in t.columns || "open" !in t.columns
    ensures r.Status? ==> r.status == Bullish || r.status == Bearish
    ensures r.Status? ==>
      var close, open := Cell(t, "close", |t.rows| - 1), Cell(t, "open", |t.rows| - 5);
      (r.status == Bullish <==> close.Some? && open.Some? && close.value > open.value)
  {
    if |t.rows| == 0 || "close" !in t.columns || "open" !in t.columns || |t.rows| < 5 then Raises
    else
      var close, open := Cell(t, "close", |t.rows| - 1), Cell(t, "open", |t.rows| - 5);
      if close.Some? && open.Some? && close.value > open.value then Status(Bullish) else Status(Bearish)
  }

  /** A last close equal to the reference open is not enough: a tie reads bearish, and
      so does a NaN on either side. */
  lemma TieOrNaNIsBearish(t: Table)
    requires |t.rows| >= 5 && "close" in t.columns && "open" in t.columns
    requires var close, open := Cell(t, "close", |t.rows| - 1), Cell(t, "open", |t.rows| - 5);
      close.None? || open.None? || close == open
    ensures RenderSmartMoney(t) == Status(Bearish)
  {}

  /** Rows between the reference row and the last one, and any before it, play no part. */
  lemma {:induction false} OnlyTwoCellsMatter(t: Table, u: Table)
    requires t.columns == u.columns && |t.rows| >= 5 && |u.rows| >= 5
    requires "close" in t.columns && "open" in t.columns
    requires Cell(t, "close", |t.rows| - 1) == Cell(u, "close", |u.rows| - 1)
    requires Cell(t, "open", |t.rows| - 5) == Cell(u, "open", |u.rows| - 5)
    ensures RenderSmartMoney(t) == RenderSmartMoney(u)
  {}
}
