/** Shared vocabulary of the trading dashboard's signal code: optional values standing
    for pandas NaN, Python's clamp and truncation, ASCII case mapping, data tables,
    rolling windows and bounded histories. */
module Common {

  /** A value that may be missing; `None` stands for NaN or for a value that could not be
      coerced to a number. */
  datatype Option<+T> = None | Some(value: T)

  /** Comparisons against NaN are false in Python and numpy. */
  predicate Gt(x: Option<real>, y: real) { x.Some? && x.value > y }
  predicate Lt(x: Option<real>, y: real) { x.Some? && x.value < y }

  /** Subtraction that propagates NaN. */
  function Sub(x: Option<real>, y: Option<real>): (r: Option<real>)
    ensures r.Some? <==> x.Some? && y.Some?
    ensures r.Some? ==> r.value == x.value - y.value
  { if x.Some? && y.Some? then Some(x.value - y.value) else None }

  function Abs(x: real): (r: real)
    ensures r >= 0.0 && (r == x || r == -x)
  { if x < 0.0 then -x else x }

  /** Python's `max(lo, min(hi, x))` (equivalently `min(hi, max(lo, x))` when lo <= hi). */
  function Clamp(lo: real, hi: real, x: real): (r: real)
    requires lo <= hi
    ensures lo <= r <= hi
    ensures lo <= x <= hi ==> r == x
  { if x < lo then lo else if x > hi then hi else x }

  function ClampInt(lo: int, hi: int, x: int): (r: int)
    requires lo <= hi
    ensures lo <= r <= hi
    ensures lo <= x <= hi ==> r == x
  { if x < lo then lo else if x > hi then hi else x }

  lemma MulNonNegative(x: real, y: real)
    requires x >= 0.0 && y >= 0.0
    ensures x * y >= 0.0
  {}

  lemma MulPositive(x: real, y: real)
    requires x > 0.0 && y > 0.0
    ensures x * y > 0.0
  {}

  /** Multiplying by a positive number keeps the sign. */
  lemma FactorSign(a: real, d: real)
    requires d > 0.0
    ensures a * d >= 0.0 <==> a >= 0.0
    ensures a * d > 0.0 <==> a > 0.0
  {
    if a < 0.0 { MulPositive(-a, d); }
    if a > 0.0 { MulPositive(a, d); }
  }

  // ---------------------------------------------------------------------------
  // Extended reals: numpy float division, where a zero divisor gives an infinity or NaN
  // ---------------------------------------------------------------------------

  datatype Ext = Fin(x: real) | PosInf | NegInf | NaN

  predicate ExtGt(e: Ext, c: real) {
    match e
    case Fin(x) => x > c
    case PosInf => true
    case NegInf => false
    case NaN => false
  }

  predicate ExtLt(e: Ext, c: real) {
    match e
    case Fin(x) => x < c
    case PosInf => false
    case NegInf => true
    case NaN => false
  }

  /** `x / y` on numpy floats: a zero divisor gives an infinity of the dividend's sign,
      or NaN for 0/0. */
  function FloatDiv(x: real, y: real): (e: Ext)
    ensures y != 0.0 ==> e == Fin(x / y)
    ensures e.NaN? <==> x == 0.0 && y == 0.0
    ensures e.PosInf? <==> y == 0.0 && x > 0.0
    ensures e.NegInf? <==> y == 0.0 && x < 0.0
  {
    if y != 0.0 then Fin(x / y)
    else if x > 0.0 then PosInf
    else if x < 0.0 then NegInf
    else NaN
  }

  /** Multiplication of an extended real by a positive constant. */
  function ScaleExt(e: Ext, k: real): (r: Ext)
    requires k > 0.0
    ensures r.Fin? <==> e.Fin?
    ensures e.Fin? ==> r == Fin(e.x * k)
    ensures !e.Fin? ==> r == e
  { if e.Fin? then Fin(e.x * k) else e }

  /** A total between `d * lo` and `d * hi`, divided by `d > 0`, lies between lo and hi. */
  lemma QuotientBetween(s: real, d: real, lo: real, hi: real)
    requires d > 0.0 && d * lo <= s <= d * hi
    ensures lo <= s / d <= hi
  {
    var q := s / d;
    assert (q - lo) * d == s - d * lo;
    assert (hi - q) * d == d * hi - s;
    FactorSign(q - lo, d);
    FactorSign(hi - q, d);
  }

  lemma PositiveDivisor(x: real, y: real)
    requires y > 0.0
    ensures x / y > 0.0 <==> x > 0.0
  {
    var q := x / y;
    assert q * y == x;
    FactorSign(q, y);
  }

  /** Python's `int(x)` on a finite float: truncation toward zero. */
  function Trunc(x: real): (r: int)
    ensures x >= 0.0 ==> r as real <= x < r as real + 1.0
    ensures x < 0.0 ==> r as real - 1.0 < x <= r as real
  { if x >= 0.0 then x.Floor else -((-x).Floor) }

  /** Decimal digits of a natural number, as `str(n)` prints it. */
  function NatToString(n: nat): (s: string)
    ensures |s| > 0 && IsDigit(s[0])
    decreases n
  {
    var d := ('0' as int + n % 10) as char;
    if n < 10 then [d] else NatToString(n / 10) + [d]
  }

  /** `str(i)` */
  function IntToString(i: int): (s: string)
    ensures |s| > 0
  { if i < 0 then "-" + NatToString(-i) else NatToString(i) }

  predicate IsDigit(c: char) { '0' <= c <= '9' }

  predicate AllDigits(s: string) { forall k :: 0 <= k < |s| ==> IsDigit(s[k]) }

  /** The number a string of decimal digits denotes. */
  function DigitsValue(s: string): nat
    requires AllDigits(s)
  {
    if |s| == 0 then 0
    else 10 * DigitsValue(s[..|s| - 1]) + (s[|s| - 1] as int - '0' as int)
  }

  /** The whitespace `str.strip()` removes, restricted to ASCII. */
  predicate IsSpace(c: char) { c == ' ' || c == '\t' || c == '\n' || c == '\r' || c == '\U{0B}' || c == '\U{0C}' }

  function TrimStart(s: string): (r: string)
    ensures |r| <= |s| && (|r| > 0 ==> !IsSpace(r[0]))
    ensures |s| > 0 && !IsSpace(s[0]) ==> r == s
  { if |s| > 0 && IsSpace(s[0]) then TrimStart(s[1..]) else s }

  function TrimEnd(s: string): (r: string)
    ensures |r| <= |s| && (|r| > 0 ==> !IsSpace(r[|r| - 1]))
    ensures |s| > 0 && !IsSpace(s[|s| - 1]) ==> r == s
  { if |s| > 0 && IsSpace(s[|s| - 1]) then TrimEnd(s[..|s| - 1]) else s }

  /** Python's `int(s)` on a string: surrounding whitespace, an optional sign, then one
      or more decimal digits; anything else raises, modelled as None. */
  function ParseInt(s: string): (r: Option<int>)
    ensures r.Some? ==> |TrimEnd(TrimStart(s))| > 0
  {
    var t := TrimEnd(TrimStart(s));
    var negative := |t| > 0 && t[0] == '-';
    var body := if |t| > 0 && (t[0] == '-' || t[0] == '+') then t[1..] else t;
    if |body| > 0 && AllDigits(body) then
      var v: int := DigitsValue(body);
      Some(if negative then -v else v)
    else None
  }

  lemma {:induction false} NatToStringDigits(n: nat)
    ensures AllDigits(NatToString(n))
    ensures DigitsValue(NatToString(n)) == n
    decreases n
  {
    var d := ('0' as int + n % 10) as char;
    if n >= 10 {
      NatToStringDigits(n / 10);
      var s := NatToString(n);
      assert s[..|s| - 1] == NatToString(n / 10);
    }
  }

  /** `int(str(i)) == i`: the decimal text parses back to the number it shows. */
  lemma IntToStringRoundTrip(i: int)
    ensures ParseInt(IntToString(i)) == Some(i)
  {
    var s := IntToString(i);
    var m: nat := if i < 0 then -i else i;
    NatToStringDigits(m);
    var digits := NatToString(m);
    assert !IsSpace(s[0]) && !IsSpace(s[|s| - 1]);
    assert TrimStart(s) == s;
    assert TrimEnd(s) == s;
    if i < 0 {
      assert s[1..] == digits;
    }
  }

  // ---------------------------------------------------------------------------
  // ASCII case mapping (str.lower / str.upper restricted to ASCII letters)
  // ---------------------------------------------------------------------------

  function LowerChar(c: char): char { if 'A' <= c <= 'Z' then (c as int + 32) as char else c }
  function UpperChar(c: char): char { if 'a' <= c <= 'z' then (c as int - 32) as char else c }

  function Lower(s: string): (r: string)
    ensures |r| == |s|
  { if |s| == 0 then "" else [LowerChar(s[0])] + Lower(s[1..]) }

  function Upper(s: string): (r: string)
    ensures |r| == |s|
  { if |s| == 0 then "" else [UpperChar(s[0])] + Upper(s[1..]) }

  // ---------------------------------------------------------------------------
  // Data tables: column labels plus rectangular rows of numeric-or-NaN cells
  // ---------------------------------------------------------------------------

  datatype RawTable = RawTable(columns: seq<string>, rows: seq<seq<Option<real>>>)

  /** Rows are as wide as the header, and no two labels coincide ignoring case. */
  predicate WellFormed(t: RawTable) {
    (forall i :: 0 <= i < |t.rows| ==> |t.rows[i]| == |t.columns|) &&
    (forall i, j :: 0 <= i < j < |t.columns| ==> Lower(t.columns[i]) != Lower(t.columns[j]))
  }

  type Table = t: RawTable | WellFormed(t) witness RawTable([], [])

  /** Position of the first column whose label is exactly `name` (pandas `name in df.columns`). */
  function IndexOf(columns: seq<string>, name: string): (r: Option<nat>)
    ensures r.Some? ==> r.value < |columns| && columns[r.value] == name
    ensures r.None? <==> name !in columns
  {
    if |columns| == 0 then None
    else if columns[0] == name then Some(0)
    else match IndexOf(columns[1..], name)
      case None => None
      case Some(k) => Some(k + 1)
  }

  /** The values of column `j`, top to bottom. */
  function ColumnAt(t: Table, j: nat): (r: seq<Option<real>>)
    requires j < |t.columns|
    ensures |r| == |t.rows|
    ensures forall i :: 0 <= i < |t.rows| ==> r[i] == t.rows[i][j]
  { seq(|t.rows|, i requires 0 <= i < |t.rows| => t.rows[i][j]) }

  /** The values of the column labelled exactly `name` (`df[name]`). */
  function ColumnNamed(t: Table, name: string): (s: seq<Option<real>>)
    requires name in t.columns
    ensures |s| == |t.rows|
    ensures forall i :: 0 <= i < |t.rows| ==> s[i] == t.rows[i][IndexOf(t.columns, name).value]
  { ColumnAt(t, IndexOf(t.columns, name).value) }

  /** The positions of `s` whose elements satisfy `p`, in increasing order
      (`KeptPositionsSpec`). */
  function KeptPositions<T>(s: seq<T>, p: T -> bool): (idx: seq<nat>)
    ensures |idx| <= |s| && forall j :: 0 <= j < |idx| ==> idx[j] < |s|
    decreases |s|
  {
    if |s| == 0 then []
    else
      var rest := KeptPositions(s[..|s| - 1], p);
      if p(s[|s| - 1]) then rest + [|s| - 1] else rest
  }

  /** The kept positions are every position whose element satisfies `p`, each once,
      in increasing order. */
  lemma {:induction false} KeptPositionsSpec<T>(s: seq<T>, p: T -> bool)
    ensures var idx := KeptPositions(s, p);
      && (forall j :: 0 <= j < |idx| ==> p(s[idx[j]]))
      && (forall j, k :: 0 <= j < k < |idx| ==> idx[j] < idx[k])
      && (forall i :: 0 <= i < |s| && p(s[i]) ==> i in idx)
    decreases |s|
  {
    if |s| > 0 {
      var init := s[..|s| - 1];
      KeptPositionsSpec(init, p);
      var rest := KeptPositions(init, p);
      assert forall j :: 0 <= j < |rest| ==> s[rest[j]] == init[rest[j]];
      forall i | 0 <= i < |init| && p(s[i]) ensures i in rest {
        assert init[i] == s[i];
      }
    }
  }

  /** One kept position at a time: it lies in `s` and its element satisfies `p`. */
  lemma KeptAt<T>(s: seq<T>, p: T -> bool, j: nat)
    requires j < |KeptPositions(s, p)|
    ensures KeptPositions(s, p)[j] < |s| && p(s[KeptPositions(s, p)[j]])
  {
    KeptPositionsSpec(s, p);
  }

  /** One element at a time: a position whose element satisfies `p` is kept. */
  lemma KeptCovers<T>(s: seq<T>, p: T -> bool, i: nat)
    requires i < |s| && p(s[i])
    ensures exists j :: 0 <= j < |KeptPositions(s, p)| && KeptPositions(s, p)[j] == i
  {
    KeptPositionsSpec(s, p);
  }

  /** The elements of `s` that satisfy `p`, in their original order (a boolean-mask
      row filter such as `dropna`): entry j is the element at the j-th kept position. */
  function KeepWhere<T>(s: seq<T>, p: T -> bool): (r: seq<T>)
    ensures |r| == |KeptPositions(s, p)| <= |s|
    ensures forall j :: 0 <= j < |r| ==> r[j] == s[KeptPositions(s, p)[j]]
    decreases |s|
  {
    if |s| == 0 then []
    else
      var init := s[..|s| - 1];
      var rest := KeepWhere(init, p);
      assert forall j :: 0 <= j < |rest| ==> rest[j] == s[KeptPositions(init, p)[j]];
      if p(s[|s| - 1]) then rest + [s[|s| - 1]] else rest
  }

  /** The filter keeps exactly the elements that satisfy `p`. */
  lemma KeepWhereMembers<T>(s: seq<T>, p: T -> bool)
    ensures forall i :: 0 <= i < |KeepWhere(s, p)| ==> p(KeepWhere(s, p)[i]) && KeepWhere(s, p)[i] in s
    ensures forall i :: 0 <= i < |s| && p(s[i]) ==> s[i] in KeepWhere(s, p)
  {
    var r, idx := KeepWhere(s, p), KeptPositions(s, p);
    KeptPositionsSpec(s, p);
    forall i | 0 <= i < |s| && p(s[i]) ensures s[i] in r {
      var j :| 0 <= j < |idx| && idx[j] == i;
      assert r[j] == s[i];
    }
  }

  /** A filter that every element passes changes nothing. */
  lemma {:induction false} KeepWhereAll<T>(s: seq<T>, p: T -> bool)
    requires forall i :: 0 <= i < |s| ==> p(s[i])
    ensures KeepWhere(s, p) == s
    decreases |s|
  {
    if |s| > 0 {
      var init := s[..|s| - 1];
      forall i | 0 <= i < |init| ensures p(init[i]) {
        assert init[i] == s[i];
      }
      KeepWhereAll(init, p);
      assert p(s[|s| - 1]);
      assert KeepWhere(s, p) == KeepWhere(init, p) + [s[|s| - 1]];
      assert s == init + [s[|s| - 1]];
    }
  }

  /** The last element kept is the last element of `s` that satisfies `p`: what a
      consumer reads with `iloc[-1]` after the filter. */
  lemma {:induction false} KeepWhereLast<T>(s: seq<T>, p: T -> bool, i: nat)
    requires i < |s| && p(s[i])
    requires forall k :: i < k < |s| ==> !p(s[k])
    ensures |KeepWhere(s, p)| > 0 && KeepWhere(s, p)[|KeepWhere(s, p)| - 1] == s[i]
    decreases |s|
  {
    if i < |s| - 1 {
      var init := s[..|s| - 1];
      assert init[i] == s[i];
      forall k | i < k < |init| ensures !p(init[k]) {
        assert init[k] == s[k];
      }
      KeepWhereLast(init, p, i);
    }
  }

  /** Whether `f` gives a value, as a filter. */
  function HasValue<T, U>(f: T -> Option<U>): T -> bool {
    x => f(x).Some?
  }

  /** The values `f` gives along `s`, in order, skipping the elements where it gives
      none: a loop that appends each defined result. */
  function Defined<T, U>(s: seq<T>, f: T -> Option<U>): (r: seq<U>)
    ensures |r| <= |s|
    ensures forall x :: x in r ==> exists i :: 0 <= i < |s| && f(s[i]) == Some(x)
    ensures (forall i :: 0 <= i < |s| ==> f(s[i]).None?) ==> r == []
    decreases |s|
  {
    if |s| == 0 then []
    else
      var init := s[..|s| - 1];
      var rest := Defined(init, f);
      assert forall i :: 0 <= i < |init| ==> init[i] == s[i];
      match f(s[|s| - 1])
      case None => rest
      case Some(v) => rest + [v]
  }

  /** The j-th value comes from the j-th element of `s` on which `f` is defined. */
  lemma {:induction false} DefinedInOrder<T, U>(s: seq<T>, f: T -> Option<U>)
    ensures var r, idx := Defined(s, f), KeptPositions(s, HasValue(f));
      && |r| == |idx|
      && forall j :: 0 <= j < |r| ==> Some(r[j]) == f(s[idx[j]])
    decreases |s|
  {
    if |s| > 0 {
      var init := s[..|s| - 1];
      DefinedInOrder(init, f);
      var rest, idx0 := Defined(init, f), KeptPositions(init, HasValue(f));
      var r, idx := Defined(s, f), KeptPositions(s, HasValue(f));
      assert forall j :: 0 <= j < |idx0| ==> s[idx0[j]] == init[idx0[j]];
      if f(s[|s| - 1]).Some? {
        assert HasValue(f)(s[|s| - 1]);
        assert r == rest + [f(s[|s| - 1]).value] && idx == idx0 + [|s| - 1];
      } else {
        assert !HasValue(f)(s[|s| - 1]);
      }
    }
  }

  // ---------------------------------------------------------------------------
  // Sums, means and rolling windows (pandas `rolling(w)` with min_periods = w)
  // ---------------------------------------------------------------------------

  function Sum(xs: seq<real>): real
  { if |xs| == 0 then 0.0 else Sum(xs[..|xs| - 1]) + xs[|xs| - 1] }

  predicate AllSome(xs: seq<Option<real>>) { forall i :: 0 <= i < |xs| ==> xs[i].Some? }

  function Values(xs: seq<Option<real>>): (r: seq<real>)
    requires AllSome(xs)
    ensures |r| == |xs| && forall i :: 0 <= i < |xs| ==> r[i] == xs[i].value
  { seq(|xs|, i requires 0 <= i < |xs| && AllSome(xs) => xs[i].value) }

  function Lift(xs: seq<real>): (r: seq<Option<real>>)
    ensures |r| == |xs| && AllSome(r) && Values(r) == xs
  { seq(|xs|, i requires 0 <= i < |xs| => Some(xs[i])) }

  /** The mean of the `w` values ending at index `t`, undefined while the window is
      incomplete or holds a NaN. */
  function RollingMeanAt(xs: seq<Option<real>>, w: nat, t: nat): (r: Option<real>)
    requires 1 <= w && t < |xs|
    ensures r.Some? <==> w <= t + 1 && AllSome(xs[t + 1 - w..t + 1])
  {
    if t + 1 < w then None
    else var win := xs[t + 1 - w..t + 1];
      if AllSome(win) then Some(Sum(Values(win)) / w as real) else None
  }

  /** A window mean stays within bounds that hold for every defined entry. */
  lemma RollingMeanBounded(xs: seq<Option<real>>, w: nat, t: nat, lo: real, hi: real)
    requires 1 <= w && t < |xs|
    requires forall i :: 0 <= i < |xs| && xs[i].Some? ==> lo <= xs[i].value <= hi
    ensures RollingMeanAt(xs, w, t).Some? ==> lo <= RollingMeanAt(xs, w, t).value <= hi
  {
    if w <= t + 1 && AllSome(xs[t + 1 - w..t + 1]) {
      var vs := Values(xs[t + 1 - w..t + 1]);
      forall j | 0 <= j < |vs| ensures lo <= vs[j] <= hi {
        assert vs[j] == xs[t + 1 - w + j].value;
      }
      SumBounds(vs, lo, hi);
      QuotientBetween(Sum(vs), w as real, lo, hi);
    }
  }

  /** `series.rolling(w).mean().iloc[-1]` */
  function RollingMeanLast(xs: seq<Option<real>>, w: nat): Option<real>
    requires 1 <= w && |xs| > 0
  { RollingMeanAt(xs, w, |xs| - 1) }

  lemma {:induction false} SumBounds(xs: seq<real>, lo: real, hi: real)
    requires forall i :: 0 <= i < |xs| ==> lo <= xs[i] <= hi
    ensures |xs| as real * lo <= Sum(xs) <= |xs| as real * hi
  {
    if |xs| > 0 {
      SumBounds(xs[..|xs| - 1], lo, hi);
    }
  }

  lemma {:induction false} SumAtLeast(xs: seq<real>, lo: real)
    requires forall i :: 0 <= i < |xs| ==> lo <= xs[i]
    ensures |xs| as real * lo <= Sum(xs)
  {
    if |xs| > 0 {
      SumAtLeast(xs[..|xs| - 1], lo);
    }
  }

  lemma {:induction false} SumConstant(xs: seq<real>, c: real)
    requires forall i :: 0 <= i < |xs| ==> xs[i] == c
    ensures Sum(xs) == |xs| as real * c
  {
    if |xs| > 0 {
      SumConstant(xs[..|xs| - 1], c);
    }
  }

  // ---------------------------------------------------------------------------
  // Bounded FIFO histories
  // ---------------------------------------------------------------------------

  /** The last `n` elements of `s` (all of `s` when it is shorter). */
  function LastN<T>(s: seq<T>, n: nat): (r: seq<T>)
    ensures |r| == if |s| <= n then |s| else n
    ensures forall i :: 0 <= i < |r| ==> r[i] == s[|s| - |r| + i]
  { if |s| <= n then s else s[|s| - n..] }

  /** Append `x`, then drop the oldest element when the history exceeds `cap`
      (a list trimmed with `pop(0)`, or a `deque(maxlen=cap)`). */
  function BoundedAppend<T>(h: seq<T>, x: T, cap: nat): seq<T>
    requires 1 <= cap
  { if |h| + 1 > cap then (h + [x])[1..] else h + [x] }

  /** A history kept within its capacity holds exactly the most recent `cap` entries:
      one append keeps the newest last and drops only the oldest. */
  lemma BoundedAppendIsLastN<T>(h: seq<T>, x: T, cap: nat)
    requires 1 <= cap && |h| <= cap
    ensures BoundedAppend(h, x, cap) == LastN(h + [x], cap)
    ensures |BoundedAppend(h, x, cap)| <= cap
  {}

  /** The history after appending every element of `xs` in turn. */
  function AppendAll<T>(h: seq<T>, xs: seq<T>, cap: nat): seq<T>
    requires 1 <= cap
    decreases |xs|
  {
    if |xs| == 0 then h
    else BoundedAppend(AppendAll(h, xs[..|xs| - 1], cap), xs[|xs| - 1], cap)
  }

  /** Whatever was appended, a history that starts within capacity holds the last
      `cap` of everything ever added, oldest first. */
  lemma {:induction false} AppendAllIsLastN<T>(h: seq<T>, xs: seq<T>, cap: nat)
    requires 1 <= cap && |h| <= cap
    ensures AppendAll(h, xs, cap) == LastN(h + xs, cap)
    decreases |xs|
  {
    if |xs| > 0 {
      var init := xs[..|xs| - 1];
      var x := xs[|xs| - 1];
      AppendAllIsLastN(h, init, cap);
      var prev := LastN(h + init, cap);
      BoundedAppendIsLastN(prev, x, cap);
      assert h + xs == (h + init) + [x];
      LastNAppend(h + init, x, cap);
    }
  }

  lemma LastNAppend<T>(s: seq<T>, x: T, cap: nat)
    requires 1 <= cap
    ensures LastN(LastN(s, cap) + [x], cap) == LastN(s + [x], cap)
  {
    var a := LastN(LastN(s, cap) + [x], cap);
    var b := LastN(s + [x], cap);
    assert |a| == |b|;
    forall i | 0 <= i < |a| ensures a[i] == b[i] {}
  }
}
