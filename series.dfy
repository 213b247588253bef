/**
 * Operations on fetched series that several components share: Python
 * slicing, pandas `tail`, sums, means, extrema, the trailing run of positive
 * values, substring search, and Python's truncating `int()`.
 */
module Series {

  function Min(a: int, b: int): int { if a <= b then a else b }

  function Max(a: int, b: int): int { if a >= b then a else b }

  function ClampReal(x: real, lo: real, hi: real): (r: real)
    requires lo <= hi
    ensures lo <= r <= hi
    ensures lo <= x <= hi ==> r == x
    ensures x < lo ==> r == lo
    ensures x > hi ==> r == hi
  {
    if x < lo then lo else if x > hi then hi else x
  }

  function ClampInt(x: int, lo: int, hi: int): (r: int)
    requires lo <= hi
    ensures lo <= r <= hi
    ensures lo <= x <= hi ==> r == x
    ensures x < lo ==> r == lo
    ensures x > hi ==> r == hi
  {
    if x < lo then lo else if x > hi then hi else x
  }

  /** Python's `int(x)` on a float: truncation toward zero. */
  function Trunc(x: real): (r: int)
    ensures x >= 0.0 ==> r as real <= x < r as real + 1.0
    ensures x < 0.0 ==> r as real - 1.0 < x <= r as real
  {
    if x >= 0.0 then x.Floor else -((-x).Floor)
  }

  /** Python's `s[:n]` and pandas' `head(n)`: a negative `n` drops `-n` items from the end. */
  function Head<T>(s: seq<T>, n: int): (r: seq<T>)
    ensures n >= 0 ==> |r| == Min(n, |s|)
    ensures n < 0 ==> |r| == Max(0, |s| + n)
    ensures r == s[..|r|]
  {
    if n >= 0 then (if n <= |s| then s[..n] else s)
    else if |s| + n >= 0 then s[..|s| + n] else []
  }

  /** Taking `n >= 1` items of `[x] + s` is `x` followed by `n - 1` items of `s`. */
  lemma HeadCons<T>(x: T, s: seq<T>, n: int)
    requires n >= 1
    ensures Head([x] + s, n) == [x] + Head(s, n - 1)
  {
    assert ([x] + s)[1..] == s;
  }

  /** pandas' `tail(k)` and Python's `s[-k:]` for k > 0: the last k items, or all of them. */
  function Tail<T>(s: seq<T>, k: nat): (r: seq<T>)
    ensures |r| == Min(k, |s|)
    ensures r == s[|s| - |r|..]
  {
    if k <= |s| then s[|s| - k..] else s
  }

  function Sum(s: seq<int>): int {
    if s == [] then 0 else Sum(s[..|s| - 1]) + s[|s| - 1]
  }

  function SumReal(s: seq<real>): real {
    if s == [] then 0.0 else SumReal(s[..|s| - 1]) + s[|s| - 1]
  }

  /** The arithmetic mean, as pandas' `mean()` of a non-empty column. */
  function Mean(s: seq<real>): real
    requires |s| > 0
  {
    SumReal(s) / |s| as real
  }

  function MaxOf(s: seq<real>): (m: real)
    requires |s| > 0
    ensures forall i :: 0 <= i < |s| ==> s[i] <= m
    ensures exists i :: 0 <= i < |s| && s[i] == m
  {
    if |s| == 1 then s[0]
    else
      var m' := MaxOf(s[..|s| - 1]);
      assert forall i :: 0 <= i < |s| - 1 ==> s[..|s| - 1][i] == s[i];
      if s[|s| - 1] > m' then s[|s| - 1] else m'
  }

  function MinOf(s: seq<real>): (m: real)
    requires |s| > 0
    ensures forall i :: 0 <= i < |s| ==> m <= s[i]
    ensures exists i :: 0 <= i < |s| && s[i] == m
  {
    if |s| == 1 then s[0]
    else
      var m' := MinOf(s[..|s| - 1]);
      assert forall i :: 0 <= i < |s| - 1 ==> s[..|s| - 1][i] == s[i];
      if s[|s| - 1] < m' then s[|s| - 1] else m'
  }

  /**
   * The number of consecutive strictly positive values at the end of `s`:
   * the longest all-positive suffix.
   */
  function TrailingPositives(s: seq<int>): (r: nat)
    ensures r <= |s|
    ensures forall k :: |s| - r <= k < |s| ==> s[k] > 0
    ensures r < |s| ==> s[|s| - 1 - r] <= 0
  {
    if s == [] || s[|s| - 1] <= 0 then 0
    else
      var r' := TrailingPositives(s[..|s| - 1]);
      assert forall k :: |s| - 1 - r' <= k < |s| - 1 ==> s[..|s| - 1][k] == s[k];
      r' + 1
  }

  /** Python's `kw in text` on strings. */
  predicate Contains(text: string, kw: string) {
    exists i | 0 <= i <= |text| - |kw| :: OccursAt(text, kw, i)
  }

  predicate OccursAt(text: string, kw: string, i: int) {
    0 <= i <= |text| - |kw| && text[i..i + |kw|] == kw
  }

  /** Python's `any(kw in text for kw in kws)`. */
  predicate AnyIn(kws: seq<string>, text: string) {
    exists k :: 0 <= k < |kws| && Contains(text, kws[k])
  }

  /** Python's `s.startswith(p)`. */
  predicate StartsWith(s: string, p: string) {
    |p| <= |s| && s[..|p|] == p
  }

  /** A net-purchase table as the data provider returns it: a row count and two optional columns. */
  datatype NetPurchases = NetPurchases(rows: nat, foreign: OptColumn, inst: OptColumn)

  datatype OptColumn = Absent | Column(values: seq<int>)

  /** Every present column has one value per row. */
  predicate WellFormed(t: NetPurchases) {
    (t.foreign.Column? ==> |t.foreign.values| == t.rows) &&
    (t.inst.Column? ==> |t.inst.values| == t.rows)
  }

  /** `df[col].tail(k).sum() if col in df.columns else 0`. */
  function TailSum(c: OptColumn, k: nat): int {
    match c
    case Absent => 0
    case Column(v) => Sum(Tail(v, k))
  }

  /** The streak `_count_consecutive_buys` reports: 0 for a missing column. */
  function Consecutive(c: OptColumn): (n: nat)
    ensures c.Absent? ==> n == 0
    ensures c.Column? ==> n <= |c.values| &&
                          (forall k :: |c.values| - n <= k < |c.values| ==> c.values[k] > 0) &&
                          (n < |c.values| ==> c.values[|c.values| - 1 - n] <= 0)
  {
    match c
    case Absent => 0
    case Column(v) => TrailingPositives(v)
  }

  /** The all-positive-suffix length is determined by its two defining facts. */
  lemma TrailingPositivesUnique(s: seq<int>, r: nat)
    requires r <= |s|
    requires forall k :: |s| - r <= k < |s| ==> s[k] > 0
    requires r < |s| ==> s[|s| - 1 - r] <= 0
    ensures TrailingPositives(s) == r
  {
  }

  /** `_count_consecutive_buys`: walks the column from its last row back while the values are positive. */
  method CountConsecutiveBuys(column: OptColumn) returns (count: nat)
    ensures count == Consecutive(column)
  {
    if column.Absent? {
      return 0;
    }
    var v := column.values;
    count := 0;
    var i := |v|;
    var stopped := false;
    while i > 0 && !stopped
      invariant 0 <= i <= |v|
      invariant count == |v| - i
      invariant forall k :: i <= k < |v| ==> v[k] > 0
      invariant stopped ==> i > 0 && v[i - 1] <= 0
      decreases i, !stopped
    {
      if v[i - 1] > 0 {
        count := count + 1;
        i := i - 1;
      } else {
        stopped := true;
      }
    }
    TrailingPositivesUnique(v, count);
  }
}
