// Aggregates over columns of real numbers, as Python's sum/len/max/min and
// pandas' Series.mean compute them (in exact arithmetic: no rounding).
module Stats {

  /** Sum of the values, accumulated from the front as a loop would. */
  function Sum(s: seq<real>): real
  {
    if s == [] then 0.0 else Sum(s[..|s| - 1]) + s[|s| - 1]
  }

  function Mean(s: seq<real>): real
    requires |s| > 0
  {
    Sum(s) / (|s| as real)
  }

  /** Series.mean(); the NaN of an empty column is 0 here. */
  function ColumnMean(v: seq<real>): real
  {
    if v == [] then 0.0 else Mean(v)
  }

  /** A column of zeros, as `df[col] = 0` fills one. */
  function ZeroColumn(n: nat): (r: seq<real>)
    ensures |r| == n && forall i :: 0 <= i < n ==> r[i] == 0.0
  {
    seq(n, i => 0.0)
  }

  /** Row i across the given columns. */
  function Across(columns: seq<seq<real>>, i: nat): (r: seq<real>)
    requires forall k :: 0 <= k < |columns| ==> i < |columns[k]|
    ensures |r| == |columns| && forall k :: 0 <= k < |columns| ==> r[k] == columns[k][i]
  {
    seq(|columns|, k requires 0 <= k < |columns| => columns[k][i])
  }

  /** DataFrame.mean(axis=1): each row's mean across the columns. */
  function RowMeans(columns: seq<seq<real>>, rows: nat): (r: seq<real>)
    requires forall k :: 0 <= k < |columns| ==> |columns[k]| == rows
    ensures |r| == rows
  {
    seq(rows, i requires 0 <= i < rows => ColumnMean(Across(columns, i)))
  }

  /** The largest value (Python's max over a non-empty list). */
  function MaxOf(s: seq<real>): (m: real)
    requires |s| > 0
    ensures m in s
    ensures forall i :: 0 <= i < |s| ==> s[i] <= m
  {
    if |s| == 1 then s[0]
    else
      var rest := MaxOf(s[..|s| - 1]);
      if s[|s| - 1] > rest then s[|s| - 1] else rest
  }

  /** The smallest value (Python's min over a non-empty list). */
  function MinOf(s: seq<real>): (m: real)
    requires |s| > 0
    ensures m in s
    ensures forall i :: 0 <= i < |s| ==> m <= s[i]
  {
    if |s| == 1 then s[0]
    else
      var rest := MinOf(s[..|s| - 1]);
      if s[|s| - 1] < rest then s[|s| - 1] else rest
  }

  lemma {:induction false} SumBounds(s: seq<real>, lo: real, hi: real)
    requires forall i :: 0 <= i < |s| ==> lo <= s[i] <= hi
    ensures (|s| as real) * lo <= Sum(s) <= (|s| as real) * hi
  {
    if s != [] {
      SumBounds(s[..|s| - 1], lo, hi);
    }
  }

  lemma DivideBounds(a: real, n: real, lo: real, hi: real)
    requires n > 0.0 && n * lo <= a <= n * hi
    ensures lo <= a / n <= hi
  {
  }

  /** A mean is bounded by any bounds on the values. */
  lemma MeanWithin(s: seq<real>, lo: real, hi: real)
    requires |s| > 0
    requires forall i :: 0 <= i < |s| ==> lo <= s[i] <= hi
    ensures lo <= Mean(s) <= hi
  {
    var n := |s| as real;
    SumBounds(s, lo, hi);
    var a := Sum(s);
    assert n * lo <= a <= n * hi;
    DivideBounds(a, n, lo, hi);
  }

  /** The mean lies between the minimum and the maximum. */
  lemma MeanBetween(s: seq<real>)
    requires |s| > 0
    ensures MinOf(s) <= Mean(s) <= MaxOf(s)
  {
    MeanWithin(s, MinOf(s), MaxOf(s));
  }

  lemma {:induction false} SumAppend(s: seq<real>, x: real)
    ensures Sum(s + [x]) == Sum(s) + x
  {
    assert (s + [x])[..|s + [x]| - 1] == s;
  }

  lemma {:induction false} SumNonNegative(s: seq<real>)
    requires forall i :: 0 <= i < |s| ==> s[i] >= 0.0
    ensures Sum(s) >= 0.0
  {
    if s != [] {
      SumNonNegative(s[..|s| - 1]);
    }
  }

  /** Python's int() on a float: truncation toward zero. */
  function Trunc(x: real): (n: int)
    ensures x >= 0.0 ==> 0 <= n && n as real <= x < n as real + 1.0
    ensures x < 0.0 ==> n <= 0 && n as real - 1.0 < x <= n as real
  {
    if x >= 0.0 then x.Floor else -((-x).Floor)
  }

  /** One more round of a counter that grows by n per round. */
  lemma MultiplyStep(k: nat, n: nat)
    ensures (k + 1) * n == k * n + n
  {
  }
}
