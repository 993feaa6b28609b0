/**
 * The pandas column operations a price series relies on, over columns whose
 * missing entries (NaN) are None: the NaN-skipping count, sum, mean and
 * sample variance, forward fill, percentage change, the trailing rolling mean
 * and the first-occurrence arg-min / arg-max.
 */
module Statistics {
  import opened Wrappers

  /** A float cell; None is the NaN "missing" sentinel. */
  type Num = Option<real>

  /** Number of non-missing entries. */
  function Count(xs: seq<Num>): nat
  {
    if |xs| == 0 then 0
    else Count(xs[..|xs| - 1]) + (if xs[|xs| - 1].Some? then 1 else 0)
  }

  lemma {:induction false} CountZero(xs: seq<Num>)
    ensures Count(xs) == 0 <==> forall i :: 0 <= i < |xs| ==> xs[i].None?
  {
    if |xs| > 0 {
      CountZero(xs[..|xs| - 1]);
    }
  }

  /** Sum of the non-missing entries. */
  function Total(xs: seq<Num>): real
  {
    if |xs| == 0 then 0.0
    else Total(xs[..|xs| - 1]) + (if xs[|xs| - 1].Some? then xs[|xs| - 1].value else 0.0)
  }

  lemma {:induction false} TotalAppend(a: seq<Num>, b: seq<Num>)
    ensures Total(a + b) == Total(a) + Total(b)
    decreases |b|
  {
    if |b| == 0 {
      assert a + b == a;
    } else {
      var n := |b| - 1;
      assert (a + b)[..|a + b| - 1] == a + b[..n];
      TotalAppend(a, b[..n]);
    }
  }

  lemma {:induction false} TotalBounds(xs: seq<Num>, lo: real, hi: real)
    requires forall i :: 0 <= i < |xs| && xs[i].Some? ==> lo <= xs[i].value <= hi
    ensures Count(xs) as real * lo <= Total(xs) <= Count(xs) as real * hi
  {
    if |xs| > 0 {
      var n := |xs| - 1;
      TotalBounds(xs[..n], lo, hi);
      if xs[n].Some? {
        BoundsStep(Count(xs[..n]) as real, Total(xs[..n]), xs[n].value, lo, hi);
      }
    }
  }

  lemma BoundsStep(c: real, t: real, x: real, lo: real, hi: real)
    requires c * lo <= t <= c * hi && lo <= x <= hi
    ensures (c + 1.0) * lo <= t + x <= (c + 1.0) * hi
  {
    assert (c + 1.0) * lo == c * lo + lo;
    assert (c + 1.0) * hi == c * hi + hi;
  }

  lemma QuotientBounds(m: real, n: real, t: real, lo: real, hi: real)
    requires n > 0.0 && m * n == t && n * lo <= t <= n * hi
    ensures lo <= m <= hi
  {
  }

  /** `Series.mean()`: the mean of the non-missing entries, missing when there are none. */
  function Mean(xs: seq<Num>): (r: Num)
    ensures r.None? <==> forall i :: 0 <= i < |xs| ==> xs[i].None?
    ensures r.Some? ==> r.value * Count(xs) as real == Total(xs)
  {
    CountZero(xs);
    if Count(xs) == 0 then None else Some(Total(xs) / Count(xs) as real)
  }

  /** The mean lies between any bounds of the values it averages. */
  lemma MeanWithin(xs: seq<Num>, lo: real, hi: real)
    requires Mean(xs).Some?
    requires forall i :: 0 <= i < |xs| && xs[i].Some? ==> lo <= xs[i].value <= hi
    ensures lo <= Mean(xs).value <= hi
  {
    TotalBounds(xs, lo, hi);
    QuotientBounds(Mean(xs).value, Count(xs) as real, Total(xs), lo, hi);
  }

  function Square(d: real): (r: real)
    ensures r >= 0.0
  {
    if d >= 0.0 then d * d else (-d) * (-d)
  }

  /** Sum of squared deviations from `m` of the non-missing entries. */
  function Deviations(xs: seq<Num>, m: real): (d: real)
    ensures d >= 0.0
  {
    if |xs| == 0 then 0.0
    else
      var last := xs[|xs| - 1];
      Deviations(xs[..|xs| - 1], m) + (if last.Some? then Square(last.value - m) else 0.0)
  }

  /**
   * The square of `Series.std()`: the sample variance (divisor n - 1) of the
   * non-missing entries, missing when fewer than two are present.
   */
  function SampleVariance(xs: seq<Num>): (r: Num)
    ensures r.Some? <==> Count(xs) >= 2
    ensures r.Some? ==> r.value >= 0.0
    ensures r.Some? ==> Mean(xs).Some? && r.value * (Count(xs) - 1) as real == Deviations(xs, Mean(xs).value)
  {
    if Count(xs) < 2 then None
    else
      CountZero(xs);
      var n := (Count(xs) - 1) as real;
      var d := Deviations(xs, Mean(xs).value);
      QuotientTimes(d, n);
      Some(d / n)
  }

  lemma QuotientTimes(q: real, n: real)
    requires n > 0.0
    ensures (q / n) * n == q
    ensures q >= 0.0 ==> q / n >= 0.0
  {
  }

  lemma {:induction false} DeviationsOfConstant(xs: seq<Num>, c: real)
    requires forall i :: 0 <= i < |xs| && xs[i].Some? ==> xs[i].value == c
    ensures Deviations(xs, c) == 0.0
  {
    if |xs| > 0 {
      DeviationsOfConstant(xs[..|xs| - 1], c);
    }
  }

  /** A column whose present values all equal `c` has mean `c` and, with two or more values, variance 0. */
  lemma ConstantColumn(xs: seq<Num>, c: real)
    requires Count(xs) > 0
    requires forall i :: 0 <= i < |xs| && xs[i].Some? ==> xs[i].value == c
    ensures Mean(xs) == Some(c)
    ensures Count(xs) >= 2 ==> SampleVariance(xs) == Some(0.0)
  {
    MeanWithin(xs, c, c);
    DeviationsOfConstant(xs, c);
  }

  /** `ffill()`: each missing entry takes the last present value before it. */
  function ForwardFill(xs: seq<Num>): (r: seq<Num>)
    ensures |r| == |xs|
    ensures forall i :: 0 <= i < |xs| && xs[i].Some? ==> r[i] == xs[i]
    ensures forall i :: 0 < i < |xs| && xs[i].None? ==> r[i] == r[i - 1]
    ensures |xs| > 0 && xs[0].None? ==> r[0].None?
  {
    if |xs| == 0 then []
    else
      var f := ForwardFill(xs[..|xs| - 1]);
      var last := xs[|xs| - 1];
      f + [if last.Some? || |f| == 0 then last else f[|f| - 1]]
  }

  /** `b / a - 1` of two filled entries; a zero or missing `a`, or a missing `b`, gives missing. */
  function Growth(a: Num, b: Num): (r: Num)
    ensures r.Some? <==> a.Some? && b.Some? && a.value != 0.0
    ensures r.Some? ==> a.value * (1.0 + r.value) == b.value
  {
    if a.Some? && b.Some? && a.value != 0.0 then
      assert a.value * (b.value / a.value) == b.value;
      Some(b.value / a.value - 1.0)
    else None
  }

  /** `pct_change()`: forward fill, then each entry over the one before it, minus one. */
  function PercentChange(xs: seq<Num>): (r: seq<Num>)
    ensures |r| == |xs|
    ensures |xs| > 0 ==> r[0].None?
    ensures forall i :: 1 <= i < |xs| && xs[i - 1].Some? && xs[i].Some? ==> r[i] == Growth(xs[i - 1], xs[i])
  {
    var f := ForwardFill(xs);
    seq(|xs|, i requires 0 <= i < |xs| => if i == 0 then None else Growth(f[i - 1], f[i]))
  }

  /** Between two present prices whose first is non-zero, the return is the quotient minus one. */
  lemma PercentChangeQuotient(xs: seq<Num>, i: nat)
    requires 1 <= i < |xs| && xs[i - 1].Some? && xs[i].Some? && xs[i - 1].value != 0.0
    ensures PercentChange(xs)[i] == Some(xs[i].value / xs[i - 1].value - 1.0)
  {
    assert PercentChange(xs)[i] == Growth(xs[i - 1], xs[i]);
  }

  /** Compounding a return onto the previous price gives back the price. */
  lemma ReturnsCompound(xs: seq<Num>, i: nat)
    requires 1 <= i < |xs| && xs[i - 1].Some? && xs[i].Some? && xs[i - 1].value != 0.0
    ensures PercentChange(xs)[i].Some?
    ensures xs[i - 1].value * (1.0 + PercentChange(xs)[i].value) == xs[i].value
  {
    assert PercentChange(xs)[i] == Growth(xs[i - 1], xs[i]);
  }

  /** A missing price after a present non-zero one reads as a flat day (return 0), as pandas fills before dividing. */
  lemma GapIsFlat(xs: seq<Num>, i: nat)
    requires 1 <= i < |xs| && xs[i].None?
    requires ForwardFill(xs)[i - 1].Some? && ForwardFill(xs)[i - 1].value != 0.0
    ensures PercentChange(xs)[i] == Some(0.0)
  {
    var f := ForwardFill(xs);
    assert f[i] == f[i - 1];
    assert f[i].value / f[i - 1].value == 1.0;
  }

  /** The mean of a full window; missing when the window is empty or holds a missing entry. */
  function WindowMean(win: seq<Num>): (r: Num)
    ensures r.Some? <==> |win| > 0 && forall i :: 0 <= i < |win| ==> win[i].Some?
    ensures r.Some? ==> r.value * |win| as real == Total(win)
  {
    CountFull(win);
    if |win| > 0 && Count(win) == |win| then Some(Total(win) / |win| as real) else None
  }

  lemma {:induction false} CountFull(xs: seq<Num>)
    ensures Count(xs) <= |xs|
    ensures Count(xs) == |xs| <==> forall i :: 0 <= i < |xs| ==> xs[i].Some?
  {
    if |xs| > 0 {
      CountFull(xs[..|xs| - 1]);
    }
  }

  /**
   * `rolling(window=w).mean()` with pandas' default `min_periods = w`: entry i
   * is the mean of the w entries ending at i, missing before the window fills
   * or when the window holds a missing entry.
   */
  function RollingMean(xs: seq<Num>, w: nat): (r: seq<Num>)
    ensures |r| == |xs|
    ensures forall i :: 0 <= i < |xs| && i + 1 < w ==> r[i].None?
    ensures forall i :: 0 <= i < |xs| && w <= i + 1 ==> r[i] == WindowMean(xs[i + 1 - w..i + 1])
  {
    seq(|xs|, i requires 0 <= i < |xs| => if i + 1 < w then None else WindowMean(xs[i + 1 - w..i + 1]))
  }

  lemma TotalSingle(x: Num)
    ensures Total([x]) == if x.Some? then x.value else 0.0
  {
    assert [x][..0] == [];
  }

  /** With a window of one the rolling mean is the column itself. */
  lemma RollingMeanUnitWindow(xs: seq<Num>)
    ensures RollingMean(xs, 1) == xs
  {
    var r := RollingMean(xs, 1);
    forall i | 0 <= i < |xs|
      ensures r[i] == xs[i]
    {
      var win := xs[i..i + 1];
      assert win == [xs[i]];
      TotalSingle(xs[i]);
    }
  }

  /**
   * Two consecutive full windows differ by the entry that enters minus the
   * entry that leaves, divided by the window length: the incremental update
   * a rolling sum performs.
   */
  lemma RollingMeanStep(xs: seq<Num>, w: nat, i: nat)
    requires w >= 1 && w <= i + 1 && i + 1 < |xs|
    requires forall j :: i + 1 - w <= j <= i + 1 ==> xs[j].Some?
    ensures RollingMean(xs, w)[i].Some? && RollingMean(xs, w)[i + 1].Some?
    ensures (RollingMean(xs, w)[i + 1].value - RollingMean(xs, w)[i].value) * w as real
         == xs[i + 1].value - xs[i + 1 - w].value
  {
    var a := xs[i + 1 - w..i + 1];
    var b := xs[i + 2 - w..i + 2];
    WindowFull(xs, i + 1 - w, i + 1);
    WindowFull(xs, i + 2 - w, i + 2);
    var mid := xs[i + 2 - w..i + 1];
    assert a == [xs[i + 1 - w]] + mid;
    assert b == mid + [xs[i + 1]];
    WindowShift(xs[i + 1 - w], mid, xs[i + 1]);
  }

  /** Sliding a full window by one entry changes its mean by the entering minus the leaving entry over the width. */
  lemma WindowShift(x: Num, mid: seq<Num>, y: Num)
    requires WindowMean([x] + mid).Some? && WindowMean(mid + [y]).Some?
    ensures x.Some? && y.Some?
    ensures (WindowMean(mid + [y]).value - WindowMean([x] + mid).value) * (|mid| + 1) as real == y.value - x.value
  {
    assert ([x] + mid)[0] == x;
    assert (mid + [y])[|mid|] == y;
    TotalAppend([x], mid);
    TotalAppend(mid, [y]);
    TotalSingle(x);
    TotalSingle(y);
    Distribute(WindowMean(mid + [y]).value, WindowMean([x] + mid).value, (|mid| + 1) as real);
  }

  /** A window whose entries are all present has a mean. */
  lemma WindowFull(xs: seq<Num>, lo: nat, hi: nat)
    requires lo < hi <= |xs| && forall j :: lo <= j < hi ==> xs[j].Some?
    ensures WindowMean(xs[lo..hi]).Some?
  {
    var win := xs[lo..hi];
    assert forall k :: 0 <= k < |win| ==> win[k] == xs[lo + k];
  }

  lemma Distribute(a: real, b: real, k: real)
    ensures (a - b) * k == a * k - b * k
  {
  }

  /** Entry i holds the smallest present value, and no present entry before i is as small. */
  predicate FirstMinimumAt(xs: seq<Num>, i: nat) {
    && i < |xs| && xs[i].Some?
    && (forall j :: 0 <= j < |xs| && xs[j].Some? ==> xs[i].value <= xs[j].value)
    && (forall j :: 0 <= j < i && xs[j].Some? ==> xs[i].value < xs[j].value)
  }

  /** Entry i holds the largest present value, and no present entry before i is as large. */
  predicate FirstMaximumAt(xs: seq<Num>, i: nat) {
    && i < |xs| && xs[i].Some?
    && (forall j :: 0 <= j < |xs| && xs[j].Some? ==> xs[j].value <= xs[i].value)
    && (forall j :: 0 <= j < i && xs[j].Some? ==> xs[j].value < xs[i].value)
  }

  /** `idxmin()` as a position: the first occurrence of the smallest present value. */
  function FirstMin(xs: seq<Num>): (r: Option<nat>)
    ensures r.None? <==> forall i :: 0 <= i < |xs| ==> xs[i].None?
    ensures r.Some? ==> FirstMinimumAt(xs, r.value)
  {
    if |xs| == 0 then None
    else
      var n := |xs| - 1;
      var m := FirstMin(xs[..n]);
      assert forall j :: 0 <= j < n ==> xs[..n][j] == xs[j];
      if xs[n].None? then m
      else if m.None? || xs[n].value < xs[m.value].value then Some(n)
      else m
  }

  /** `idxmax()` as a position: the first occurrence of the largest present value. */
  function FirstMax(xs: seq<Num>): (r: Option<nat>)
    ensures r.None? <==> forall i :: 0 <= i < |xs| ==> xs[i].None?
    ensures r.Some? ==> FirstMaximumAt(xs, r.value)
  {
    if |xs| == 0 then None
    else
      var n := |xs| - 1;
      var m := FirstMax(xs[..n]);
      assert forall j :: 0 <= j < n ==> xs[..n][j] == xs[j];
      if xs[n].None? then m
      else if m.None? || xs[m.value].value < xs[n].value then Some(n)
      else m
  }
}
