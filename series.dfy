/**
 * One instrument's normalized table (`PriceSeries`) with the statistics
 * derived from it when it is built, its query operations, and a portfolio of
 * such series keyed by ticker in insertion order.
 */
module Series {
  import opened Wrappers
  import opened Dates
  import opened StableSort
  import opened Statistics
  import N = Normalizer

  // ---------------------------------------------------------------- tables

  /** A date-indexed frame of float columns; every column is as long as the index. */
  datatype DataFrame = DataFrame(index: seq<DateTime>, columns: map<string, seq<Num>>)

  predicate Rectangular(f: DataFrame) {
    forall c :: c in f.columns ==> |f.columns[c]| == |f.index|
  }

  type Table = f: DataFrame | Rectangular(f) witness DataFrame([], map[])

  /** `DataFrame.empty`: no rows or no columns. */
  predicate IsEmpty(t: Table) {
    |t.index| == 0 || |t.columns| == 0
  }

  /** The frame a normalizer builds, without its text columns (ticker, source). */
  function FrameTable(rows: seq<N.Row>): (t: Table)
    ensures t.index == seq(|rows|, i requires 0 <= i < |rows| => rows[i].date)
    ensures t.columns.Keys == {"open", "high", "low", "close", "volume"}
    ensures forall k, i :: 0 <= k < 5 && 0 <= i < |rows| ==> t.columns[N.PlainKeys[k]][i] == rows[i].quote.Values()[k]
  {
    DataFrame(seq(|rows|, i requires 0 <= i < |rows| => rows[i].date),
              map["open" := QuoteColumn(rows, 0), "high" := QuoteColumn(rows, 1), "low" := QuoteColumn(rows, 2),
                  "close" := QuoteColumn(rows, 3), "volume" := QuoteColumn(rows, 4)])
  }

  function QuoteColumn(rows: seq<N.Row>, k: nat): (col: seq<Num>)
    requires k < 5
    ensures |col| == |rows|
  {
    seq(|rows|, i requires 0 <= i < |rows| => rows[i].quote.Values()[k])
  }

  // ---------------------------------------------------------------- derived statistics

  /** `main_col`: "close" when that column exists, else "rsi" when it exists; nothing for an empty frame. */
  function MainColumn(t: Table): (r: Option<string>)
    ensures r.Some? ==> !IsEmpty(t) && r.value in t.columns
    ensures !IsEmpty(t) && "close" in t.columns ==> r == Some("close")
    ensures !IsEmpty(t) && "close" !in t.columns && "rsi" in t.columns ==> r == Some("rsi")
    ensures r.None? <==> IsEmpty(t) || ("close" !in t.columns && "rsi" !in t.columns)
  {
    if IsEmpty(t) then None
    else if "close" in t.columns then Some("close")
    else if "rsi" in t.columns then Some("rsi")
    else None
  }

  /** `index.min()`: the first date whose wall clock is not after any other's. */
  function EarliestDate(ds: seq<DateTime>): (r: DateTime)
    requires |ds| > 0
    ensures r in ds
    ensures forall d :: d in ds ==> WallLe(r.wall, d.wall)
  {
    if |ds| == 1 then WallLeReflexive(ds[0].wall); ds[0]
    else
      var n := |ds| - 1;
      var m := EarliestDate(ds[..n]);
      assert ds == ds[..n] + [ds[n]];
      WallLeTotal(m.wall, ds[n].wall);
      if WallLe(m.wall, ds[n].wall) then m
      else
        assert forall d :: d in ds[..n] ==> WallLe(ds[n].wall, d.wall) by {
          forall d | d in ds[..n] ensures WallLe(ds[n].wall, d.wall) {
            WallLeTransitive(ds[n].wall, m.wall, d.wall);
          }
        }
        WallLeReflexive(ds[n].wall);
        ds[n]
  }

  /** `index.max()`: the first date whose wall clock is not before any other's. */
  function LatestDate(ds: seq<DateTime>): (r: DateTime)
    requires |ds| > 0
    ensures r in ds
    ensures forall d :: d in ds ==> WallLe(d.wall, r.wall)
  {
    if |ds| == 1 then WallLeReflexive(ds[0].wall); ds[0]
    else
      var n := |ds| - 1;
      var m := LatestDate(ds[..n]);
      assert ds == ds[..n] + [ds[n]];
      WallLeTotal(m.wall, ds[n].wall);
      if WallLe(ds[n].wall, m.wall) then m
      else
        assert forall d :: d in ds[..n] ==> WallLe(d.wall, ds[n].wall) by {
          forall d | d in ds[..n] ensures WallLe(d.wall, ds[n].wall) {
            WallLeTransitive(d.wall, m.wall, ds[n].wall);
          }
        }
        WallLeReflexive(ds[n].wall);
        ds[n]
  }

  /**
   * A table built from normalized rows has "close" as its main column, and
   * because the rows are sorted its date range runs from the first row's date
   * to the last row's.
   */
  lemma NormalizedRange(rows: seq<N.Row>)
    requires |rows| > 0 && SortedBy(rows, N.DateKey)
    ensures MainColumn(FrameTable(rows)) == Some("close")
    ensures EarliestDate(FrameTable(rows).index).wall == rows[0].date.wall
    ensures LatestDate(FrameTable(rows).index).wall == rows[|rows| - 1].date.wall
  {
    var t := FrameTable(rows);
    assert "close" in t.columns;
    var lo := EarliestDate(t.index);
    var hi := LatestDate(t.index);
    assert t.index[0] == rows[0].date;
    assert t.index[|rows| - 1] == rows[|rows| - 1].date;
    var i :| 0 <= i < |rows| && t.index[i] == lo;
    var j :| 0 <= j < |rows| && t.index[j] == hi;
    if i > 0 {
      assert N.DateKey(rows[0]) == rows[0].date.wall;
      assert WallLe(N.DateKey(rows[0]), N.DateKey(rows[i]));
    } else {
      WallLeReflexive(rows[0].date.wall);
    }
    WallLeAntisymmetric(lo.wall, rows[0].date.wall);
    if j < |rows| - 1 {
      assert WallLe(N.DateKey(rows[j]), N.DateKey(rows[|rows| - 1]));
    } else {
      WallLeReflexive(hi.wall);
    }
    WallLeAntisymmetric(hi.wall, rows[|rows| - 1].date.wall);
  }

  // ---------------------------------------------------------------- query results

  /** `calculate_sma`: declined (None), a ValueError for a negative window, or the averages. */
  datatype Sma = Declined | BadWindow | Averages(values: seq<Num>)

  /** `get_min_max`: None without a main column; NaN and NaN when every value is missing; else the four entries. */
  datatype MinMax = NoMainColumn | AllMissing | Extremes(minValue: real, minDate: DateTime, maxValue: real, maxDate: DateTime)

  // ---------------------------------------------------------------- PriceSeries

  class PriceSeries {
    const ticker: string
    const source: string
    const data: Table
    var startDate: Option<DateTime>
    var endDate: Option<DateTime>
    var mainCol: Option<string>
    var meanValue: Num
    /** The square of `std_dev_value`. */
    var varianceValue: Num

    /** The derived fields agree with `data`. */
    ghost predicate Valid()
      reads this
    {
      && startDate == (if IsEmpty(data) then None else Some(EarliestDate(data.index)))
      && endDate == (if IsEmpty(data) then None else Some(LatestDate(data.index)))
      && mainCol == MainColumn(data)
      && meanValue == (if mainCol.Some? then Mean(data.columns[mainCol.value]) else None)
      && varianceValue == (if mainCol.Some? then SampleVariance(data.columns[mainCol.value]) else None)
    }

    /** The dataclass constructor followed by `__post_init__`. */
    constructor (ticker: string, source: string, data: Table)
      ensures this.ticker == ticker && this.source == source && this.data == data
      ensures Valid()
      ensures startDate.None? <==> IsEmpty(data)
      ensures startDate.Some? ==> endDate.Some? && WallLe(startDate.value.wall, endDate.value.wall)
      ensures mainCol.None? ==> meanValue.None? && varianceValue.None?
    {
      this.ticker := ticker;
      this.source := source;
      this.data := data;
      if !IsEmpty(data) {
        var first := EarliestDate(data.index);
        var last := LatestDate(data.index);
        startDate := Some(first);
        endDate := Some(last);
        var col: Option<string> := None;
        if "close" in data.columns {
          col := Some("close");
        } else if "rsi" in data.columns {
          col := Some("rsi");
        }
        mainCol := col;
        if col.Some? {
          meanValue := Mean(data.columns[col.value]);
          varianceValue := SampleVariance(data.columns[col.value]);
        } else {
          meanValue := None;
          varianceValue := None;
        }
      } else {
        startDate := None;
        endDate := None;
        meanValue := None;
        varianceValue := None;
        mainCol := None;
      }
    }

    /** `len(series)`: the number of rows. */
    function Len(): (n: nat)
      reads this
      requires Valid()
      ensures n == |data.index|
      ensures startDate.Some? <==> n > 0 && |data.columns| > 0
    {
      |data.index|
    }

    /** `get_daily_returns(column)`, by default over "close": None for an absent column, else its percentage change. */
    function GetDailyReturns(column: string := "close"): (r: Option<seq<Num>>)
      ensures r.None? <==> column !in data.columns
      ensures r.Some? ==> |r.value| == |data.index| && r.value == PercentChange(data.columns[column])
    {
      if column in data.columns then Some(PercentChange(data.columns[column])) else None
    }

    /** `calculate_sma(window)` over the main column, with a default window of 20 rows. */
    function CalculateSma(window: int := 20): (r: Sma)
      reads this
      requires Valid()
      ensures r.Declined? <==> mainCol.None? || |data.index| < window
      ensures r.BadWindow? <==> mainCol.Some? && window < 0
      ensures r.Averages? ==> 0 <= window <= |data.index| && |r.values| == |data.index|
      ensures r.Averages? ==> r.values == RollingMean(data.columns[mainCol.value], window)
    {
      if mainCol.None? || |data.index| < window then Declined
      else if window < 0 then BadWindow
      else Averages(RollingMean(data.columns[mainCol.value], window))
    }

    /** `get_min_max()` over the main column, dates taken from the index at the first occurrence. */
    function GetMinMax(): (r: MinMax)
      reads this
      requires Valid()
      ensures r.NoMainColumn? <==> mainCol.None?
      ensures r.AllMissing? <==> mainCol.Some? && forall i :: 0 <= i < |data.index| ==> data.columns[mainCol.value][i].None?
      ensures r.Extremes? ==> mainCol.Some?
      ensures r.Extremes? ==> (exists i: nat :: && i < |data.index| && FirstMinimumAt(data.columns[mainCol.value], i)
                                                && data.columns[mainCol.value][i] == Some(r.minValue) && data.index[i] == r.minDate)
      ensures r.Extremes? ==> (exists i: nat :: && i < |data.index| && FirstMaximumAt(data.columns[mainCol.value], i)
                                                && data.columns[mainCol.value][i] == Some(r.maxValue) && data.index[i] == r.maxDate)
    {
      if mainCol.None? then NoMainColumn
      else
        var xs := data.columns[mainCol.value];
        match (FirstMin(xs), FirstMax(xs))
        case (Some(i), Some(j)) => Extremes(xs[i].value, data.index[i], xs[j].value, data.index[j])
        case _ => AllMissing
    }
  }

  // ---------------------------------------------------------------- Portfolio

  predicate Distinct(s: seq<string>) {
    forall i, j :: 0 <= i < j < |s| ==> s[i] != s[j]
  }

  /** The key order of a dict after `d[t] = ...`: a new key goes last, an existing key stays where it is. */
  function Enrol(keys: seq<string>, t: string): (r: seq<string>)
    ensures Distinct(keys) ==> Distinct(r)
    ensures forall k :: k in r <==> k in keys || k == t
    ensures keys <= r && |r| <= |keys| + 1
  {
    if t in keys then keys else keys + [t]
  }

  /** The key order after adding tickers `ts` one at a time. */
  function EnrolAll(keys: seq<string>, ts: seq<string>): seq<string>
  {
    if |ts| == 0 then keys else Enrol(EnrolAll(keys, ts[..|ts| - 1]), ts[|ts| - 1])
  }

  /** Position of the first occurrence of `t` in `ts`. */
  function FirstIndex(ts: seq<string>, t: string): (i: nat)
    requires t in ts
    ensures i < |ts| && ts[i] == t && forall j :: 0 <= j < i ==> ts[j] != t
  {
    if ts[0] == t then 0 else 1 + FirstIndex(ts[1..], t)
  }

  lemma {:induction false} DistinctCardinality(s: seq<string>)
    requires Distinct(s)
    ensures |set x | x in s| == |s|
  {
    if |s| > 0 {
      var n := |s| - 1;
      DistinctCardinality(s[..n]);
      assert (set x | x in s) == (set x | x in s[..n]) + {s[n]};
      assert s[n] !in s[..n];
    }
  }

  /** A first occurrence in a prefix is the first occurrence in the whole sequence. */
  lemma FirstIndexPrefix(ts: seq<string>, n: nat, k: string)
    requires n <= |ts| && k in ts[..n]
    ensures FirstIndex(ts, k) == FirstIndex(ts[..n], k)
  {
    var a := FirstIndex(ts[..n], k);
    var b := FirstIndex(ts, k);
    assert ts[a] == k;
  }

  /** Adding tickers one at a time to an empty portfolio lists each distinct ticker exactly once. */
  lemma {:induction false} TickersAreDistinct(ts: seq<string>)
    ensures Distinct(EnrolAll([], ts))
    ensures forall k :: k in EnrolAll([], ts) <==> k in ts
    ensures |EnrolAll([], ts)| == |set t | t in ts|
  {
    var r := EnrolAll([], ts);
    if |ts| > 0 {
      var n := |ts| - 1;
      TickersAreDistinct(ts[..n]);
      assert ts == ts[..n] + [ts[n]];
    }
    DistinctCardinality(r);
    assert (set x | x in r) == (set t | t in ts);
  }

  /** The tickers are listed in the order of their first addition. */
  lemma {:induction false} TickersInFirstInsertionOrder(ts: seq<string>)
    ensures forall k :: k in EnrolAll([], ts) ==> k in ts
    ensures forall i, j :: 0 <= i < j < |EnrolAll([], ts)| ==>
      FirstIndex(ts, EnrolAll([], ts)[i]) < FirstIndex(ts, EnrolAll([], ts)[j])
  {
    if |ts| > 0 {
      var n := |ts| - 1;
      var prefix := ts[..n];
      var q := EnrolAll([], prefix);
      var r := EnrolAll([], ts);
      TickersInFirstInsertionOrder(prefix);
      assert ts == prefix + [ts[n]];
      forall k | k in q ensures FirstIndex(ts, k) == FirstIndex(prefix, k) && FirstIndex(ts, k) < n {
        FirstIndexPrefix(ts, n, k);
      }
      if ts[n] !in q {
        TickersAreDistinct(prefix);
        assert ts[n] !in prefix;
        assert FirstIndex(ts, ts[n]) == n;
        assert r == q + [ts[n]];
      }
    }
  }

  /** The asset map after adding `ss` one at a time: the last series added under each ticker wins. */
  function Registered(m: map<string, PriceSeries>, ss: seq<PriceSeries>): map<string, PriceSeries>
  {
    if |ss| == 0 then m else Registered(m, ss[..|ss| - 1])[ss[|ss| - 1].ticker := ss[|ss| - 1]]
  }

  lemma {:induction false} LastAddedWins(ss: seq<PriceSeries>)
    ensures forall t :: t in Registered(map[], ss) <==> exists i :: 0 <= i < |ss| && ss[i].ticker == t
    ensures forall i :: 0 <= i < |ss| && (forall j :: i < j < |ss| ==> ss[j].ticker != ss[i].ticker) ==>
      Registered(map[], ss)[ss[i].ticker] == ss[i]
  {
    if |ss| > 0 {
      var n := |ss| - 1;
      var prefix := ss[..n];
      var q := Registered(map[], prefix);
      LastAddedWins(prefix);
      assert Registered(map[], ss) == q[ss[n].ticker := ss[n]];
      forall t ensures t in Registered(map[], ss) <==> exists i :: 0 <= i < |ss| && ss[i].ticker == t {
        if t != ss[n].ticker {
          if t in q {
            var i :| 0 <= i < |prefix| && prefix[i].ticker == t;
            assert ss[i].ticker == t;
          }
          if exists i :: 0 <= i < |ss| && ss[i].ticker == t {
            var i :| 0 <= i < |ss| && ss[i].ticker == t;
            assert prefix[i].ticker == t;
          }
        }
      }
      forall i | 0 <= i < |ss| && (forall j :: i < j < |ss| ==> ss[j].ticker != ss[i].ticker)
        ensures Registered(map[], ss)[ss[i].ticker] == ss[i]
      {
        if i < n {
          assert prefix[i] == ss[i];
          assert forall j :: i < j < n ==> prefix[j] == ss[j];
        }
      }
    }
  }

  class Portfolio {
    const name: string
    /** The keys of `assets` in insertion order. */
    var keys: seq<string>
    var assets: map<string, PriceSeries>
    var weights: Option<map<string, real>>

    ghost predicate Valid()
      reads this
    {
      Distinct(keys) && forall k :: k in keys <==> k in assets
    }

    /** A portfolio with no assets. */
    constructor (name: string, weights: Option<map<string, real>>)
      ensures Valid()
      ensures this.name == name && this.weights == weights
      ensures keys == [] && assets == map[]
    {
      this.name := name;
      this.weights := weights;
      keys := [];
      assets := map[];
    }

    /** `add_series`: insert or overwrite under the series' ticker. */
    method AddSeries(series: PriceSeries)
      requires Valid()
      modifies this
      ensures Valid()
      ensures assets == old(assets)[series.ticker := series]
      ensures keys == Enrol(old(keys), series.ticker)
      ensures weights == old(weights)
    {
      keys := Enrol(keys, series.ticker);
      assets := assets[series.ticker := series];
    }

    /** `tickers`: every key once, in insertion order. */
    function Tickers(): (r: seq<string>)
      reads this
      requires Valid()
      ensures r == keys
      ensures Distinct(r) && |r| == |assets|
      ensures forall k :: k in r <==> k in assets
    {
      DistinctCardinality(keys);
      assert (set x | x in keys) == assets.Keys;
      keys
    }

    /** `len(portfolio)`: the number of distinct tickers held. */
    function Len(): (n: nat)
      reads this
      requires Valid()
      ensures n == |Tickers()|
    {
      |assets|
    }
  }
}
