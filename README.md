# Market-data normalizer and price series, in Dafny

This project models two parts of a Python market-data toolkit.

**The provider normalizer** (`Normalizer`, `src/normalization/normalizer.py`) turns three vendor payloads into one row shape:
- the payloads are an Alpha Vantage daily series, a Marketstack end-of-day list and a Twelve Data time series;
- every row is a date, the five quote fields open/high/low/close/volume, a ticker and a source tag;
- the rows are sorted by date with Python's stable `sorted`.

**The series model** (`src/models/series.py`) has two classes:
- `PriceSeries` holds one date-indexed table. When it is built it derives its start and end dates, its main column (`close` before `rsi`), and the mean and spread of that column. It answers queries for daily returns, a simple moving average and the extremes with their dates.
- `Portfolio` is an insertion-ordered map from ticker to series.

Modules:
- `Wrappers`: `Option` and `Result`.
- `Dates`: a wall-clock date-time with an optional UTC offset. The order on dates is lexicographic on the wall-clock fields. This is the order Python uses to compare naive datetimes.
- `JsonValues`: decoded JSON payloads, with objects as ordered key/value lists.
- `StableSort`: Python's `sorted(..., key=...)` as a stable insertion sort, with its three properties: sorted, a permutation, and stable.
- `Statistics`: the pandas column operations the series uses. A missing value (NaN) is `None`.
- `Normalizer`: `_dt`, field conversion, per-record row building, the three normalizers as specification functions, and the loops that compute them as methods proved equal to those functions.
- `Series`: the table, the `PriceSeries` and `Portfolio` classes, and the bridge from normalized rows to a table.

Where the code and its surrounding documentation disagree, the model follows the code:
- A present but non-numeric string field raises. It does not become the missing sentinel.
- An Alpha Vantage payload without a "Time Series" block returns an empty list, not an empty table.
- A Marketstack or Twelve Data payload with no records raises: indexing the absent "date" column is a `KeyError`.
- Rows with equal dates are all kept in input order. Nothing is de-duplicated.

Two behaviours of foreign code are parameters of the model. A normalizer receives them as a `Parsers` value:
- `dateutil`'s ISO 8601 parser, as a function from text to an optional date-time;
- Python's `float()` of a string, as a function from text to a numeral, a NaN literal or unparseable.

## Model

| member | source | states |
|---|---|---|
| `Normalizer.Dt` | src/normalization/normalizer.py:9-12 | A datetime argument is returned unchanged, offset included. Any other argument succeeds exactly when it is a string the ISO parser accepts. The result then has the parsed wall-clock fields and no offset, so nothing is shifted to UTC. |
| `Normalizer.ToFloat` | src/normalization/normalizer.py:25-29 | Python `float()` of a decoded value: a number is itself and a boolean is 1 or 0. A string is its numeral, becomes missing for a NaN literal, and raises when unparseable. null, lists and objects raise. |
| `Normalizer.StrictField` | src/normalization/normalizer.py:25-29 | `float(row.get(key, "nan"))`: an absent key gives the missing sentinel, a present value is converted, and a null value raises. |
| `Normalizer.LooseField` | src/normalization/normalizer.py:44-48 | An absent or null field gives the missing sentinel. Any other value is converted. |
| `Normalizer.StrictQuoteFields` | src/normalization/normalizer.py:25-29 | An Alpha Vantage quote succeeds exactly when all five fields convert. Each quote field is then its key's converted value. |
| `Normalizer.LooseQuoteFields` | src/normalization/normalizer.py:63-67 | A Marketstack or Twelve Data quote succeeds exactly when all five fields convert. Each quote field is then its key's converted value. |
| `Normalizer.AlphaVantageRecordFields` | src/normalization/normalizer.py:22-31 | A converted Alpha Vantage member comes from an object. Its date is `_dt` of the member's key, without offset. Its ticker is the argument and its source is "alphavantage". Each field is the strict conversion, and none of the five is null. |
| `Normalizer.MarketstackRecordFields` | src/normalization/normalizer.py:41-50 | A converted Marketstack record is an object. Its date is `_dt` of its "date" value, without offset. Its ticker is its own "symbol" (None when absent) and its source is "marketstack". Each field is the loose conversion. |
| `Normalizer.TwelveDataRecordFields` | src/normalization/normalizer.py:60-69 | A converted Twelve Data record is an object. Its date is `_dt` of its "datetime" value, without offset. Its ticker is the argument and its source is "twelvedata". Each field is the loose conversion. |
| `Normalizer.Iterate` | src/normalization/normalizer.py:41 | `for r in v` succeeds exactly for a list, an object or a string. A list yields its items. An object yields its keys as strings and a string yields its characters as one-character strings, in order. |
| `Normalizer.Rows` | src/normalization/normalizer.py:40-51 | The row loop succeeds exactly when every record converts. It then yields one row per record, in record order. A failure is the error of some record. |
| `Normalizer.RowsErrPersists` | src/normalization/normalizer.py:41-51 | Once a prefix of the records raises, the whole loop raises with that same error. |
| `Normalizer.Tabulate` | src/normalization/normalizer.py:52-54 | No rows raise `KeyError` 'date'. Otherwise the table has the same number of rows, sorted by date, a permutation of the input. Rows with equal dates keep their input order. The result is never the empty list. |
| `Normalizer.TimeSeriesBlock` | src/normalization/normalizer.py:16-20 | No block exactly when no key contains "Time Series". Otherwise it is the value of the first such key in payload order. |
| `Normalizer.TabulatedRecords` | src/normalization/normalizer.py:33-35 | When every record converts, the table exists exactly when there are records. It is sorted and stable, a permutation of the converted records, and each row is the conversion of some record. |
| `Normalizer.AlphaVantageDailyOutcome` | src/normalization/normalizer.py:16-36 | The result is `[]` exactly when no "Time Series" key exists or its value is null. A block that is not an object raises. For an object block, the result is a table exactly when the block has members and every member converts; the first failing member's error is raised; an empty block raises `KeyError` 'date'. A table has one row per member. |
| `Normalizer.AlphaVantageTable` | src/normalization/normalizer.py:21-36 | An Alpha Vantage table has one row per member of the block. It is sorted by date, stable, and a permutation of the converted members. Every row carries the argument ticker, source "alphavantage" and a naive date. |
| `Normalizer.MarketstackEodOutcome` | src/normalization/normalizer.py:38-55 | Marketstack never returns `[]`. A missing "data" key or an empty list raises `KeyError` 'date', and a non-iterable "data" raises. Otherwise the result is a table exactly when there are records and every record converts, and the first failing record's error is raised. |
| `Normalizer.MarketstackTable` | src/normalization/normalizer.py:39-55 | A Marketstack table has one row per record of "data". It is sorted, stable, and a permutation of the converted records. Rows carry source "marketstack" and a naive date, and each ticker comes from its own record's "symbol". |
| `Normalizer.TwelveDataTimeSeriesOutcome` | src/normalization/normalizer.py:57-74 | Twelve Data never returns `[]`. A missing "values" key or an empty list raises `KeyError` 'date', and a non-iterable "values" raises. Otherwise the result is a table exactly when there are records and every record converts, and the first failing record's error is raised. |
| `Normalizer.TwelveDataTable` | src/normalization/normalizer.py:58-74 | A Twelve Data table has one row per record of "values". It is sorted, stable, and a permutation of the converted records. Every row carries the argument ticker, source "twelvedata" and a naive date. |
| `Normalizer.FindTimeSeriesBlock` | src/normalization/normalizer.py:16-19 | The key-search loop with its `break` returns the first "Time Series" block. |
| `Normalizer.CollectRows` | src/normalization/normalizer.py:21-32 | The append loop yields exactly the rows of the records, or the first record's error. |
| `Normalizer.NormalizeAlphaVantageDaily` | src/normalization/normalizer.py:14-36 | The Alpha Vantage normalizer is proved equal to the specification function `AlphaVantageDaily`, which converts each record with `AlphaVantageRecord` and tabulates the rows. This row also covers those two functions, whose properties the `*Outcome`, `*Table` and `*RecordFields` lemmas state. |
| `Normalizer.NormalizeMarketstackEod` | src/normalization/normalizer.py:38-55 | The Marketstack normalizer is proved equal to the specification function `MarketstackEod`, which converts each record with `MarketstackRecord` and tabulates the rows. This row also covers those two functions, whose properties the `*Outcome`, `*Table` and `*RecordFields` lemmas state. |
| `Normalizer.NormalizeTwelveDataTimeSeries` | src/normalization/normalizer.py:57-74 | The Twelve Data normalizer is proved equal to the specification function `TwelveDataTimeSeries`, which converts each record with `TwelveDataRecord` and tabulates the rows. This row also covers those two functions, whose properties the `*Outcome`, `*Table` and `*RecordFields` lemmas state. |
| `JsonValues.Get` | src/normalization/normalizer.py:44 | `dict.get`: absent exactly when no member has the key. Otherwise it is the value of a member with that key. |
| `Dates.WallLeTotal` | src/normalization/normalizer.py:33 | Any two dates are comparable, so `sorted` by date is well defined. |
| `Dates.WallLeTransitive` | src/normalization/normalizer.py:33 | The date order is transitive. |
| `Dates.WallLeAntisymmetric` | src/normalization/normalizer.py:33 | Dates that are each at most the other have equal wall clocks. |
| `StableSort.SortByPermutes` | src/normalization/normalizer.py:33 | `sorted` returns the same elements with the same multiplicities. |
| `StableSort.SortBySorted` | src/normalization/normalizer.py:33 | `sorted` returns its elements in ascending key order. |
| `StableSort.SortByStable` | src/normalization/normalizer.py:33 | `sorted` keeps elements with equal keys in their input order. |
| `Statistics.CountZero` | src/models/series.py:52 | A column has no counted values exactly when every entry is missing. |
| `Statistics.Mean` | src/models/series.py:52 | `Series.mean()` is missing exactly when every entry is. Otherwise mean times count equals the sum of the present entries. |
| `Statistics.MeanWithin` | src/models/series.py:52 | The mean lies between any lower and upper bound of the present entries. |
| `Statistics.SampleVariance` | src/models/series.py:53 | The square of `Series.std()`: present exactly when at least two entries are present. It is then non-negative and, times (count - 1), equals the sum of squared deviations from the mean (one degree of freedom). |
| `Statistics.ConstantColumn` | src/models/series.py:52-53 | A column whose present entries are all equal has that value as mean and zero spread. |
| `Statistics.ForwardFill` | src/models/series.py:91 | The fill that `pct_change` applies first: a present entry is kept, and a missing entry repeats the filled entry before it. |
| `Statistics.Growth` | src/models/series.py:91 | One return is present exactly when both filled prices are present and the earlier is non-zero. The earlier price times one plus the return is then the later price. |
| `Statistics.PercentChange` | src/models/series.py:91 | `pct_change()` has the column's length and a missing first entry. Between two present entries, the entry is their growth. |
| `Statistics.PercentChangeQuotient` | src/models/series.py:91 | Between two present entries whose prior is non-zero, the entry is x[i]/x[i-1] - 1. |
| `Statistics.ReturnsCompound` | src/models/series.py:91 | Compounding a return onto the previous price gives back the price. |
| `Statistics.GapIsFlat` | src/models/series.py:91 | A missing price after a present non-zero one gives a return of 0, because the column is filled before the division. |
| `Statistics.WindowMean` | src/models/series.py:101 | A window's mean is present exactly when the window is non-empty and full. It then times the width equals the window's sum. |
| `Statistics.RollingMean` | src/models/series.py:101 | `rolling(w).mean()` has the column's length and is missing before the first full window. Entry i is the mean of the w entries ending at i. |
| `Statistics.RollingMeanUnitWindow` | src/models/series.py:101 | A window of one returns the column itself. |
| `Statistics.RollingMeanStep` | src/models/series.py:101 | When two consecutive windows are full, both averages are present. They differ by the entering value minus the leaving one, divided by the width. |
| `Statistics.WindowShift` | src/models/series.py:101 | Sliding a full window by one entry changes its mean by the entering minus the leaving entry, divided by the width. |
| `Statistics.FirstMin` | src/models/series.py:112-113 | `min()`/`idxmin()`: no position exactly when every entry is missing. Otherwise the position holds a present value no greater than any other, and strictly smaller than every present value before it. |
| `Statistics.FirstMax` | src/models/series.py:114-115 | `max()`/`idxmax()`: no position exactly when every entry is missing. Otherwise the position holds a present value no smaller than any other, and strictly greater than every present value before it. |
| `Series.FrameTable` | src/normalization/normalizer.py:33-35 | The frame built from normalized rows is indexed by the rows' dates and has exactly the five quote columns. Entry i of each column is row i's value for that field. |
| `Series.MainColumn` | src/models/series.py:44-48 | `close` when that column exists, else `rsi` when it exists, else none. A frame with no rows or columns has none. |
| `Series.EarliestDate` | src/models/series.py:40 | `index.min()` is one of the dates and no later than any of them. |
| `Series.LatestDate` | src/models/series.py:41 | `index.max()` is one of the dates and no earlier than any of them. |
| `Series.NormalizedRange` | src/models/series.py:38-48 | A series over normalized rows has `close` as main column. Its start and end dates are the first and last rows' dates. |
| `Series.PriceSeries.constructor` | src/models/series.py:31-63 | After `__post_init__` the derived fields agree with the table. The start date is absent exactly when the table is empty, and otherwise no later than the end date. Without a main column the mean and spread are missing. |
| `Series.PriceSeries.Len` | src/models/series.py:65-67 | `len` is the number of rows. A start date exists exactly when there are rows and columns. |
| `Series.PriceSeries.GetDailyReturns` | src/models/series.py:85-94 | None exactly when the column is absent. Otherwise the column's percentage change, of the table's length. The column defaults to `close`. |
| `Series.PriceSeries.CalculateSma` | src/models/series.py:96-107 | Declined exactly when there is no main column or fewer rows than the window. A negative window is a `ValueError`. Otherwise the trailing rolling mean of the main column, of the table's length. The window defaults to 20. |
| `Series.PriceSeries.GetMinMax` | src/models/series.py:109-122 | None exactly without a main column. Otherwise the minimum and maximum of the present values, each with the index date of its first occurrence. The all-missing case is its own outcome. |
| `Series.Enrol` | src/models/series.py:145 | Writing a key keeps the key order as a prefix and keeps keys distinct. It adds the key at the end only when it is new. |
| `Series.TickersAreDistinct` | src/models/series.py:148-155 | After any sequence of additions, each added ticker is listed exactly once. Their number is the number of distinct tickers added. |
| `Series.TickersInFirstInsertionOrder` | src/models/series.py:148-151 | Tickers are listed in the order of their first addition. Overwriting a ticker does not move it. |
| `Series.LastAddedWins` | src/models/series.py:137-146 | After any sequence of additions, the tickers held are exactly those added. Each maps to the last series added under it. |
| `Series.Portfolio.constructor` | src/models/series.py:125-135 | A new portfolio has its name and weights and holds no assets. |
| `Series.Portfolio.AddSeries` | src/models/series.py:137-146 | `add_series` inserts or overwrites under the series' ticker and updates the key order by `Enrol`. Weights, name and other entries are unchanged. |
| `Series.Portfolio.Tickers` | src/models/series.py:148-151 | The tickers are the stored key order (which `AddSeries` maintains by `Enrol`, so first-insertion order by `TickersInFirstInsertionOrder`). They are distinct, one per asset, and exactly the keys of the asset map. |
| `Series.Portfolio.Len` | src/models/series.py:153-155 | `len` is the number of tickers. |

## Left out

- HTTP extractors, the thread-pool runner, the command-line entry points, the demo script and the plotting module: network I/O, concurrency, printing and drawing. They are not part of this model.
- `src/utils/dates.py` and `dateutil.parser.isoparse`: a foreign ISO 8601 parser. Each normalizer takes it as a parameter.
- Python `float()` on strings: a parameter too, which classifies text as a numeral, a NaN literal or unparseable. Overflow to `inf` is not modelled.
- Statistics.Growth: a division by zero in `pct_change` gives `inf` or NaN in pandas; the model gives the missing value.
- Series.PriceSeries.constructor: keeps the square of the standard deviation (`varianceValue`) instead of `std_dev_value`, because square roots of reals are not available without axioms.
- Series.FrameTable: the text columns `ticker` and `source` are not in the table. So a frame whose only columns are those labels is not represented, and neither is its `empty` test. Likewise `get_daily_returns("ticker")` or `get_daily_returns("source")` finds a text column in Python and `pct_change` raises a TypeError, whereas the model answers None (column absent).
- Series.EarliestDate, Series.LatestDate: dates are ordered by wall clock. For an index carrying UTC offsets pandas orders by instant; the normalizers only produce dates without offsets, where the two orders agree.
- JSON objects with repeated keys have no Python dict counterpart: `Get` takes the first member, while the Alpha Vantage loop would make one row per member. Only payloads with distinct keys correspond to real inputs.
- Statistics.ForwardFill: `pct_change` pads missing values before dividing only in pandas versions whose default fill method is still "pad" (deprecated in recent releases); the model follows that default, and `GapIsFlat` depends on it.
- Infinite values: `float("inf")`/`float("infinity")` and JSON `NaN`/`Infinity` tokens have no representation in `FloatText` or `JNum`, so the model cannot produce the infinite cells Python would.
- `pd.to_datetime` range limits (dates outside the nanosecond timestamp range) are not modelled.
- Series.PriceSeries.GetMinMax: when every main value is missing, pandas' `idxmin`/`idxmax` either raise or return NaN depending on the version. The model returns the separate `AllMissing` outcome.
- `get_summary` (src/models/series.py:69-81): string formatting only.
- Printed warnings in `get_daily_returns`, `calculate_sma` and `add_series` are dropped.
- Series.Portfolio.AddSeries: the `isinstance` guard is left out, because the argument is typed.
- Series.Portfolio.constructor: always starts with no assets; an initial `assets` dictionary passed to the dataclass is not modelled.
- Floating-point rounding: sums, means and rolling means are exact over reals, whereas pandas accumulates rounding error.
- Statistics.RollingMean: pandas accepts a window of 0 and yields all-missing results; the model does the same. The `ValueError` for a negative window is the `BadWindow` outcome of `CalculateSma`.
