/**
 * The provider normalizer: three payload shapes (Alpha Vantage daily series,
 * Marketstack end-of-day data, Twelve Data time series) turned into one row
 * shape, sorted by date with a stable sort.
 *
 * Each normalizer builds its rows in a loop, stopping at the first record
 * that raises, and then tabulates them. The loops are methods proved equal to
 * specification functions; the properties are lemmas about those functions.
 */
module Normalizer {
  import opened Wrappers
  import opened Dates
  import opened JsonValues
  import opened StableSort
  import opened Statistics

  /** The exceptions the normalizers let escape. */
  datatype Error =
    | NotAnObject     // AttributeError: `.get` or `.items` on a value that is not a JSON object
    | NotIterable     // TypeError: the record list is null, a number or a boolean
    | BadDate         // the ISO 8601 parser rejected the date, or the date is not a string
    | NonNumeric      // ValueError: float() of a string that is not a number
    | NotConvertible  // TypeError: float() of null, a list or an object
    | NoDateColumn    // KeyError 'date': no row was produced, so the frame has no date column

  /** What Python's float() makes of a string: a number, a NaN literal, or a ValueError. */
  datatype FloatText = Numeral(x: real) | NanLiteral | Unparseable

  /** The two foreign parsers: dateutil's isoparse and float() of a string. */
  datatype Parsers = Parsers(isoparse: string -> Option<DateTime>, floatText: string -> FloatText)

  datatype Quote = Quote(open: Num, high: Num, low: Num, close: Num, volume: Num)
  {
    function Values(): seq<Num> {
      [open, high, low, close, volume]
    }
  }

  /** One canonical row: the date (the frame's index), the quote, the ticker and the source tag. */
  datatype Row = Row(date: DateTime, quote: Quote, ticker: Json, source: string)

  /** What a normalizer returns: Alpha Vantage's `[]`, a date-indexed frame, or an exception. */
  datatype Normalized = EmptyList | Indexed(rows: seq<Row>) | Raised(error: Error)

  const TimeSeriesMarker := "Time Series"
  const AlphaVantageKeys: seq<string> := ["1. open", "2. high", "3. low", "4. close", "5. volume"]
  const PlainKeys: seq<string> := ["open", "high", "low", "close", "volume"]

  // ---------------------------------------------------------------- _dt

  /** The argument of `_dt`: a datetime object, or any decoded JSON value. */
  datatype DtArg = ADatetime(d: DateTime) | AValue(v: Json)

  /**
   * `_dt`: a datetime is returned as it is, offset included; a string is
   * parsed and any offset is dropped without converting to UTC.
   */
  function Dt(s: DtArg, isoparse: string -> Option<DateTime>): (r: Result<DateTime, Error>)
    ensures s.ADatetime? ==> r == Ok(s.d)
    ensures s.AValue? ==> (r.Ok? <==> s.v.JStr? && isoparse(s.v.s).Some?)
    ensures s.AValue? && r.Ok? ==> r.value == DateTime(isoparse(s.v.s).value.wall, None)
  {
    match s
    case ADatetime(d) => Ok(d)
    case AValue(JStr(text)) =>
      (match isoparse(text)
       case Some(dt) => Ok(if dt.offset.Some? then dt.(offset := None) else dt)
       case None => Err(BadDate))
    case AValue(_) => Err(BadDate)
  }

  // ---------------------------------------------------------------- fields

  /** Python's float() of a decoded JSON value. */
  function ToFloat(v: Json, p: Parsers): (r: Result<Num, Error>)
    ensures v.JNum? ==> r == Ok(Some(v.x))
    ensures v.JStr? && p.floatText(v.s).Numeral? ==> r == Ok(Some(p.floatText(v.s).x))
    ensures r == Ok(None) <==> v.JStr? && p.floatText(v.s).NanLiteral?
    ensures r == Err(NonNumeric) <==> v.JStr? && p.floatText(v.s).Unparseable?
    ensures r == Err(NotConvertible) <==> v.JNull? || v.JArr? || v.JObj?
    ensures v.JBool? ==> r == Ok(Some(if v.b then 1.0 else 0.0))
  {
    match v
    case JNull => Err(NotConvertible)
    case JBool(b) => Ok(Some(if b then 1.0 else 0.0))
    case JNum(x) => Ok(Some(x))
    case JStr(text) =>
      (match p.floatText(text)
       case Numeral(x) => Ok(Some(x))
       case NanLiteral => Ok(None)
       case Unparseable => Err(NonNumeric))
    case JArr(_) => Err(NotConvertible)
    case JObj(_) => Err(NotConvertible)
  }

  /** An Alpha Vantage field: an absent key defaults to the text "nan" (the sentinel); a present value goes through float(), so null raises. */
  function StrictField(o: seq<Field>, key: string, p: Parsers): (r: Result<Num, Error>)
    ensures Get(o, key).None? ==> r == Ok(None)
    ensures Get(o, key).Some? ==> r == ToFloat(Get(o, key).value, p)
    ensures Get(o, key) == Some(JNull) ==> r.Err?
  {
    match Get(o, key)
    case None => Ok(None)
    case Some(v) => ToFloat(v, p)
  }

  /** A Marketstack / Twelve Data field: absent and null both give the sentinel; anything else goes through float(). */
  function LooseField(o: seq<Field>, key: string, p: Parsers): (r: Result<Num, Error>)
    ensures Get(o, key).None? || Get(o, key) == Some(JNull) ==> r == Ok(None)
    ensures Get(o, key).Some? && Get(o, key) != Some(JNull) ==> r == ToFloat(Get(o, key).value, p)
  {
    match Get(o, key)
    case None => Ok(None)
    case Some(JNull) => Ok(None)
    case Some(v) => ToFloat(v, p)
  }

  /** The five Alpha Vantage fields, converted in the order the row literal lists them. */
  function StrictQuote(o: seq<Field>, p: Parsers): Result<Quote, Error>
  {
    var open :- StrictField(o, AlphaVantageKeys[0], p);
    var high :- StrictField(o, AlphaVantageKeys[1], p);
    var low :- StrictField(o, AlphaVantageKeys[2], p);
    var close :- StrictField(o, AlphaVantageKeys[3], p);
    var volume :- StrictField(o, AlphaVantageKeys[4], p);
    Ok(Quote(open, high, low, close, volume))
  }

  /** The five Marketstack / Twelve Data fields, converted in order. */
  function LooseQuote(o: seq<Field>, p: Parsers): Result<Quote, Error>
  {
    var open :- LooseField(o, PlainKeys[0], p);
    var high :- LooseField(o, PlainKeys[1], p);
    var low :- LooseField(o, PlainKeys[2], p);
    var close :- LooseField(o, PlainKeys[3], p);
    var volume :- LooseField(o, PlainKeys[4], p);
    Ok(Quote(open, high, low, close, volume))
  }

  lemma StrictQuoteFields(o: seq<Field>, p: Parsers)
    ensures StrictQuote(o, p).Ok? <==> forall k :: 0 <= k < 5 ==> StrictField(o, AlphaVantageKeys[k], p).Ok?
    ensures StrictQuote(o, p).Ok? ==>
      forall k :: 0 <= k < 5 ==> StrictField(o, AlphaVantageKeys[k], p) == Ok(StrictQuote(o, p).value.Values()[k])
  {
    var fs := seq(5, k requires 0 <= k < 5 => StrictField(o, AlphaVantageKeys[k], p));
    assert forall k :: 0 <= k < 5 ==> StrictField(o, AlphaVantageKeys[k], p) == fs[k];
  }

  lemma LooseQuoteFields(o: seq<Field>, p: Parsers)
    ensures LooseQuote(o, p).Ok? <==> forall k :: 0 <= k < 5 ==> LooseField(o, PlainKeys[k], p).Ok?
    ensures LooseQuote(o, p).Ok? ==>
      forall k :: 0 <= k < 5 ==> LooseField(o, PlainKeys[k], p) == Ok(LooseQuote(o, p).value.Values()[k])
  {
    var fs := seq(5, k requires 0 <= k < 5 => LooseField(o, PlainKeys[k], p));
    assert forall k :: 0 <= k < 5 ==> LooseField(o, PlainKeys[k], p) == fs[k];
  }

  // ---------------------------------------------------------------- records

  /** One `(date, row)` member of the Alpha Vantage series, as one row. */
  function AlphaVantageRecord(item: Field, ticker: string, p: Parsers): Result<Row, Error>
  {
    var date :- Dt(AValue(JStr(item.key)), p.isoparse);
    if !item.val.JObj? then Err(NotAnObject)
    else
      var quote :- StrictQuote(item.val.fields, p);
      Ok(Row(date, quote, JStr(ticker), "alphavantage"))
  }

  /** One Marketstack record: the ticker is the record's own "symbol". */
  function MarketstackRecord(r: Json, p: Parsers): Result<Row, Error>
  {
    if !r.JObj? then Err(NotAnObject)
    else
      var date :- Dt(AValue(GetOr(r.fields, "date", JNull)), p.isoparse);
      var quote :- LooseQuote(r.fields, p);
      Ok(Row(date, quote, GetOr(r.fields, "symbol", JNull), "marketstack"))
  }

  /** One Twelve Data record: the ticker is the caller's argument. */
  function TwelveDataRecord(r: Json, ticker: string, p: Parsers): Result<Row, Error>
  {
    if !r.JObj? then Err(NotAnObject)
    else
      var date :- Dt(AValue(GetOr(r.fields, "datetime", JNull)), p.isoparse);
      var quote :- LooseQuote(r.fields, p);
      Ok(Row(date, quote, JStr(ticker), "twelvedata"))
  }

  function AlphaVantageConverter(ticker: string, p: Parsers): Field -> Result<Row, Error> {
    (item: Field) => AlphaVantageRecord(item, ticker, p)
  }

  function MarketstackConverter(p: Parsers): Json -> Result<Row, Error> {
    (r: Json) => MarketstackRecord(r, p)
  }

  function TwelveDataConverter(ticker: string, p: Parsers): Json -> Result<Row, Error> {
    (r: Json) => TwelveDataRecord(r, ticker, p)
  }

  lemma AlphaVantageRecordFields(item: Field, ticker: string, p: Parsers)
    requires AlphaVantageRecord(item, ticker, p).Ok?
    ensures var row := AlphaVantageRecord(item, ticker, p).value;
      && item.val.JObj?
      && Dt(AValue(JStr(item.key)), p.isoparse) == Ok(row.date)
      && row.date.offset.None?
      && row.ticker == JStr(ticker)
      && row.source == "alphavantage"
      && (forall k :: 0 <= k < 5 ==> StrictField(item.val.fields, AlphaVantageKeys[k], p) == Ok(row.quote.Values()[k]))
      && (forall k :: 0 <= k < 5 ==> Get(item.val.fields, AlphaVantageKeys[k]) != Some(JNull))
  {
    StrictQuoteFields(item.val.fields, p);
  }

  lemma MarketstackRecordFields(r: Json, p: Parsers)
    requires MarketstackRecord(r, p).Ok?
    ensures var row := MarketstackRecord(r, p).value;
      && r.JObj?
      && Dt(AValue(GetOr(r.fields, "date", JNull)), p.isoparse) == Ok(row.date)
      && row.date.offset.None?
      && row.ticker == GetOr(r.fields, "symbol", JNull)
      && row.source == "marketstack"
      && (forall k :: 0 <= k < 5 ==> LooseField(r.fields, PlainKeys[k], p) == Ok(row.quote.Values()[k]))
  {
    LooseQuoteFields(r.fields, p);
  }

  lemma TwelveDataRecordFields(r: Json, ticker: string, p: Parsers)
    requires TwelveDataRecord(r, ticker, p).Ok?
    ensures var row := TwelveDataRecord(r, ticker, p).value;
      && r.JObj?
      && Dt(AValue(GetOr(r.fields, "datetime", JNull)), p.isoparse) == Ok(row.date)
      && row.date.offset.None?
      && row.ticker == JStr(ticker)
      && row.source == "twelvedata"
      && (forall k :: 0 <= k < 5 ==> LooseField(r.fields, PlainKeys[k], p) == Ok(row.quote.Values()[k]))
  {
    LooseQuoteFields(r.fields, p);
  }

  // ---------------------------------------------------------------- rows and tables

  /** `for r in v`: a list yields its items, an object its keys, a string its characters. */
  function Iterate(v: Json): (r: Result<seq<Json>, Error>)
    ensures r.Ok? <==> v.JArr? || v.JObj? || v.JStr?
    ensures v.JArr? ==> r == Ok(v.items)
    ensures v.JObj? ==> r.Ok? && |r.value| == |v.fields| && forall i :: 0 <= i < |v.fields| ==> r.value[i] == JStr(v.fields[i].key)
    ensures v.JStr? ==> r.Ok? && |r.value| == |v.s| && forall i :: 0 <= i < |v.s| ==> r.value[i] == JStr([v.s[i]])
  {
    match v
    case JArr(items) => Ok(items)
    case JObj(fields) => Ok(seq(|fields|, i requires 0 <= i < |fields| => JStr(fields[i].key)))
    case JStr(text) => Ok(seq(|text|, i requires 0 <= i < |text| => JStr([text[i]])))
    case _ => Err(NotIterable)
  }

  /** The loop that appends one row per record to `out`; the first record that raises ends it. */
  function Rows<T>(items: seq<T>, toRow: T -> Result<Row, Error>): (r: Result<seq<Row>, Error>)
    ensures r.Ok? <==> forall i :: 0 <= i < |items| ==> toRow(items[i]).Ok?
    ensures r.Ok? ==> |r.value| == |items| && forall i :: 0 <= i < |items| ==> toRow(items[i]) == Ok(r.value[i])
    ensures r.Err? ==> exists i :: 0 <= i < |items| && toRow(items[i]) == Err(r.error)
                                 && forall j :: 0 <= j < i ==> toRow(items[j]).Ok?
  {
    if |items| == 0 then Ok([])
    else
      var n := |items| - 1;
      assert forall i :: 0 <= i < n ==> items[..n][i] == items[i];
      var out :- Rows(items[..n], toRow);
      var row :- toRow(items[n]);
      Ok(out + [row])
  }

  lemma {:induction false} RowsErrPersists<T>(items: seq<T>, k: nat, toRow: T -> Result<Row, Error>)
    requires k <= |items| && Rows(items[..k], toRow).Err?
    ensures Rows(items, toRow) == Rows(items[..k], toRow)
    decreases |items| - k
  {
    if k < |items| {
      var n := |items[..k + 1]| - 1;
      assert items[..k + 1][..n] == items[..k];
      RowsErrPersists(items, k + 1, toRow);
    } else {
      assert items[..k] == items;
    }
  }

  /** Every record converted, in input order. */
  function Converted<T>(items: seq<T>, toRow: T -> Result<Row, Error>): (out: seq<Row>)
    requires forall i :: 0 <= i < |items| ==> toRow(items[i]).Ok?
    ensures |out| == |items|
  {
    seq(|items|, i requires 0 <= i < |items| => toRow(items[i]).value)
  }

  function DateKey(row: Row): Wall {
    row.date.wall
  }

  /**
   * `pd.DataFrame(sorted(out, key=date))`, then `df["date"]` and
   * `set_index("date")`: with no rows there is no date column to index by.
   */
  function Tabulate(out: seq<Row>): (r: Normalized)
    ensures !r.EmptyList?
    ensures r.Raised? <==> |out| == 0
    ensures r.Raised? ==> r.error == NoDateColumn
    ensures r.Indexed? ==> |r.rows| == |out| && SortedBy(r.rows, DateKey) && multiset(r.rows) == multiset(out)
    ensures r.Indexed? ==> forall w :: WithKey(r.rows, DateKey, w) == WithKey(out, DateKey, w)
  {
    if |out| == 0 then Raised(NoDateColumn)
    else
      SortByPermutes(out, DateKey);
      SortBySorted(out, DateKey);
      assert forall w :: WithKey(SortBy(out, DateKey), DateKey, w) == WithKey(out, DateKey, w) by {
        forall w ensures WithKey(SortBy(out, DateKey), DateKey, w) == WithKey(out, DateKey, w) {
          SortByStable(out, DateKey, w);
        }
      }
      Indexed(SortBy(out, DateKey))
  }

  // ---------------------------------------------------------------- the three normalizers

  /** The first member, in payload order, whose key contains "Time Series". */
  predicate FirstMarked(raw: seq<Field>, i: int) {
    && 0 <= i < |raw|
    && Contains(raw[i].key, TimeSeriesMarker)
    && forall j :: 0 <= j < i ==> !Contains(raw[j].key, TimeSeriesMarker)
  }

  predicate OccursAt(s: string, sub: string, i: int) {
    0 <= i && i + |sub| <= |s| && s[i..i + |sub|] == sub
  }

  /** Python's `sub in s` on strings. */
  predicate Contains(s: string, sub: string) {
    exists i :: 0 <= i <= |s| - |sub| && OccursAt(s, sub, i)
  }

  function TimeSeriesBlock(raw: seq<Field>): (r: Option<Json>)
    ensures r.None? <==> forall i :: 0 <= i < |raw| ==> !Contains(raw[i].key, TimeSeriesMarker)
    ensures forall i :: FirstMarked(raw, i) ==> r == Some(raw[i].val)
  {
    if |raw| == 0 then None
    else if Contains(raw[0].key, TimeSeriesMarker) then Some(raw[0].val)
    else
      var r := TimeSeriesBlock(raw[1..]);
      assert forall i :: 1 <= i < |raw| ==> raw[i] == raw[1..][i - 1];
      assert forall i :: FirstMarked(raw, i) ==> i >= 1 && FirstMarked(raw[1..], i - 1);
      r
  }

  function AlphaVantageDaily(raw: seq<Field>, ticker: string, p: Parsers): Normalized
  {
    match TimeSeriesBlock(raw)
    case None => EmptyList
    case Some(JNull) => EmptyList
    case Some(JObj(items)) =>
      (match Rows(items, AlphaVantageConverter(ticker, p))
       case Err(e) => Raised(e)
       case Ok(out) => Tabulate(out))
    case Some(_) => Raised(NotAnObject)
  }

  function MarketstackEod(raw: seq<Field>, p: Parsers): Normalized
  {
    match Iterate(GetOr(raw, "data", JArr([])))
    case Err(e) => Raised(e)
    case Ok(records) =>
      (match Rows(records, MarketstackConverter(p))
       case Err(e) => Raised(e)
       case Ok(out) => Tabulate(out))
  }

  function TwelveDataTimeSeries(raw: seq<Field>, ticker: string, p: Parsers): Normalized
  {
    match Iterate(GetOr(raw, "values", JArr([])))
    case Err(e) => Raised(e)
    case Ok(records) =>
      (match Rows(records, TwelveDataConverter(ticker, p))
       case Err(e) => Raised(e)
       case Ok(out) => Tabulate(out))
  }

  // ---------------------------------------------------------------- what the normalizers promise

  /**
   * Tabulating the rows of records that all convert: one row per record, in
   * date order, the same rows as the records give (a permutation), rows with
   * equal dates in record order, and each row the conversion of some record.
   */
  lemma {:induction false} TabulatedRecords<T>(items: seq<T>, toRow: T -> Result<Row, Error>)
    requires Rows(items, toRow).Ok?
    ensures forall i :: 0 <= i < |items| ==> toRow(items[i]).Ok?
    ensures var r := Tabulate(Rows(items, toRow).value);
      && (r.Indexed? <==> |items| > 0)
      && (r.Raised? <==> |items| == 0)
      && (r.Indexed? ==>
        && |r.rows| == |items|
        && SortedBy(r.rows, DateKey)
        && multiset(r.rows) == multiset(Converted(items, toRow))
        && (forall w :: WithKey(r.rows, DateKey, w) == WithKey(Converted(items, toRow), DateKey, w))
        && (forall row :: row in r.rows ==> exists i :: 0 <= i < |items| && toRow(items[i]) == Ok(row)))
  {
    var out := Rows(items, toRow).value;
    assert out == Converted(items, toRow);
    var r := Tabulate(out);
    if r.Indexed? {
      forall row | row in r.rows
        ensures exists i :: 0 <= i < |items| && toRow(items[i]) == Ok(row)
      {
        assert row in multiset(out);
        var i :| 0 <= i < |out| && out[i] == row;
      }
    }
  }

  /** Alpha Vantage returns `[]` exactly when no key holds "Time Series" or the first such key holds null. */
  lemma AlphaVantageDailyOutcome(raw: seq<Field>, ticker: string, p: Parsers)
    ensures var r := AlphaVantageDaily(raw, ticker, p);
            var ts := TimeSeriesBlock(raw);
      && (r == EmptyList <==> ts.None? || ts == Some(JNull))
      && (ts == Some(JObj([])) ==> r == Raised(NoDateColumn))
      && (ts.Some? && !ts.value.JNull? && !ts.value.JObj? ==> r == Raised(NotAnObject))
      && (r.Indexed? ==> ts.Some? && ts.value.JObj? && |r.rows| == |ts.value.fields| > 0)
      && (ts.Some? && ts.value.JObj? ==>
            var items := ts.value.fields;
            var convert := AlphaVantageConverter(ticker, p);
            && (r.Indexed? <==> |items| > 0 && forall i :: 0 <= i < |items| ==> convert(items[i]).Ok?)
            && (Rows(items, convert).Err? ==> r == Raised(Rows(items, convert).error)))
  {
    var r := AlphaVantageDaily(raw, ticker, p);
    match TimeSeriesBlock(raw)
    case None =>
    case Some(v) =>
      if v.JObj? {
        var rows := Rows(v.fields, AlphaVantageConverter(ticker, p));
        if rows.Ok? {
          assert r == Tabulate(rows.value);
        } else {
          assert r == Raised(rows.error);
        }
      }
  }

  lemma AlphaVantageTable(raw: seq<Field>, ticker: string, p: Parsers)
    requires AlphaVantageDaily(raw, ticker, p).Indexed?
    ensures TimeSeriesBlock(raw).Some? && TimeSeriesBlock(raw).value.JObj?
    ensures var items := TimeSeriesBlock(raw).value.fields;
            var convert := AlphaVantageConverter(ticker, p);
            var rows := AlphaVantageDaily(raw, ticker, p).rows;
      && 0 < |items| == |rows|
      && (forall i :: 0 <= i < |items| ==> convert(items[i]).Ok?)
      && SortedBy(rows, DateKey)
      && multiset(rows) == multiset(Converted(items, convert))
      && (forall w :: WithKey(rows, DateKey, w) == WithKey(Converted(items, convert), DateKey, w))
      && (forall row :: row in rows ==> row.ticker == JStr(ticker) && row.source == "alphavantage" && row.date.offset.None?)
  {
    var items := TimeSeriesBlock(raw).value.fields;
    var convert := AlphaVantageConverter(ticker, p);
    TabulatedRecords(items, convert);
    forall row | row in AlphaVantageDaily(raw, ticker, p).rows
      ensures row.ticker == JStr(ticker) && row.source == "alphavantage" && row.date.offset.None?
    {
      var i :| 0 <= i < |items| && convert(items[i]) == Ok(row);
      AlphaVantageRecordFields(items[i], ticker, p);
    }
  }

  /** Marketstack never returns `[]`; a payload without "data", or with an empty list, raises KeyError 'date'. */
  lemma MarketstackEodOutcome(raw: seq<Field>, p: Parsers)
    ensures var r := MarketstackEod(raw, p);
      && r != EmptyList
      && (Get(raw, "data").None? || Get(raw, "data") == Some(JArr([])) ==> r == Raised(NoDateColumn))
      && (Get(raw, "data") == Some(JNull) ==> r == Raised(NotIterable))
      && (Iterate(GetOr(raw, "data", JArr([]))).Err? ==> r == Raised(NotIterable))
      && (Iterate(GetOr(raw, "data", JArr([]))).Ok? ==>
            var records := Iterate(GetOr(raw, "data", JArr([]))).value;
            var convert := MarketstackConverter(p);
            && (r.Indexed? <==> |records| > 0 && forall i :: 0 <= i < |records| ==> convert(records[i]).Ok?)
            && (Rows(records, convert).Err? ==> r == Raised(Rows(records, convert).error)))
  {
    var data := Iterate(GetOr(raw, "data", JArr([])));
    if data.Ok? && Rows(data.value, MarketstackConverter(p)).Ok? {
      TabulatedRecords(data.value, MarketstackConverter(p));
    }
  }

  lemma MarketstackTable(raw: seq<Field>, p: Parsers)
    requires MarketstackEod(raw, p).Indexed?
    ensures Iterate(GetOr(raw, "data", JArr([]))).Ok?
    ensures var records := Iterate(GetOr(raw, "data", JArr([]))).value;
            var convert := MarketstackConverter(p);
            var rows := MarketstackEod(raw, p).rows;
      && 0 < |records| == |rows|
      && (forall i :: 0 <= i < |records| ==> convert(records[i]).Ok?)
      && SortedBy(rows, DateKey)
      && multiset(rows) == multiset(Converted(records, convert))
      && (forall w :: WithKey(rows, DateKey, w) == WithKey(Converted(records, convert), DateKey, w))
      && (forall row :: row in rows ==>
            && row.source == "marketstack" && row.date.offset.None?
            && exists i :: 0 <= i < |records| && records[i].JObj?
                 && row.ticker == GetOr(records[i].fields, "symbol", JNull) && convert(records[i]) == Ok(row))
  {
    var records := Iterate(GetOr(raw, "data", JArr([]))).value;
    var convert := MarketstackConverter(p);
    TabulatedRecords(records, convert);
    forall row | row in MarketstackEod(raw, p).rows
      ensures row.source == "marketstack" && row.date.offset.None?
      ensures exists i :: 0 <= i < |records| && records[i].JObj?
                 && row.ticker == GetOr(records[i].fields, "symbol", JNull) && convert(records[i]) == Ok(row)
    {
      var i :| 0 <= i < |records| && convert(records[i]) == Ok(row);
      MarketstackRecordFields(records[i], p);
    }
  }

  /** Twelve Data never returns `[]`; a payload without "values", or with an empty list, raises KeyError 'date'. */
  lemma TwelveDataTimeSeriesOutcome(raw: seq<Field>, ticker: string, p: Parsers)
    ensures var r := TwelveDataTimeSeries(raw, ticker, p);
      && r != EmptyList
      && (Get(raw, "values").None? || Get(raw, "values") == Some(JArr([])) ==> r == Raised(NoDateColumn))
      && (Get(raw, "values") == Some(JNull) ==> r == Raised(NotIterable))
      && (Iterate(GetOr(raw, "values", JArr([]))).Err? ==> r == Raised(NotIterable))
      && (Iterate(GetOr(raw, "values", JArr([]))).Ok? ==>
            var records := Iterate(GetOr(raw, "values", JArr([]))).value;
            var convert := TwelveDataConverter(ticker, p);
            && (r.Indexed? <==> |records| > 0 && forall i :: 0 <= i < |records| ==> convert(records[i]).Ok?)
            && (Rows(records, convert).Err? ==> r == Raised(Rows(records, convert).error)))
  {
    var vals := Iterate(GetOr(raw, "values", JArr([])));
    if vals.Ok? && Rows(vals.value, TwelveDataConverter(ticker, p)).Ok? {
      TabulatedRecords(vals.value, TwelveDataConverter(ticker, p));
    }
  }

  lemma TwelveDataTable(raw: seq<Field>, ticker: string, p: Parsers)
    requires TwelveDataTimeSeries(raw, ticker, p).Indexed?
    ensures Iterate(GetOr(raw, "values", JArr([]))).Ok?
    ensures var records := Iterate(GetOr(raw, "values", JArr([]))).value;
            var convert := TwelveDataConverter(ticker, p);
            var rows := TwelveDataTimeSeries(raw, ticker, p).rows;
      && 0 < |records| == |rows|
      && (forall i :: 0 <= i < |records| ==> convert(records[i]).Ok?)
      && SortedBy(rows, DateKey)
      && multiset(rows) == multiset(Converted(records, convert))
      && (forall w :: WithKey(rows, DateKey, w) == WithKey(Converted(records, convert), DateKey, w))
      && (forall row :: row in rows ==> row.ticker == JStr(ticker) && row.source == "twelvedata" && row.date.offset.None?)
  {
    var records := Iterate(GetOr(raw, "values", JArr([]))).value;
    var convert := TwelveDataConverter(ticker, p);
    TabulatedRecords(records, convert);
    forall row | row in TwelveDataTimeSeries(raw, ticker, p).rows
      ensures row.ticker == JStr(ticker) && row.source == "twelvedata" && row.date.offset.None?
    {
      var i :| 0 <= i < |records| && convert(records[i]) == Ok(row);
      TwelveDataRecordFields(records[i], ticker, p);
    }
  }

  // ---------------------------------------------------------------- the loops

  /** Scans the payload keys in order and stops at the first one containing "Time Series". */
  method FindTimeSeriesBlock(raw: seq<Field>) returns (ts: Option<Json>)
    ensures ts == TimeSeriesBlock(raw)
  {
    ts := None;
    var i := 0;
    while i < |raw|
      invariant 0 <= i <= |raw|
      invariant forall j :: 0 <= j < i ==> !Contains(raw[j].key, TimeSeriesMarker)
    {
      if Contains(raw[i].key, TimeSeriesMarker) {
        assert FirstMarked(raw, i);
        ts := Some(raw[i].val);
        return;
      }
      i := i + 1;
    }
  }

  /** The append loop over the records: one row per record, and the first record that raises ends the loop. */
  method CollectRows<T>(items: seq<T>, toRow: T -> Result<Row, Error>) returns (r: Result<seq<Row>, Error>)
    ensures r == Rows(items, toRow)
  {
    var out: seq<Row> := [];
    var i := 0;
    while i < |items|
      invariant 0 <= i <= |items|
      invariant Rows(items[..i], toRow) == Ok(out)
    {
      var row := toRow(items[i]);
      assert items[..i + 1][..i] == items[..i];
      if row.Err? {
        RowsErrPersists(items, i + 1, toRow);
        return Err(row.error);
      }
      out := out + [row.value];
      i := i + 1;
    }
    assert items[..i] == items;
    r := Ok(out);
  }

  method NormalizeAlphaVantageDaily(raw: seq<Field>, ticker: string, p: Parsers) returns (r: Normalized)
    ensures r == AlphaVantageDaily(raw, ticker, p)
  {
    var ts := FindTimeSeriesBlock(raw);
    if ts.None? || ts.value.JNull? {
      return EmptyList;
    }
    if !ts.value.JObj? {
      return Raised(NotAnObject);
    }
    var out := CollectRows(ts.value.fields, AlphaVantageConverter(ticker, p));
    if out.Err? {
      return Raised(out.error);
    }
    r := Tabulate(out.value);
  }

  method NormalizeMarketstackEod(raw: seq<Field>, p: Parsers) returns (r: Normalized)
    ensures r == MarketstackEod(raw, p)
  {
    var data := Iterate(GetOr(raw, "data", JArr([])));
    if data.Err? {
      return Raised(data.error);
    }
    var out := CollectRows(data.value, MarketstackConverter(p));
    if out.Err? {
      return Raised(out.error);
    }
    r := Tabulate(out.value);
  }

  method NormalizeTwelveDataTimeSeries(raw: seq<Field>, ticker: string, p: Parsers) returns (r: Normalized)
    ensures r == TwelveDataTimeSeries(raw, ticker, p)
  {
    var vals := Iterate(GetOr(raw, "values", JArr([])));
    if vals.Err? {
      return Raised(vals.error);
    }
    var out := CollectRows(vals.value, TwelveDataConverter(ticker, p));
    if out.Err? {
      return Raised(out.error);
    }
    r := Tabulate(out.value);
  }
}
