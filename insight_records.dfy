/**
 * The rows of the `stock_signals` collection read by the insights page, the
 * view-model records built from them, and the small per-row helpers
 * (signal strength, metrics list, market prefix of a stock code).
 *
 * A field a row lacks is the empty string (or 0): that is how JavaScript's
 * `x || y` defaulting sees it.
 */
module InsightRecords {
  import opened Wrappers
  import opened Text
  import opened SignalLabels

  /** A `stock_summary` row. */
  datatype Summary = Summary(
    id: string,
    reportId: string,
    stockCode: string,
    stockName: string,
    reportDate: string,
    signalDate: string,
    successRate: real,
    totalSignalCount: int)

  /** A `signal_event` row; `metrics` is None when the row carries no metrics object. */
  datatype Event = Event(
    reportId: string,
    stockCode: string,
    stockName: string,
    signalType: string,
    signalLabel: string,
    signalDate: string,
    reportDate: string,
    successRate: real,
    metrics: Option<seq<(string, string)>>)

  datatype MetricEntry = MetricEntry(key: string, value: string)

  /** An event as shown under a stock: the row, its metrics list (when built) and its readable type. */
  datatype Labelled = Labelled(event: Event, metricsArray: Option<seq<MetricEntry>>, typeCN: string)

  datatype TypeStat = TypeStat(kind: string, count: nat)

  /** One stock card of a date; `stats` is None until the type tally has been computed. */
  datatype StockGroup = StockGroup(
    stockCode: string,
    stockName: string,
    date: string,
    reportId: string,
    successRate: real,
    totalSignalCount: int,
    signals: seq<Labelled>,
    stats: Option<seq<TypeStat>>)

  datatype DateGroup = DateGroup(date: string, stocks: seq<StockGroup>)

  /** JavaScript's `a || b` on strings. */
  function Or(a: string, b: string): string
  {
    if a != "" then a else b
  }

  /** The date a summary is filed under: `report_date || signal_date`. */
  function SummaryDate(s: Summary): string
  {
    Or(s.reportDate, s.signalDate)
  }

  /** The summaries filed under a date (by `SummaryDate`), in order. */
  function RowsOn(rows: seq<Summary>, date: string): (r: seq<Summary>)
    ensures forall s :: s in r <==> s in rows && SummaryDate(s) == date
  {
    if rows == [] then []
    else
      var init := RowsOn(rows[..|rows| - 1], date);
      var last := rows[|rows| - 1];
      assert forall s :: s in rows <==> s in rows[..|rows| - 1] || s == last;
      if SummaryDate(last) == date then init + [last] else init
  }

  /** The card built from the first summary of a stock, before any event is attached. */
  function NewStock(s: Summary, date: string): StockGroup
  {
    StockGroup(s.stockCode, s.stockName, date, Or(s.reportId, s.id), s.successRate,
               s.totalSignalCount, [], None)
  }

  function Codes(stocks: seq<StockGroup>): (codes: seq<string>)
    ensures |codes| == |stocks|
    ensures forall k :: 0 <= k < |stocks| ==> codes[k] == stocks[k].stockCode
  {
    seq(|stocks|, k requires 0 <= k < |stocks| => stocks[k].stockCode)
  }

  /** `formatMetrics`: the metrics object as a list of key/value entries; no object gives []. */
  function FormatMetrics(metrics: Option<seq<(string, string)>>): (r: seq<MetricEntry>)
    ensures metrics.None? ==> r == []
    ensures metrics.Some? ==> |r| == |metrics.value|
  {
    match metrics
    case None => []
    case Some(kv) => seq(|kv|, i requires 0 <= i < |kv| => MetricEntry(kv[i].0, kv[i].1))
  }

  function MetricPairs(r: seq<MetricEntry>): seq<(string, string)>
  {
    seq(|r|, i requires 0 <= i < |r| => (r[i].key, r[i].value))
  }

  /** The metrics list loses nothing: reading its entries back gives the object's pairs, in order. */
  lemma FormatMetricsRoundTrip(kv: seq<(string, string)>)
    ensures MetricPairs(FormatMetrics(Some(kv))) == kv
  {
  }

  /** The readable type of an event: `getSignalTypeCN(signal_type || signal_label)`. */
  function EventLabel(e: Event): (shown: string)
    ensures shown == "" <==> e.signalType == "" && e.signalLabel == ""
  {
    SignalTypeCN(Or(e.signalType, e.signalLabel))
  }

  /** An event as attached by the page loaders, with its metrics list and readable type. */
  function Attach(e: Event): Labelled
  {
    Labelled(e, Some(FormatMetrics(e.metrics)), EventLabel(e))
  }

  /** The key an event is tallied under: `signal_type_cn || signal_label || signal_type`. */
  function StatKey(l: Labelled): string
  {
    Or(l.typeCN, Or(l.event.signalLabel, l.event.signalType))
  }

  /** For an attached event the tally key is its readable type, or "" when the event has no type at all. */
  lemma StatKeyOfAttached(e: Event)
    ensures StatKey(Attach(e)) == EventLabel(e)
  {
  }

  // ---- signal strength -------------------------------------------------

  datatype Strength = High | Medium | Low
  {
    function Level(): string
    {
      match this
      case High => "高"
      case Medium => "中"
      case Low => "低"
    }

    function Color(): string
    {
      match this
      case High => "#00c853"
      case Medium => "#ff6f00"
      case Low => "#d32f2f"
    }

    function Rank(): nat
    {
      match this
      case High => 2
      case Medium => 1
      case Low => 0
    }
  }

  /** `getSignalStrength`: at least 80 is high, at least 60 medium, anything else low. */
  function SignalStrength(successRate: real): (r: Strength)
    ensures r == High <==> successRate >= 80.0
    ensures r == Low <==> successRate < 60.0
  {
    if successRate >= 80.0 then High
    else if successRate >= 60.0 then Medium
    else Low
  }

  /** A higher success rate never shows a weaker strength. */
  lemma SignalStrengthMonotone(a: real, b: real)
    requires a <= b
    ensures SignalStrength(a).Rank() <= SignalStrength(b).Rank()
  {
  }

  // ---- market prefix of a stock code -----------------------------------

  /**
   * The prefix logic of `onStockCodeTap`: an explicit `sh`/`sz` prefix is
   * split off; otherwise a code starting with 6 is Shanghai and one starting
   * with 0 or 3 is Shenzhen; anything else gets no prefix.
   */
  function MarketPrefix(stockCode: string): (r: (string, string))
    ensures r.0 in {"sh", "sz", ""}
    ensures r.0 + r.1 == stockCode || (r.0 != "" && r.1 == stockCode)
    ensures r.1 != stockCode ==> r.0 + r.1 == stockCode
    ensures StartsWith(stockCode, "sh") || StartsWith(stockCode, "sz") ==> r == (stockCode[..2], stockCode[2..])
    ensures !StartsWith(stockCode, "sh") && !StartsWith(stockCode, "sz") ==>
              && r.1 == stockCode
              && (r.0 == "sh" <==> StartsWith(stockCode, "6"))
              && (r.0 == "sz" <==> StartsWith(stockCode, "0") || StartsWith(stockCode, "3"))
  {
    if StartsWith(stockCode, "sh") || StartsWith(stockCode, "sz") then
      assert stockCode == stockCode[..2] + stockCode[2..];
      (stockCode[..2], stockCode[2..])
    else if StartsWith(stockCode, "6") then ("sh", stockCode)
    else if StartsWith(stockCode, "0") || StartsWith(stockCode, "3") then ("sz", stockCode)
    else ("", stockCode)
  }

  /** The market symbol used in the quote links, `${prefix}${code}`. */
  function MarketSymbol(stockCode: string): string
  {
    var (prefix, code) := MarketPrefix(stockCode);
    prefix + code
  }

  /** A symbol is already in market form: building the symbol of a symbol changes nothing. */
  lemma MarketSymbolIdempotent(stockCode: string)
    ensures MarketSymbol(MarketSymbol(stockCode)) == MarketSymbol(stockCode)
  {
    var sym := MarketSymbol(stockCode);
    if StartsWith(stockCode, "sh") || StartsWith(stockCode, "sz") {
      assert sym == stockCode;
    } else if StartsWith(stockCode, "6") {
      assert sym[..2] == "sh";
    } else if StartsWith(stockCode, "0") || StartsWith(stockCode, "3") {
      assert sym[..2] == "sz";
    } else {
      assert sym == stockCode;
    }
  }

  /** A code that names its market keeps its digits and gains the market of its first digit. */
  lemma MarketOfDigits(stockCode: string)
    requires |stockCode| > 0 && '0' <= stockCode[0] <= '9'
    ensures stockCode[0] == '6' ==> MarketSymbol(stockCode) == "sh" + stockCode
    ensures stockCode[0] in {'0', '3'} ==> MarketSymbol(stockCode) == "sz" + stockCode
    ensures stockCode[0] !in {'0', '3', '6'} ==> MarketSymbol(stockCode) == stockCode
  {
  }

  /** The two quote links of a tapped code; no link for an empty code (the handler returns early). */
  function QuoteLinks(stockCode: string): (r: Option<(string, string)>)
    ensures r.Some? <==> stockCode != ""
    ensures r.Some? ==> Includes(r.value.0, MarketSymbol(stockCode)) && Includes(r.value.1, MarketSymbol(stockCode))
  {
    if stockCode == "" then None
    else
      var sym := MarketSymbol(stockCode);
      var eastmoney := "https://quote.eastmoney.com/" + sym + ".html";
      var sina := "https://finance.sina.com.cn/realstock/company/" + sym + "/nc.shtml";
      IncludesAt(eastmoney, sym, 28);
      IncludesAt(sina, sym, 46);
      Some((eastmoney, sina))
  }
}
