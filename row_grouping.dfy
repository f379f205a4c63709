/**
 * `processSummaries` and `processSignals`: the two date-then-stock grouping
 * helpers of the insights page. Both list the dates newest first and the
 * stocks of every date by code.
 */
module RowGrouping {
  import opened Wrappers
  import opened Ordinal
  import opened InsightRecords
  import opened Aggregation

  function GroupDates(groups: seq<DateGroup>): (dates: seq<string>)
    ensures |dates| == |groups|
    ensures forall m :: 0 <= m < |groups| ==> dates[m] == groups[m].date
  {
    seq(|groups|, m requires 0 <= m < |groups| => groups[m].date)
  }

  /** The filing dates of the summaries that have one. */
  function SummaryDates(summaries: seq<Summary>): (r: seq<string>)
    ensures forall d :: d in r <==> d != "" && exists i :: 0 <= i < |summaries| && SummaryDate(summaries[i]) == d
  {
    if summaries == [] then []
    else
      var init := SummaryDates(summaries[..|summaries| - 1]);
      var d := SummaryDate(summaries[|summaries| - 1]);
      assert forall i :: 0 <= i < |summaries| - 1 ==> summaries[..|summaries| - 1][i] == summaries[i];
      if d == "" then init else init + [d]
  }

  /** A date of `processSummaries`: the cards of the summaries filed under it, with no events. */
  predicate IsSummaryGroup(summaries: seq<Summary>, g: DateGroup)
  {
    && CardsFor(RowsOn(summaries, g.date), g.date, g.stocks)
    && forall k :: 0 <= k < |g.stocks| ==> Bare(g.stocks[k]) == g.stocks[k]
  }

  method SummaryGroup(summaries: seq<Summary>, date: string) returns (g: DateGroup)
    ensures g.date == date && IsSummaryGroup(summaries, g)
  {
    var day := RowsOn(summaries, date);
    var stocks := GroupStocks(day, date);
    forall k | 0 <= k < |stocks|
      ensures Bare(stocks[k]) == stocks[k]
    {
      assert IsFirstCard(day, date, stocks[k]);
    }
    g := DateGroup(date, stocks);
  }

  /**
   * `processSummaries`: summaries without a date are skipped; every date
   * gets the first summary of each of its stock codes (a date whose
   * summaries all lack a code still gets an empty group).
   */
  method ProcessSummaries(summaries: seq<Summary>) returns (groups: seq<DateGroup>)
    ensures StrictlySorted(GroupDates(groups), true)
    ensures forall d :: d in GroupDates(groups) <==>
              d != "" && exists i :: 0 <= i < |summaries| && SummaryDate(summaries[i]) == d
    ensures forall m :: 0 <= m < |groups| ==> IsSummaryGroup(summaries, groups[m])
  {
    var keys := FirstSeen(SummaryDates(summaries));
    var dates := SortStrings(keys, true);
    groups := [];
    for m := 0 to |dates|
      invariant |groups| == m
      invariant forall p :: 0 <= p < m ==> groups[p].date == dates[p]
      invariant forall p :: 0 <= p < m ==> IsSummaryGroup(summaries, groups[p])
    {
      var g := SummaryGroup(summaries, dates[m]);
      groups := groups + [g];
    }
    assert GroupDates(groups) == dates;
    forall d
      ensures d in dates <==> d in keys
    {
      assert d in multiset(dates) <==> d in multiset(keys);
    }
  }

  // ---- processSignals ----------------------------------------------------

  /** The date an event is filed under, `report_date || signal_date` (empty when it has neither). */
  function EventDate(e: Event): string
  {
    Or(e.reportDate, e.signalDate)
  }

  function EventDates(events: seq<Event>): (r: seq<string>)
    ensures forall d :: d in r <==> exists i :: 0 <= i < |events| && EventDate(events[i]) == d
  {
    var r := seq(|events|, i requires 0 <= i < |events| => EventDate(events[i]));
    assert forall i :: 0 <= i < |events| ==> r[i] == EventDate(events[i]);
    r
  }

  /** The events of one date and stock code, in order. */
  function EventsOn(events: seq<Event>, date: string, code: string): (r: seq<Event>)
    ensures forall e :: e in r <==> e in events && EventDate(e) == date && e.stockCode == code
  {
    if events == [] then []
    else
      var init := EventsOn(events[..|events| - 1], date, code);
      var last := events[|events| - 1];
      assert forall e :: e in events <==> e in events[..|events| - 1] || e == last;
      if EventDate(last) == date && last.stockCode == code then init + [last] else init
  }

  /** The stock codes of the events of one date, in order (with repeats). */
  function CodesOn(events: seq<Event>, date: string): (r: seq<string>)
    ensures forall c :: c in r <==> exists i :: 0 <= i < |events| && EventDate(events[i]) == date && events[i].stockCode == c
  {
    if events == [] then []
    else
      var init := CodesOn(events[..|events| - 1], date);
      var last := events[|events| - 1];
      assert forall i :: 0 <= i < |events| - 1 ==> events[..|events| - 1][i] == events[i];
      if EventDate(last) == date then init + [last.stockCode] else init
  }

  /** An event as listed by `processSignals`: its readable type, no metrics list. */
  function LabelOnly(e: Event): Labelled
  {
    Labelled(e, None, EventLabel(e))
  }

  function LabelAll(events: seq<Event>): (r: seq<Labelled>)
    ensures |r| == |events|
    ensures forall i :: 0 <= i < |events| ==> r[i] == LabelOnly(events[i])
  {
    seq(|events|, i requires 0 <= i < |events| => LabelOnly(events[i]))
  }

  /** What `processSignals` makes of one stock of one date: all its events, labelled and tallied. */
  function SignalCardOf(events: seq<Event>, date: string, code: string): (st: StockGroup)
    requires EventsOn(events, date, code) != []
    ensures st.stockCode == code && st.date == date
    ensures st.signals == LabelAll(EventsOn(events, date, code))
    ensures st.stats.Some? && IsTally(st.signals, st.stats.value)
  {
    var own := EventsOn(events, date, code);
    var signals := LabelAll(own);
    StockGroup(code, own[0].stockName, date, "", own[0].successRate, 0, signals, Some(Tally(signals)))
  }

  lemma EventsOnNonEmpty(events: seq<Event>, date: string, code: string)
    requires code in CodesOn(events, date)
    ensures EventsOn(events, date, code) != []
  {
    var i :| 0 <= i < |events| && EventDate(events[i]) == date && events[i].stockCode == code;
    assert events[i] in EventsOn(events, date, code);
  }

  method SignalCard(events: seq<Event>, date: string, code: string) returns (st: StockGroup)
    requires code in CodesOn(events, date)
    ensures EventsOn(events, date, code) != [] && st == SignalCardOf(events, date, code)
  {
    EventsOnNonEmpty(events, date, code);
    var own := EventsOn(events, date, code);
    var signals := LabelAll(own);
    var stats := TallyTypes(signals);
    st := StockGroup(code, own[0].stockName, date, "", own[0].successRate, 0, signals, Some(stats));
  }

  /** A date of `processSignals`: a card per stock code of its events, sorted by code. */
  ghost predicate IsSignalGroup(events: seq<Event>, g: DateGroup)
  {
    && StrictlySorted(Codes(g.stocks), false)
    && (forall c :: c in Codes(g.stocks) <==> c in CodesOn(events, g.date))
    && (forall k :: 0 <= k < |g.stocks| ==>
          EventsOn(events, g.date, g.stocks[k].stockCode) != []
          && g.stocks[k] == SignalCardOf(events, g.date, g.stocks[k].stockCode))
  }

  /** The cards of one date: one per stock code, sorted by code, each with all its events. */
  method SignalGroup(events: seq<Event>, date: string) returns (g: DateGroup)
    ensures g.date == date && IsSignalGroup(events, g)
  {
    var keys := FirstSeen(CodesOn(events, date));
    var codes := SortStrings(keys, false);
    var stocks: seq<StockGroup> := [];
    for k := 0 to |codes|
      invariant |stocks| == k
      invariant forall p :: 0 <= p < k ==>
                  EventsOn(events, date, codes[p]) != [] && stocks[p] == SignalCardOf(events, date, codes[p])
    {
      assert codes[k] in multiset(codes);
      var st := SignalCard(events, date, codes[k]);
      stocks := stocks + [st];
    }
    assert Codes(stocks) == codes;
    forall c
      ensures c in codes <==> c in keys
    {
      assert c in multiset(codes) <==> c in multiset(keys);
    }
    g := DateGroup(date, stocks);
  }

  /**
   * `processSignals`: every event is filed under its date and stock code
   * (neither is required), labelled, and every stock's types are tallied.
   */
  method ProcessSignals(events: seq<Event>) returns (groups: seq<DateGroup>)
    ensures StrictlySorted(GroupDates(groups), true)
    ensures forall d :: d in GroupDates(groups) <==> exists i :: 0 <= i < |events| && EventDate(events[i]) == d
    ensures forall m :: 0 <= m < |groups| ==> IsSignalGroup(events, groups[m])
  {
    var keys := FirstSeen(EventDates(events));
    var dates := SortStrings(keys, true);
    groups := [];
    for m := 0 to |dates|
      invariant |groups| == m
      invariant forall p :: 0 <= p < m ==> groups[p].date == dates[p]
      invariant forall p :: 0 <= p < m ==> IsSignalGroup(events, groups[p])
    {
      var g := SignalGroup(events, dates[m]);
      groups := groups + [g];
    }
    assert GroupDates(groups) == dates;
    forall d
      ensures d in dates <==> d in keys
    {
      assert d in multiset(dates) <==> d in multiset(keys);
    }
  }

  /** Nothing is lost: every event is listed under its date and stock code. */
  lemma EventListed(events: seq<Event>, groups: seq<DateGroup>, i: nat)
    requires i < |events|
    requires forall d :: d in GroupDates(groups) <==> exists j :: 0 <= j < |events| && EventDate(events[j]) == d
    requires forall m :: 0 <= m < |groups| ==> IsSignalGroup(events, groups[m])
    ensures exists m, k :: 0 <= m < |groups| && 0 <= k < |groups[m].stocks|
              && LabelOnly(events[i]) in groups[m].stocks[k].signals
  {
    var e := events[i];
    assert EventDate(e) in GroupDates(groups);
    var m :| 0 <= m < |groups| && groups[m].date == EventDate(e);
    var g := groups[m];
    assert IsSignalGroup(events, g);
    assert e.stockCode in CodesOn(events, g.date);
    assert e.stockCode in Codes(g.stocks);
    var k :| 0 <= k < |g.stocks| && Codes(g.stocks)[k] == e.stockCode;
    var own := EventsOn(events, g.date, e.stockCode);
    assert g.stocks[k].signals == LabelAll(own);
    assert e in own;
    var p :| 0 <= p < |own| && own[p] == e;
    assert g.stocks[k].signals[p] == LabelOnly(e);
  }
}
