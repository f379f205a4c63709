/**
 * The state of the insights page and its handlers: the first load of the
 * newest date, the background list of other dates, opening one of those
 * dates, and the expand/collapse switches of the page.
 */
module SignalsPage {
  import opened Wrappers
  import opened Ordinal
  import opened InsightRecords
  import opened Aggregation
  import opened OtherDates

  /**
   * The `stock_signals` collection as the page reads it: the summaries in
   * the order the `report_date`-descending query lists them, the events, the
   * reports whose event query fails, whether the summary queries of a load
   * fail, and whether the paged read of the background date list fails.
   */
  datatype SignalsDb = SignalsDb(
    summaries: seq<Summary>,
    events: seq<Event>,
    failingReports: set<string>,
    summaryReadFails: bool,
    listReadFails: bool)

  /** Rows per event query in `loadSignals` and in `loadOtherDate`. */
  const FirstLoadEventLimit: nat := 100
  const OtherDateEventLimit: nat := 1000

  /** The summaries whose `report_date` is `date` (the query of one date), in order. */
  function OnReportDate(summaries: seq<Summary>, date: string): (r: seq<Summary>)
    ensures forall s :: s in r <==> s in summaries && s.reportDate == date
  {
    if summaries == [] then []
    else
      var init := OnReportDate(summaries[..|summaries| - 1], date);
      var last := summaries[|summaries| - 1];
      assert forall s :: s in summaries <==> s in summaries[..|summaries| - 1] || s == last;
      if last.reportDate == date then init + [last] else init
  }

  /** A switch of a `{ key: true }` dictionary: an absent key is off. */
  function Flag(m: map<string, bool>, key: string): bool
  {
    key in m && m[key]
  }

  /** `toggleCardExpand`: an open card's key is deleted, a closed one is set. */
  function ToggledCard(m: map<string, bool>, id: string): (r: map<string, bool>)
    ensures Flag(r, id) == !Flag(m, id)
    ensures forall k :: k != id ==> Flag(r, k) == Flag(m, k)
  {
    if Flag(m, id) then m - {id} else m[id := true]
  }

  /** `toggleDateGroup`: the key is set to the opposite of what it reads. */
  function ToggledGroup(m: map<string, bool>, date: string): (r: map<string, bool>)
    ensures Flag(r, date) == !Flag(m, date) && date in r
    ensures forall k :: k != date ==> Flag(r, k) == Flag(m, k)
  {
    m[date := !Flag(m, date)]
  }

  /** Toggling a card twice shows what was shown before. */
  lemma ToggledCardTwice(m: map<string, bool>, id: string, k: string)
    ensures Flag(ToggledCard(ToggledCard(m, id), id), k) == Flag(m, k)
  {
  }

  /**
   * `toggleOtherDate` on the two switch dictionaries: an open date closes;
   * a closed date opens and, unless a load of it is in flight, is marked
   * loading and a load starts.
   */
  function OtherDateToggled(expanded: map<string, bool>, loading: map<string, bool>, date: string)
    : (r: (map<string, bool>, map<string, bool>, bool))
    ensures Flag(r.0, date) == !Flag(expanded, date)
    ensures r.2 <==> !Flag(expanded, date) && !Flag(loading, date)
    ensures r.2 ==> Flag(r.1, date)
    ensures forall k :: k != date ==> Flag(r.0, k) == Flag(expanded, k) && Flag(r.1, k) == Flag(loading, k)
    ensures !r.2 ==> r.1 == loading
  {
    if Flag(expanded, date) then (expanded[date := false], loading, false)
    else if !Flag(loading, date) then (expanded[date := true], loading[date := true], true)
    else (expanded[date := true], loading, false)
  }

  /** While a load of a date is in flight, closing and reopening it starts no second load. */
  lemma NoSecondLoadInFlight(expanded: map<string, bool>, loading: map<string, bool>, date: string)
    requires Flag(loading, date)
    ensures var (e1, l1, s1) := OtherDateToggled(expanded, loading, date);
            var (e2, l2, s2) := OtherDateToggled(e1, l1, date);
            !s1 && !s2
  {
  }

  /**
   * Once a load has finished (its flag reset to false), closing and
   * reopening the date loads it again.
   */
  lemma ReopenReloads(expanded: map<string, bool>, loading: map<string, bool>, date: string)
    requires !Flag(expanded, date) && !Flag(loading, date)
    ensures var (e1, l1, s1) := OtherDateToggled(expanded, loading, date);
            var (e2, l2, s2) := OtherDateToggled(e1, l1[date := false], date);
            var (e3, l3, s3) := OtherDateToggled(e2, l2, date);
            s1 && !s2 && s3
  {
  }

  /** The `otherDatesData.map` of `loadOtherDate`: the entries of `date` gain the cards and `loaded`. */
  function MergeDate(list: seq<OtherDate>, date: string, stocks: seq<StockGroup>): (r: seq<OtherDate>)
    ensures |r| == |list|
    ensures forall k :: 0 <= k < |r| && list[k].date != date ==> r[k] == list[k]
    ensures forall k :: 0 <= k < |r| && list[k].date == date ==>
              r[k] == list[k].(stocks := Some(stocks), loaded := true)
  {
    seq(|list|, k requires 0 <= k < |list| =>
      if list[k].date == date then list[k].(stocks := Some(stocks), loaded := true) else list[k])
  }

  /** Merging keeps the list's dates and counts, so the dates stay newest first. */
  lemma MergeKeepsDates(list: seq<OtherDate>, date: string, stocks: seq<StockGroup>)
    ensures Dates(MergeDate(list, date, stocks)) == Dates(list)
    ensures forall k :: 0 <= k < |list| ==> MergeDate(list, date, stocks)[k].stockCount == list[k].stockCount
  {
  }

  /** What the other-dates list read from `rows` is, stated on the rows themselves. */
  ghost predicate IsOtherDatesList(rows: seq<Summary>, latest: string, list: seq<OtherDate>)
  {
    var read := ReadRows(rows);
    && |list| <= OtherDatesMax
    && StrictlySorted(Dates(list), true)
    && (forall k :: 0 <= k < |list| ==>
          && list[k].date != "" && list[k].date != latest
          && RowsOn(read, list[k].date) != []
          && list[k].stockCount == |CodeSet(RowsOn(read, list[k].date))|
          && list[k].stocks.None? && !list[k].loaded)
    && (forall i :: (0 <= i < |read| && SummaryDate(read[i]) != "" && SummaryDate(read[i]) != latest
                      && SummaryDate(read[i]) !in Dates(list)) ==>
          |list| == OtherDatesMax && forall k :: 0 <= k < |list| ==> Less(SummaryDate(read[i]), list[k].date))
  }

  /** The list built from the grouped pages is the list of the rows read. */
  lemma OtherDatesListOfRows(rows: seq<Summary>, grouped: map<string, seq<Summary>>, dates: seq<string>, latest: string)
    requires GroupedBy(ReadRows(rows), grouped, dates)
    ensures IsOtherDatesList(rows, latest, OtherDatesList(grouped, dates, latest))
  {
    var read := ReadRows(rows);
    var list := OtherDatesList(grouped, dates, latest);
    forall i | 0 <= i < |read| && SummaryDate(read[i]) != "" && SummaryDate(read[i]) != latest
                && SummaryDate(read[i]) !in Dates(list)
      ensures |list| == OtherDatesMax && forall k :: 0 <= k < |list| ==> Less(SummaryDate(read[i]), list[k].date)
    {
      var d := SummaryDate(read[i]);
      assert read[i] in RowsOn(read, d);
      OtherDatesComplete(grouped, dates, latest, d);
    }
  }

  /** The event rows and failing reports of the collection. */
  function Source(db: SignalsDb): EventSource
  {
    EventSource(db.events, db.failingReports)
  }

  /**
   * The cards of one date as both loaders leave them: one per stock of the
   * date's summaries, each holding exactly the fetched events (the first
   * `limit` rows of every report whose query succeeded) that find it,
   * newest first, and tallied once any report was queried.
   */
  predicate LoadedCards(db: SignalsDb, date: string, limit: nat, mode: SortMode, stocks: seq<StockGroup>)
  {
    && CardsFor(OnReportDate(db.summaries, date), date, stocks)
    && HoldsFetched(stocks, Source(db), limit, mode)
    && EventsBelong(stocks, db.failingReports)
    && (forall k :: 0 <= k < |stocks| ==> NewestAttached(stocks[k].signals, mode))
    && Tallied(stocks, ReportIds(stocks) != [])
  }

  /** The shared middle of `loadSignals` and `loadOtherDate`: the date's summaries made into cards. */
  method LoadCards(db: SignalsDb, date: string, limit: nat, mode: SortMode, sequential: bool)
    returns (stocks: seq<StockGroup>)
    ensures LoadedCards(db, date, limit, mode, stocks)
  {
    stocks := BuildCards(OnReportDate(db.summaries, date), date, Source(db), limit, mode, sequential);
  }

  /**
   * A loaded card shows every event of its report's fetched rows that
   * carries its stock code, unless that report's query failed.
   */
  lemma LoadedCardShowsItsEvents(db: SignalsDb, date: string, limit: nat, mode: SortMode,
                                 stocks: seq<StockGroup>, k: nat, e: Event)
    requires LoadedCards(db, date, limit, mode, stocks)
    requires k < |stocks| && stocks[k].reportId != "" && stocks[k].reportId !in db.failingReports
    requires e in EventsOf(db.events, stocks[k].reportId, limit) && e.stockCode == stocks[k].stockCode
    ensures Attach(e) in stocks[k].signals
  {
    GroupedCodesDistinct(stocks);
    HeldEventsComplete(stocks, Source(db), limit, mode, k, e);
  }

  class InsightsPage {
    var loading: bool
    var currentPageData: seq<DateGroup>
    var totalSignals: nat
    var otherDatesData: seq<OtherDate>
    var expandedCards: map<string, bool>
    var expandedSignals: map<string, bool>
    var expandedDateGroups: map<string, bool>
    var expandedOtherDates: map<string, bool>
    var loadingOtherDates: map<string, bool>

    /** The page's initial `data`. */
    constructor ()
      ensures !loading && currentPageData == [] && totalSignals == 0 && otherDatesData == []
      ensures expandedCards == map[] && expandedSignals == map[] && expandedDateGroups == map[]
      ensures expandedOtherDates == map[] && loadingOtherDates == map[]
    {
      loading := false;
      currentPageData := [];
      totalSignals := 0;
      otherDatesData := [];
      expandedCards := map[];
      expandedSignals := map[];
      expandedDateGroups := map[];
      expandedOtherDates := map[];
      loadingOtherDates := map[];
    }

    /**
     * `loadSignals`: the newest summary gives the date; that date's
     * summaries become cards with their events (first 100 per report,
     * queried together), only that date is expanded, and the list of other
     * dates is then loaded in the background. A failed summary read only
     * clears `loading`; a failed read of the date list leaves that list empty.
     */
    method LoadSignals(db: SignalsDb)
      modifies this`loading, this`currentPageData, this`totalSignals, this`otherDatesData
      modifies this`expandedSignals, this`expandedDateGroups, this`expandedOtherDates, this`loadingOtherDates
      ensures !loading
      ensures db.summaryReadFails ==>
                && currentPageData == old(currentPageData) && totalSignals == old(totalSignals)
                && otherDatesData == old(otherDatesData)
                && expandedSignals == old(expandedSignals) && expandedDateGroups == old(expandedDateGroups)
                && expandedOtherDates == old(expandedOtherDates) && loadingOtherDates == old(loadingOtherDates)
      ensures !db.summaryReadFails && db.summaries == [] ==>
                && currentPageData == [] && totalSignals == 0 && otherDatesData == []
                && expandedSignals == old(expandedSignals) && expandedDateGroups == old(expandedDateGroups)
                && expandedOtherDates == old(expandedOtherDates) && loadingOtherDates == old(loadingOtherDates)
      ensures !db.summaryReadFails && db.summaries != [] ==> ShowsLatest(db, SummaryDate(db.summaries[0]))
    {
      loading := true;
      if db.summaryReadFails {
        loading := false;
        return;
      }
      if db.summaries == [] {
        currentPageData, totalSignals, otherDatesData, loading := [], 0, [], false;
        return;
      }
      var latest := SummaryDate(db.summaries[0]);
      var stocks := LoadCards(db, latest, FirstLoadEventLimit, BySignalDate, false);
      ShowFirstDate(latest, stocks);
      LoadOtherDatesList(db, latest);
    }

    /**
     * The page once `loadSignals` has shown `latest`: one date group holding
     * that date's cards, only that date expanded, nothing loading, and the
     * list of the other dates.
     */
    ghost predicate ShowsLatest(db: SignalsDb, latest: string)
      reads this
    {
      && |currentPageData| == 1 && currentPageData[0].date == latest
      && LoadedCards(db, latest, FirstLoadEventLimit, BySignalDate, currentPageData[0].stocks)
      && totalSignals == |currentPageData[0].stocks|
      && expandedDateGroups == map[latest := true] && expandedSignals == map[]
      && expandedOtherDates == map[] && loadingOtherDates == map[]
      && (db.listReadFails ==> otherDatesData == [])
      && (!db.listReadFails ==> IsOtherDatesList(db.summaries, latest, otherDatesData))
    }

    /** The first `setData` of `loadSignals` with the cards of `latest`. */
    method ShowFirstDate(latest: string, stocks: seq<StockGroup>)
      modifies this`loading, this`currentPageData, this`totalSignals, this`otherDatesData
      modifies this`expandedSignals, this`expandedDateGroups, this`expandedOtherDates, this`loadingOtherDates
      ensures currentPageData == [DateGroup(latest, stocks)] && totalSignals == |stocks| && otherDatesData == []
      ensures expandedDateGroups == map[latest := true] && expandedSignals == map[]
      ensures expandedOtherDates == map[] && loadingOtherDates == map[] && !loading
    {
      currentPageData := [DateGroup(latest, stocks)];
      otherDatesData := [];
      totalSignals := |stocks|;
      expandedDateGroups := map[latest := true];
      expandedSignals := map[];
      expandedOtherDates := map[];
      loadingOtherDates := map[];
      loading := false;
    }

    /**
     * `loadOtherDatesList`: reads the summary pages and replaces the list
     * of other dates; a failed read leaves the list as it was.
     */
    method LoadOtherDatesList(db: SignalsDb, latest: string)
      modifies this`otherDatesData
      ensures db.listReadFails ==> otherDatesData == old(otherDatesData)
      ensures !db.listReadFails ==> IsOtherDatesList(db.summaries, latest, otherDatesData)
    {
      if db.listReadFails {
        return;
      }
      var grouped, dates, queries := ReadDateGroups(db.summaries);
      otherDatesData := OtherDatesList(grouped, dates, latest);
      OtherDatesListOfRows(db.summaries, grouped, dates, latest);
    }

    /**
     * `loadOtherDate`: the cards of `date` with their events (first 1000 per
     * report, one query after another) are merged into that date's entry.
     * The loading flag of the date is cleared whether or not the read
     * succeeds. `stocks` is what was merged.
     */
    method LoadOtherDate(db: SignalsDb, date: string) returns (stocks: seq<StockGroup>)
      modifies this`otherDatesData, this`loadingOtherDates
      ensures loadingOtherDates == old(loadingOtherDates)[date := false]
      ensures db.summaryReadFails ==> otherDatesData == old(otherDatesData)
      ensures !db.summaryReadFails ==>
                && otherDatesData == MergeDate(old(otherDatesData), date, stocks)
                && LoadedCards(db, date, OtherDateEventLimit, ByReportThenSignalDate, stocks)
    {
      if db.summaryReadFails {
        loadingOtherDates := loadingOtherDates[date := false];
        return [];
      }
      stocks := LoadCards(db, date, OtherDateEventLimit, ByReportThenSignalDate, true);
      otherDatesData := MergeDate(otherDatesData, date, stocks);
      loadingOtherDates := loadingOtherDates[date := false];
    }

    /**
     * `toggleOtherDate`, up to the `await`: flips the date open or closed
     * and reports whether a load of it starts (the caller then runs
     * `LoadOtherDate`).
     */
    method ToggleOtherDate(date: string) returns (startLoad: bool)
      modifies this`expandedOtherDates, this`loadingOtherDates
      ensures (expandedOtherDates, loadingOtherDates, startLoad)
           == OtherDateToggled(old(expandedOtherDates), old(loadingOtherDates), date)
    {
      var expanded := expandedOtherDates;
      var inFlight := loadingOtherDates;
      if Flag(expanded, date) {
        expanded := expanded[date := false];
        expandedOtherDates := expanded;
        startLoad := false;
      } else {
        expanded := expanded[date := true];
        expandedOtherDates := expanded;
        startLoad := false;
        if !Flag(inFlight, date) {
          inFlight := inFlight[date := true];
          loadingOtherDates := inFlight;
          startLoad := true;
        }
      }
    }

    /**
     * `toggleOtherDate` run to completion: the toggle, then the load it
     * starts, if any. `started` says whether a load ran.
     */
    method OpenOtherDate(db: SignalsDb, date: string) returns (started: bool)
      modifies this`expandedOtherDates, this`loadingOtherDates, this`otherDatesData
      ensures started <==> old(!Flag(expandedOtherDates, date) && !Flag(loadingOtherDates, date))
      ensures expandedOtherDates == old(expandedOtherDates)[date := !old(Flag(expandedOtherDates, date))]
      ensures started ==> loadingOtherDates == old(loadingOtherDates)[date := false]
      ensures !started ==> loadingOtherDates == old(loadingOtherDates)
      ensures (!started || db.summaryReadFails) ==> otherDatesData == old(otherDatesData)
      ensures started && !db.summaryReadFails ==>
                exists stocks :: && otherDatesData == MergeDate(old(otherDatesData), date, stocks)
                                 && LoadedCards(db, date, OtherDateEventLimit, ByReportThenSignalDate, stocks)
    {
      started := ToggleOtherDate(date);
      if started {
        var stocks := LoadOtherDate(db, date);
        assert otherDatesData == old(otherDatesData) || otherDatesData == MergeDate(old(otherDatesData), date, stocks);
      }
    }

    /** `toggleCardExpand`. */
    method ToggleCardExpand(id: string)
      modifies this`expandedCards
      ensures expandedCards == ToggledCard(old(expandedCards), id)
    {
      var cards := expandedCards;
      if Flag(cards, id) {
        cards := cards - {id};
      } else {
        cards := cards[id := true];
      }
      expandedCards := cards;
    }

    /** `toggleDateGroup`. */
    method ToggleDateGroup(date: string)
      modifies this`expandedDateGroups
      ensures expandedDateGroups == ToggledGroup(old(expandedDateGroups), date)
    {
      var groups := expandedDateGroups;
      if Flag(groups, date) {
        groups := groups[date := false];
      } else {
        groups := groups[date := true];
      }
      expandedDateGroups := groups;
    }
  }
}
