/**
 * How the insights page turns the rows of one date into stock cards:
 * keep the first summary of every stock code and sort the cards by code,
 * fetch the events of every card's report, sort them by date, attach each
 * event to the card with its report and stock code, and tally the readable
 * types of every card's events.
 */
module Aggregation {
  import opened Wrappers
  import opened Ordinal
  import opened InsightRecords

  // ---- first summary per stock code -----------------------------------

  /** The first summary with the given stock code. */
  function FirstByCode(s: seq<Summary>, code: string): (r: Option<Summary>)
    ensures r.None? <==> forall i :: 0 <= i < |s| ==> s[i].stockCode != code
    ensures r.Some? ==> r.value.stockCode == code
    ensures r.Some? ==> exists i :: 0 <= i < |s| && s[i] == r.value
                          && forall j :: 0 <= j < i ==> s[j].stockCode != code
  {
    if s == [] then None
    else
      match FirstByCode(s[..|s| - 1], code)
      case Some(x) => Some(x)
      case None => if s[|s| - 1].stockCode == code then Some(s[|s| - 1]) else None
  }

  lemma FirstByCodeAppend(s: seq<Summary>, x: Summary, code: string)
    ensures FirstByCode(s + [x], code)
         == if FirstByCode(s, code).Some? then FirstByCode(s, code)
            else if x.stockCode == code then Some(x) else None
  {
    assert (s + [x])[..|s|] == s;
  }

  /** `st` is the card of the first summary with its (non-empty) code. */
  predicate IsFirstCard(summaries: seq<Summary>, date: string, st: StockGroup)
  {
    && st.stockCode != ""
    && FirstByCode(summaries, st.stockCode).Some?
    && st == NewStock(FirstByCode(summaries, st.stockCode).value, date)
  }

  /**
   * The `stockMap` block of `loadSignals` and `loadOtherDate`: one card per
   * stock code, built from the first summary with that code; summaries
   * without a code are skipped; the cards are sorted by code.
   */
  method GroupStocks(summaries: seq<Summary>, date: string) returns (stocks: seq<StockGroup>)
    ensures StrictlySorted(Codes(stocks), false)
    ensures forall k :: 0 <= k < |stocks| ==> IsFirstCard(summaries, date, stocks[k])
    ensures forall i :: 0 <= i < |summaries| && summaries[i].stockCode != "" ==>
              summaries[i].stockCode in Codes(stocks)
  {
    var byCode, codes := IndexByCode(summaries, date);
    var sorted := SortStrings(codes, false);
    forall k | 0 <= k < |sorted|
      ensures sorted[k] in byCode
    {
      assert sorted[k] in multiset(sorted);
    }
    stocks := seq(|sorted|, k requires 0 <= k < |sorted| => byCode[sorted[k]]);
    assert Codes(stocks) == sorted;
    forall i | 0 <= i < |summaries| && summaries[i].stockCode != ""
      ensures summaries[i].stockCode in Codes(stocks)
    {
      var c := summaries[i].stockCode;
      assert c in byCode;
      assert c in multiset(codes);
    }
  }

  /** The `forEach` filling `stockMap`: the dictionary and its keys in insertion order. */
  method IndexByCode(summaries: seq<Summary>, date: string)
    returns (byCode: map<string, StockGroup>, codes: seq<string>)
    ensures Distinct(codes)
    ensures forall c :: c in codes <==> c in byCode
    ensures forall c :: c in byCode ==>
              c != "" && FirstByCode(summaries, c).Some?
              && byCode[c] == NewStock(FirstByCode(summaries, c).value, date)
    ensures forall c :: c != "" && c !in byCode ==> FirstByCode(summaries, c).None?
  {
    byCode := map[];
    codes := [];
    for i := 0 to |summaries|
      invariant Distinct(codes)
      invariant forall c :: c in codes <==> c in byCode
      invariant forall c :: c in byCode ==>
                  c != "" && FirstByCode(summaries[..i], c).Some?
                  && byCode[c] == NewStock(FirstByCode(summaries[..i], c).value, date)
      invariant forall c :: c != "" && c !in byCode ==> FirstByCode(summaries[..i], c).None?
    {
      var code := summaries[i].stockCode;
      assert summaries[..i + 1] == summaries[..i] + [summaries[i]];
      forall c {
        FirstByCodeAppend(summaries[..i], summaries[i], c);
      }
      if code != "" && code !in byCode {
        byCode := byCode[code := NewStock(summaries[i], date)];
        codes := codes + [code];
      }
    }
    assert summaries[..|summaries|] == summaries;
  }

  /** Two cards of one grouping never share a stock code. */
  lemma GroupedCodesDistinct(stocks: seq<StockGroup>)
    requires StrictlySorted(Codes(stocks), false)
    ensures Distinct(Codes(stocks))
  {
    forall i, j | 0 <= i < j < |stocks|
      ensures Codes(stocks)[i] != Codes(stocks)[j]
    {
      if Codes(stocks)[i] == Codes(stocks)[j] {
        LessIrreflexive(Codes(stocks)[i]);
      }
    }
  }

  // ---- fetching the events of the cards' reports ------------------------

  /** The report ids of the cards, `stocks.map(s => s.report_id).filter(Boolean)`. */
  function ReportIds(stocks: seq<StockGroup>): (ids: seq<string>)
    ensures |ids| <= |stocks|
    ensures forall i :: 0 <= i < |ids| ==> ids[i] != ""
    ensures forall k :: 0 <= k < |stocks| && stocks[k].reportId != "" ==> stocks[k].reportId in ids
    ensures forall i :: 0 <= i < |ids| ==> exists k :: 0 <= k < |stocks| && stocks[k].reportId == ids[i]
  {
    if stocks == [] then []
    else
      var ids := ReportIds(stocks[..|stocks| - 1]);
      var last := stocks[|stocks| - 1];
      assert forall k :: 0 <= k < |stocks| - 1 ==> stocks[..|stocks| - 1][k] == stocks[k];
      if last.reportId != "" then ids + [last.reportId] else ids
  }

  /**
   * The ids keep the order of the cards: the ids of two runs of cards are
   * the ids of the first run followed by those of the second.
   */
  lemma {:induction false} ReportIdsAppend(a: seq<StockGroup>, b: seq<StockGroup>)
    ensures ReportIds(a + b) == ReportIds(a) + ReportIds(b)
  {
    if b != [] {
      var b0 := b[..|b| - 1];
      var last := b[|b| - 1];
      assert (a + b)[..|a + b| - 1] == a + b0;
      assert (a + b)[|a + b| - 1] == last;
      ReportIdsAppend(a, b0);
      var tail := if last.reportId != "" then [last.reportId] else [];
      assert ReportIds(a + b) == ReportIds(a + b0) + tail;
      assert ReportIds(b) == ReportIds(b0) + tail;
      assert ReportIds(a) + ReportIds(b0) + tail == ReportIds(a) + (ReportIds(b0) + tail);
    } else {
      assert a + b == a;
    }
  }

  /** The number of cards whose report id is `id`. */
  function CardsWithReport(stocks: seq<StockGroup>, id: string): nat
  {
    if stocks == [] then 0
    else CardsWithReport(stocks[..|stocks| - 1], id) + (if stocks[|stocks| - 1].reportId == id then 1 else 0)
  }

  /** Nothing is de-duplicated: a report id is listed once per card that has it. */
  lemma {:induction false} ReportIdsCount(stocks: seq<StockGroup>, id: string)
    requires id != ""
    ensures Occurrences(ReportIds(stocks), id) == CardsWithReport(stocks, id)
  {
    if stocks != [] {
      var init := stocks[..|stocks| - 1];
      ReportIdsCount(init, id);
      var ids := ReportIds(init);
      if stocks[|stocks| - 1].reportId != "" {
        assert (ids + [stocks[|stocks| - 1].reportId])[..|ids|] == ids;
      }
    }
  }

  /** The rows one event query returns: the first `limit` events of the report. */
  function EventsOf(events: seq<Event>, reportId: string, limit: nat): (r: seq<Event>)
    ensures |r| <= limit
    ensures forall e :: e in r ==> e in events && e.reportId == reportId
    ensures r <= WithReport(events, reportId)
    ensures |r| == limit || r == WithReport(events, reportId)
  {
    Take(WithReport(events, reportId), limit)
  }

  /** All events of the report, in stored order. */
  function WithReport(events: seq<Event>, reportId: string): (r: seq<Event>)
    ensures forall e :: e in r <==> e in events && e.reportId == reportId
  {
    if events == [] then []
    else
      var init := WithReport(events[..|events| - 1], reportId);
      var last := events[|events| - 1];
      if last.reportId == reportId then init + [last] else init
  }

  function Take<T>(s: seq<T>, n: nat): (r: seq<T>)
    ensures |r| <= n && r == s[..if |s| < n then |s| else n]
  {
    if |s| < n then s else s[..n]
  }

  /**
   * The events of all reports, in the order of the report ids; a report
   * whose query fails contributes nothing.
   */
  function FetchAll(events: seq<Event>, ids: seq<string>, failing: set<string>, limit: nat): (r: seq<Event>)
    ensures |r| <= limit * |ids|
    ensures forall e :: e in r ==> e in events && e.reportId in ids && e.reportId !in failing
    ensures forall i, e :: 0 <= i < |ids| && ids[i] !in failing && e in EventsOf(events, ids[i], limit) ==> e in r
  {
    if ids == [] then []
    else
      var init := FetchAll(events, ids[..|ids| - 1], failing, limit);
      var id := ids[|ids| - 1];
      var more := if id in failing then [] else EventsOf(events, id, limit);
      assert |init + more| <= limit * (|ids| - 1) + limit == limit * |ids|;
      forall e | e in init
        ensures e.reportId in ids
      {
        var p :| 0 <= p < |ids| - 1 && ids[..|ids| - 1][p] == e.reportId;
        assert ids[p] == e.reportId;
      }
      forall i, e | 0 <= i < |ids| && ids[i] !in failing && e in EventsOf(events, ids[i], limit)
        ensures e in init + more
      {
        if i < |ids| - 1 {
          assert ids[..|ids| - 1][i] == ids[i];
        }
      }
      init + more
  }

  /**
   * A report listed twice is queried twice: each of its fetched events
   * comes back at least once per listing.
   */
  lemma {:induction false} FetchedPerListing(events: seq<Event>, ids: seq<string>, failing: set<string>, limit: nat, e: Event)
    requires e.reportId !in failing && e in EventsOf(events, e.reportId, limit)
    ensures multiset(FetchAll(events, ids, failing, limit))[e] >= Occurrences(ids, e.reportId)
  {
    if ids != [] {
      FetchedPerListing(events, ids[..|ids| - 1], failing, limit, e);
    }
  }

  /**
   * The sequential loop of `loadOtherDate`: one query per report id, a failed
   * query is skipped, every batch is appended in order.
   */
  method CollectEvents(events: seq<Event>, ids: seq<string>, failing: set<string>, limit: nat)
    returns (all: seq<Event>)
    ensures all == FetchAll(events, ids, failing, limit)
  {
    all := [];
    for i := 0 to |ids|
      invariant all == FetchAll(events, ids[..i], failing, limit)
    {
      assert ids[..i + 1][..i] == ids[..i];
      if ids[i] !in failing {
        all := all + EventsOf(events, ids[i], limit);
      }
    }
    assert ids[..|ids|] == ids;
  }

  // ---- sorting the events ---------------------------------------------

  datatype SortMode = BySignalDate | ByReportThenSignalDate

  /**
   * The comparator key: `signal_date` alone in `loadSignals`;
   * `report_date || signal_date`, then `signal_date`, in `loadOtherDate`.
   */
  function SortKey(e: Event, mode: SortMode): (string, string)
  {
    match mode
    case BySignalDate => (e.signalDate, "")
    case ByReportThenSignalDate => (Or(e.reportDate, e.signalDate), e.signalDate)
  }

  /** Newest first: no event has a smaller key than one after it. */
  predicate Newest(s: seq<Event>, mode: SortMode)
  {
    forall i, j :: 0 <= i < j < |s| ==> !PairLess(SortKey(s[i], mode), SortKey(s[j], mode))
  }

  /** Puts `e` in front of the first event whose key is not larger. */
  function InsertEvent(e: Event, s: seq<Event>, mode: SortMode): (r: seq<Event>)
    requires Newest(s, mode)
    ensures multiset(r) == multiset(s) + multiset{e}
    ensures Newest(r, mode)
  {
    if s == [] then [e]
    else if !PairLess(SortKey(e, mode), SortKey(s[0], mode)) then
      forall j | 0 <= j < |s|
        ensures !PairLess(SortKey(e, mode), SortKey(s[j], mode))
      {
        if j > 0 {
          PairNotLessTransitive(SortKey(e, mode), SortKey(s[0], mode), SortKey(s[j], mode));
        }
      }
      [e] + s
    else
      var rest := InsertEvent(e, s[1..], mode);
      assert s == [s[0]] + s[1..];
      forall j | 0 <= j < |rest|
        ensures !PairLess(SortKey(s[0], mode), SortKey(rest[j], mode))
      {
        assert rest[j] in multiset(rest);
        if rest[j] == e {
          PairLessAsymmetric(SortKey(e, mode), SortKey(s[0], mode));
        } else {
          assert rest[j] in multiset(s[1..]);
          var k :| 0 <= k < |s[1..]| && s[1..][k] == rest[j];
          assert s[k + 1] == rest[j];
        }
      }
      [s[0]] + rest
  }

  /** The client-side `sort` of the fetched events: a permutation, newest first. */
  function SortEvents(s: seq<Event>, mode: SortMode): (r: seq<Event>)
    ensures multiset(r) == multiset(s)
    ensures Newest(r, mode)
  {
    if s == [] then []
    else
      assert s == s[..|s| - 1] + [s[|s| - 1]];
      InsertEvent(s[|s| - 1], SortEvents(s[..|s| - 1], mode), mode)
  }

  // ---- attaching events to cards ---------------------------------------

  predicate MatchesCard(st: StockGroup, e: Event)
  {
    st.reportId == e.reportId && st.stockCode == e.stockCode
  }

  /**
   * `stocks.find(...)` for one event: the first card with the event's
   * report id and stock code; an event missing either field finds none.
   */
  function FindCard(stocks: seq<StockGroup>, e: Event): (r: Option<nat>)
    ensures r.Some? ==> r.value < |stocks| && MatchesCard(stocks[r.value], e)
                        && e.reportId != "" && e.stockCode != ""
    ensures r.Some? ==> forall k :: 0 <= k < r.value ==> !MatchesCard(stocks[k], e)
    ensures r.None? ==> e.reportId == "" || e.stockCode == ""
                        || forall k :: 0 <= k < |stocks| ==> !MatchesCard(stocks[k], e)
  {
    if e.reportId == "" || e.stockCode == "" then None else FirstCard(stocks, e, 0)
  }

  function FirstCard(stocks: seq<StockGroup>, e: Event, from: nat): (r: Option<nat>)
    requires from <= |stocks|
    ensures r.Some? ==> from <= r.value < |stocks| && MatchesCard(stocks[r.value], e)
    ensures r.Some? ==> forall k :: from <= k < r.value ==> !MatchesCard(stocks[k], e)
    ensures r.None? ==> forall k :: from <= k < |stocks| ==> !MatchesCard(stocks[k], e)
    decreases |stocks| - from
  {
    if from == |stocks| then None
    else if MatchesCard(stocks[from], e) then Some(from)
    else FirstCard(stocks, e, from + 1)
  }

  /** The events (in order) that the attaching loop pushes onto card `k`. */
  function AttachedTo(stocks: seq<StockGroup>, events: seq<Event>, k: nat): (r: seq<Labelled>)
    ensures |r| <= |events|
    ensures forall l :: l in r ==> l.event in events && l == Attach(l.event)
    ensures forall l :: l in r ==> FindCard(stocks, l.event) == Some(k)
  {
    if events == [] then []
    else
      var last := events[|events| - 1];
      AttachedTo(stocks, events[..|events| - 1], k)
        + (if FindCard(stocks, last) == Some(k) then [Attach(last)] else [])
  }

  /** The cards after the attaching loop: each gains, in event order, the events that found it. */
  predicate AttachedState(stocks: seq<StockGroup>, events: seq<Event>, res: seq<StockGroup>)
  {
    && |res| == |stocks|
    && forall k :: 0 <= k < |res| ==>
         res[k] == stocks[k].(signals := stocks[k].signals + AttachedTo(stocks, events, k))
  }

  /** The `allSignals.forEach` loop that pushes every event onto the card it finds. */
  method AttachEvents(stocks: seq<StockGroup>, events: seq<Event>) returns (res: seq<StockGroup>)
    ensures AttachedState(stocks, events, res)
  {
    res := stocks;
    for i := 0 to |events|
      invariant AttachedState(stocks, events[..i], res)
    {
      var e := events[i];
      assert events[..i + 1][..i] == events[..i];
      match FindCard(stocks, e)
      case None =>
      case Some(k) =>
        res := res[k := res[k].(signals := res[k].signals + [Attach(e)])];
    }
    assert events[..|events|] == events;
  }

  /** Every event under a card carries that card's report id and stock code, both non-empty. */
  lemma AttachedMatchCard(stocks: seq<StockGroup>, events: seq<Event>, k: nat, l: Labelled)
    requires l in AttachedTo(stocks, events, k)
    ensures k < |stocks| && l.event.reportId == stocks[k].reportId && l.event.stockCode == stocks[k].stockCode
    ensures l.event.reportId != "" && l.event.stockCode != ""
  {
  }

  /** With distinct codes, every complete event whose report and code match card `k` is attached to it. */
  lemma {:induction false} MatchingEventAttached(stocks: seq<StockGroup>, events: seq<Event>, k: nat, i: nat)
    requires Distinct(Codes(stocks))
    requires k < |stocks| && i < |events|
    requires MatchesCard(stocks[k], events[i]) && events[i].reportId != "" && events[i].stockCode != ""
    ensures Attach(events[i]) in AttachedTo(stocks, events, k)
  {
    var e := events[i];
    var init := events[..|events| - 1];
    var last := events[|events| - 1];
    assert AttachedTo(stocks, events, k)
        == AttachedTo(stocks, init, k) + (if FindCard(stocks, last) == Some(k) then [Attach(last)] else []);
    if i == |events| - 1 {
      FindCardOfMatch(stocks, e, k);
    } else {
      assert init[i] == e;
      MatchingEventAttached(stocks, init, k, i);
    }
  }

  /** With distinct codes, a complete event that matches card `k` finds exactly that card. */
  lemma FindCardOfMatch(stocks: seq<StockGroup>, e: Event, k: nat)
    requires Distinct(Codes(stocks))
    requires k < |stocks| && MatchesCard(stocks[k], e) && e.reportId != "" && e.stockCode != ""
    ensures FindCard(stocks, e) == Some(k)
  {
    var r := FindCard(stocks, e);
    assert r.Some?;
    assert Codes(stocks)[r.value] == Codes(stocks)[k];
  }

  /** Attaching looks only at the report ids and stock codes of the cards. */
  predicate SameKeys(a: seq<StockGroup>, b: seq<StockGroup>)
  {
    |a| == |b| && forall k :: 0 <= k < |a| ==> a[k].reportId == b[k].reportId && a[k].stockCode == b[k].stockCode
  }

  lemma {:induction false} FirstCardSameKeys(a: seq<StockGroup>, b: seq<StockGroup>, e: Event, from: nat)
    requires SameKeys(a, b) && from <= |a|
    ensures FirstCard(a, e, from) == FirstCard(b, e, from)
    decreases |a| - from
  {
    if from < |a| {
      FirstCardSameKeys(a, b, e, from + 1);
    }
  }

  /** Cards with the same report ids and stock codes gain the same events. */
  lemma {:induction false} AttachedToSameKeys(a: seq<StockGroup>, b: seq<StockGroup>, events: seq<Event>, k: nat)
    requires SameKeys(a, b)
    ensures AttachedTo(a, events, k) == AttachedTo(b, events, k)
  {
    if events != [] {
      AttachedToSameKeys(a, b, events[..|events| - 1], k);
      FirstCardSameKeys(a, b, events[|events| - 1], 0);
    }
  }

  /** The number of events that found a card, summed over cards `0..n`. */
  function AttachedCount(stocks: seq<StockGroup>, events: seq<Event>, n: nat): nat
  {
    if n == 0 then 0 else AttachedCount(stocks, events, n - 1) + |AttachedTo(stocks, events, n - 1)|
  }

  /** The events that found some card. */
  function Found(stocks: seq<StockGroup>, events: seq<Event>): nat
  {
    if events == [] then 0
    else Found(stocks, events[..|events| - 1]) + (if FindCard(stocks, events[|events| - 1]).Some? then 1 else 0)
  }

  lemma {:induction false} AttachedCountStep(stocks: seq<StockGroup>, events: seq<Event>, n: nat)
    requires events != []
    ensures AttachedCount(stocks, events, n)
         == AttachedCount(stocks, events[..|events| - 1], n)
            + (match FindCard(stocks, events[|events| - 1])
               case Some(k) => if k < n then 1 else 0
               case None => 0)
  {
    if n > 0 {
      AttachedCountStep(stocks, events, n - 1);
    }
  }

  lemma {:induction false} AttachedCountIsFound(stocks: seq<StockGroup>, events: seq<Event>)
    ensures AttachedCount(stocks, events, |stocks|) == Found(stocks, events)
  {
    if events == [] {
      AttachedCountNone(stocks, events, |stocks|);
    } else {
      AttachedCountStep(stocks, events, |stocks|);
      AttachedCountIsFound(stocks, events[..|events| - 1]);
    }
  }

  lemma {:induction false} AttachedCountNone(stocks: seq<StockGroup>, events: seq<Event>, n: nat)
    requires events == []
    ensures AttachedCount(stocks, events, n) == 0
  {
    if n > 0 {
      AttachedCountNone(stocks, events, n - 1);
    }
  }

  lemma {:induction false} FoundAtMost(stocks: seq<StockGroup>, events: seq<Event>)
    ensures Found(stocks, events) <= |events|
  {
    if events != [] {
      FoundAtMost(stocks, events[..|events| - 1]);
    }
  }

  /** Attaching never invents events: the cards gain exactly the events that found one, at most all fetched. */
  lemma AttachedTotal(stocks: seq<StockGroup>, events: seq<Event>)
    ensures AttachedCount(stocks, events, |stocks|) == Found(stocks, events) <= |events|
  {
    AttachedCountIsFound(stocks, events);
    FoundAtMost(stocks, events);
  }

  /** Newest first, on attached events. */
  predicate NewestAttached(r: seq<Labelled>, mode: SortMode)
  {
    forall i, j :: 0 <= i < j < |r| ==> !PairLess(SortKey(r[i].event, mode), SortKey(r[j].event, mode))
  }

  /** Attaching keeps the order of the sorted events: every card's new events are newest first. */
  lemma {:induction false} AttachedKeepsOrder(stocks: seq<StockGroup>, events: seq<Event>, k: nat, mode: SortMode)
    requires Newest(events, mode)
    ensures NewestAttached(AttachedTo(stocks, events, k), mode)
  {
    if events != [] {
      var init := events[..|events| - 1];
      var last := events[|events| - 1];
      assert Newest(init, mode) by {
        forall i, j | 0 <= i < j < |init|
          ensures !PairLess(SortKey(init[i], mode), SortKey(init[j], mode))
        {
          assert init[i] == events[i] && init[j] == events[j];
        }
      }
      AttachedKeepsOrder(stocks, init, k, mode);
      var r0 := AttachedTo(stocks, init, k);
      if FindCard(stocks, last) == Some(k) {
        var r := r0 + [Attach(last)];
        assert AttachedTo(stocks, events, k) == r;
        forall i | 0 <= i < |r0|
          ensures !PairLess(SortKey(r0[i].event, mode), SortKey(last, mode))
        {
          assert r0[i] in r0;
          var p :| 0 <= p < |init| && init[p] == r0[i].event;
          assert events[p] == init[p];
        }
        forall i, j | 0 <= i < j < |r|
          ensures !PairLess(SortKey(r[i].event, mode), SortKey(r[j].event, mode))
        {
          if j < |r0| {
            assert r[i] == r0[i] && r[j] == r0[j];
          } else {
            assert r[i] == r0[i] && r[j].event == last;
          }
        }
      } else {
        assert AttachedTo(stocks, events, k) == r0;
      }
    }
  }

  // ---- tallying readable types ---------------------------------------------

  function StatKeys(signals: seq<Labelled>): (keys: seq<string>)
    ensures |keys| == |signals|
    ensures forall j :: 0 <= j < |signals| ==> keys[j] == StatKey(signals[j])
  {
    seq(|signals|, j requires 0 <= j < |signals| => StatKey(signals[j]))
  }

  /** The distinct keys in order of first appearance (the insertion order of `signalTypeCount`). */
  function FirstSeen(keys: seq<string>): (r: seq<string>)
    ensures Distinct(r)
    ensures forall x :: x in r <==> x in keys
  {
    if keys == [] then []
    else
      var init := FirstSeen(keys[..|keys| - 1]);
      var last := keys[|keys| - 1];
      assert forall x :: x in keys <==> x in keys[..|keys| - 1] || x == last;
      if last in init then init else init + [last]
  }

  function Occurrences(keys: seq<string>, x: string): nat
  {
    if keys == [] then 0
    else Occurrences(keys[..|keys| - 1], x) + (if keys[|keys| - 1] == x then 1 else 0)
  }

  lemma {:induction false} OccurrencesPositive(keys: seq<string>, x: string)
    ensures Occurrences(keys, x) >= 1 <==> x in keys
  {
    if keys != [] {
      OccurrencesPositive(keys[..|keys| - 1], x);
      assert forall y :: y in keys <==> y in keys[..|keys| - 1] || y == keys[|keys| - 1];
    }
  }

  function Labels(stats: seq<TypeStat>): (r: seq<string>)
    ensures |r| == |stats|
    ensures forall t :: 0 <= t < |stats| ==> r[t] == stats[t].kind
  {
    seq(|stats|, t requires 0 <= t < |stats| => stats[t].kind)
  }

  function SumCounts(stats: seq<TypeStat>): nat
  {
    if stats == [] then 0 else SumCounts(stats[..|stats| - 1]) + stats[|stats| - 1].count
  }

  /** The occurrences of the keys of `ds` in `keys`, added up. */
  function SumOccurrences(ds: seq<string>, keys: seq<string>): nat
  {
    if ds == [] then 0 else SumOccurrences(ds[..|ds| - 1], keys) + Occurrences(keys, ds[|ds| - 1])
  }

  lemma {:induction false} SumOccurrencesAppend(ds: seq<string>, keys: seq<string>, x: string)
    requires Distinct(ds)
    ensures SumOccurrences(ds, keys + [x]) == SumOccurrences(ds, keys) + (if x in ds then 1 else 0)
  {
    if ds != [] {
      var init := ds[..|ds| - 1];
      assert (keys + [x])[..|keys + [x]| - 1] == keys;
      SumOccurrencesAppend(init, keys, x);
      assert forall y :: y in ds <==> y in init || y == ds[|ds| - 1];
    }
  }

  /** Every key is counted exactly once when the tally runs over the distinct keys. */
  lemma {:induction false} SumOverFirstSeen(keys: seq<string>)
    ensures SumOccurrences(FirstSeen(keys), keys) == |keys|
  {
    if keys != [] {
      var init := keys[..|keys| - 1];
      var x := keys[|keys| - 1];
      assert keys == init + [x];
      SumOverFirstSeen(init);
      var d := FirstSeen(init);
      SumOccurrencesAppend(d, init, x);
      if x !in d {
        assert (d + [x])[..|d + [x]| - 1] == d;
        OccurrencesPositive(init, x);
      }
    }
  }

  lemma {:induction false} SumCountsOfTally(stats: seq<TypeStat>, keys: seq<string>)
    requires forall t :: 0 <= t < |stats| ==> stats[t].count == Occurrences(keys, stats[t].kind)
    ensures SumCounts(stats) == SumOccurrences(Labels(stats), keys)
  {
    if stats != [] {
      var init := stats[..|stats| - 1];
      assert Labels(stats)[..|stats| - 1] == Labels(init);
      SumCountsOfTally(init, keys);
    }
  }

  /** What a finished tally of a card's events is. */
  predicate IsTally(signals: seq<Labelled>, stats: seq<TypeStat>)
  {
    && Labels(stats) == FirstSeen(StatKeys(signals))
    && forall t :: 0 <= t < |stats| ==> stats[t].count == Occurrences(StatKeys(signals), stats[t].kind)
  }

  /** The tally of a card's events: each distinct key, in order of first appearance, with its count. */
  function Tally(signals: seq<Labelled>): (stats: seq<TypeStat>)
    ensures IsTally(signals, stats)
  {
    var keys := StatKeys(signals);
    var order := FirstSeen(keys);
    var stats := seq(|order|, t requires 0 <= t < |order| => TypeStat(order[t], Occurrences(keys, order[t])));
    assert Labels(stats) == order;
    stats
  }

  /** A tally is determined by the events: there is only one. */
  lemma TallyUnique(signals: seq<Labelled>, a: seq<TypeStat>, b: seq<TypeStat>)
    requires IsTally(signals, a) && IsTally(signals, b)
    ensures a == b
  {
    assert Labels(a) == Labels(b);
    forall t | 0 <= t < |a|
      ensures a[t] == b[t]
    {
      assert Labels(a)[t] == Labels(b)[t];
    }
  }

  /**
   * The `signalTypeStats` block: counts every event's key in a dictionary,
   * then lists the keys in insertion order with their counts.
   */
  method TallyTypes(signals: seq<Labelled>) returns (stats: seq<TypeStat>)
    ensures stats == Tally(signals)
    ensures IsTally(signals, stats)
    ensures Distinct(Labels(stats))
    ensures forall t :: 0 <= t < |stats| ==> stats[t].count >= 1
    ensures forall j :: 0 <= j < |signals| ==> StatKey(signals[j]) in Labels(stats)
    ensures SumCounts(stats) == |signals|
  {
    var keys := StatKeys(signals);
    var counts, order := CountKeys(keys);
    stats := seq(|order|, t requires 0 <= t < |order| => TypeStat(order[t], counts[order[t]]));
    assert Labels(stats) == order;
    forall t | 0 <= t < |stats|
      ensures stats[t].count >= 1
    {
      OccurrencesPositive(keys, order[t]);
    }
    forall j | 0 <= j < |signals|
      ensures StatKey(signals[j]) in Labels(stats)
    {
      assert keys[j] in keys;
    }
    SumCountsOfTally(stats, keys);
    SumOverFirstSeen(keys);
    TallyUnique(signals, stats, Tally(signals));
  }

  /** The `forEach` filling `signalTypeCount`: the dictionary and its keys in insertion order. */
  method CountKeys(keys: seq<string>) returns (counts: map<string, nat>, order: seq<string>)
    ensures order == FirstSeen(keys)
    ensures forall c :: c in counts <==> c in order
    ensures forall c :: c in counts ==> counts[c] == Occurrences(keys, c)
  {
    counts := map[];
    order := [];
    for i := 0 to |keys|
      invariant order == FirstSeen(keys[..i])
      invariant forall c :: c in counts <==> c in order
      invariant forall c :: c in counts ==> counts[c] == Occurrences(keys[..i], c)
    {
      var key := keys[i];
      assert keys[..i + 1][..i] == keys[..i];
      if key in counts {
        counts := counts[key := counts[key] + 1];
      } else {
        OccurrencesPositive(keys[..i], key);
        counts := counts[key := 1];
        order := order + [key];
      }
    }
    assert keys[..|keys|] == keys;
  }

  // ---- the whole per-date build -----------------------------------------

  /** Where the events of a date come from: the event rows and the reports whose query fails. */
  datatype EventSource = EventSource(events: seq<Event>, failing: set<string>)

  /** A card without its events and tally. */
  function Bare(st: StockGroup): StockGroup
  {
    st.(signals := [], stats := None)
  }

  /** The same cards, whatever events and tallies they hold. */
  predicate SameCards(a: seq<StockGroup>, b: seq<StockGroup>)
  {
    |a| == |b| && forall k :: 0 <= k < |a| ==> Bare(a[k]) == Bare(b[k])
  }

  /** The cards of a date: one per stock code, first summary wins, sorted by code. */
  predicate CardsFor(summaries: seq<Summary>, date: string, stocks: seq<StockGroup>)
  {
    && StrictlySorted(Codes(stocks), false)
    && (forall k :: 0 <= k < |stocks| ==> IsFirstCard(summaries, date, Bare(stocks[k])))
    && (forall i :: 0 <= i < |summaries| && summaries[i].stockCode != "" ==>
          summaries[i].stockCode in Codes(stocks))
  }

  lemma {:induction false} CardsForSame(summaries: seq<Summary>, date: string, a: seq<StockGroup>, b: seq<StockGroup>)
    requires CardsFor(summaries, date, a) && SameCards(a, b)
    ensures CardsFor(summaries, date, b)
    ensures ReportIds(a) == ReportIds(b)
  {
    assert Codes(a) == Codes(b) by {
      forall k | 0 <= k < |a|
        ensures a[k].stockCode == b[k].stockCode
      {
        assert Bare(a[k]).stockCode == Bare(b[k]).stockCode;
      }
    }
    forall k | 0 <= k < |a|
      ensures a[k].reportId == b[k].reportId
    {
      assert Bare(a[k]).reportId == Bare(b[k]).reportId;
    }
    ReportIdsOfSameCards(a, b);
  }

  /** Every event under a card belongs to it and came from a report whose query succeeded. */
  predicate EventsBelong(stocks: seq<StockGroup>, failing: set<string>)
  {
    forall k, l :: 0 <= k < |stocks| && l in stocks[k].signals ==>
      && l.event.reportId == stocks[k].reportId && l.event.stockCode == stocks[k].stockCode
      && l.event.reportId != "" && l.event.stockCode != ""
      && l.event.reportId !in failing
  }

  /** The events of the cards' reports as the attaching loop sees them: fetched, then sorted. */
  function Fetched(stocks: seq<StockGroup>, source: EventSource, limit: nat, mode: SortMode): seq<Event>
  {
    SortEvents(FetchAll(source.events, ReportIds(stocks), source.failing, limit), mode)
  }

  /** Every card holds exactly the fetched events that find it, in sorted order. */
  predicate HoldsFetched(stocks: seq<StockGroup>, source: EventSource, limit: nat, mode: SortMode)
  {
    forall k :: 0 <= k < |stocks| ==> stocks[k].signals == AttachedTo(stocks, Fetched(stocks, source, limit, mode), k)
  }

  /** Without report ids nothing is fetched, so cards without events hold what was fetched. */
  lemma NoReportsHoldNothing(cards: seq<StockGroup>, source: EventSource, limit: nat, mode: SortMode)
    requires ReportIds(cards) == [] && forall k :: 0 <= k < |cards| ==> cards[k].signals == []
    ensures HoldsFetched(cards, source, limit, mode)
  {
    assert Fetched(cards, source, limit, mode) == [];
  }

  /** Holding the fetched events survives any change that keeps the cards and their events. */
  lemma HoldsFetchedSame(a: seq<StockGroup>, b: seq<StockGroup>, source: EventSource, limit: nat, mode: SortMode)
    requires HoldsFetched(a, source, limit, mode)
    requires SameCards(a, b) && forall k :: 0 <= k < |a| ==> a[k].signals == b[k].signals
    ensures HoldsFetched(b, source, limit, mode)
  {
    assert SameKeys(a, b) by {
      forall k | 0 <= k < |a|
        ensures a[k].reportId == b[k].reportId && a[k].stockCode == b[k].stockCode
      {
        assert Bare(a[k]).reportId == Bare(b[k]).reportId && Bare(a[k]).stockCode == Bare(b[k]).stockCode;
      }
    }
    ReportIdsOfSameCards(a, b);
    forall k | 0 <= k < |b|
      ensures b[k].signals == AttachedTo(b, Fetched(b, source, limit, mode), k)
    {
      AttachedToSameKeys(a, b, Fetched(a, source, limit, mode), k);
    }
  }

  /**
   * No event is lost: with distinct stock codes, a card whose report query
   * succeeds holds every event of the first `limit` rows of its report that
   * carries its stock code.
   */
  lemma HeldEventsComplete(stocks: seq<StockGroup>, source: EventSource, limit: nat, mode: SortMode, k: nat, e: Event)
    requires HoldsFetched(stocks, source, limit, mode) && Distinct(Codes(stocks))
    requires k < |stocks| && stocks[k].reportId != "" && stocks[k].reportId !in source.failing
    requires e in EventsOf(source.events, stocks[k].reportId, limit)
    requires e.stockCode == stocks[k].stockCode && e.stockCode != ""
    ensures Attach(e) in stocks[k].signals
  {
    var ids := ReportIds(stocks);
    var p :| 0 <= p < |ids| && ids[p] == stocks[k].reportId;
    var sorted := Fetched(stocks, source, limit, mode);
    assert e in FetchAll(source.events, ids, source.failing, limit);
    assert e in multiset(sorted);
    var i :| 0 <= i < |sorted| && sorted[i] == e;
    MatchingEventAttached(stocks, sorted, k, i);
  }

  /** Every card is tallied exactly when events were fetched, and its tally is that of its events. */
  predicate Tallied(stocks: seq<StockGroup>, fetched: bool)
  {
    forall k :: 0 <= k < |stocks| ==>
      && (stocks[k].stats.Some? <==> fetched)
      && (stocks[k].stats.Some? ==> IsTally(stocks[k].signals, stocks[k].stats.value))
  }

  /** Tallies the events of every card. */
  method TallyAll(stocks: seq<StockGroup>) returns (res: seq<StockGroup>)
    ensures |res| == |stocks|
    ensures forall k :: 0 <= k < |res| ==>
              res[k].stats.Some? && res[k] == stocks[k].(stats := res[k].stats)
              && IsTally(stocks[k].signals, res[k].stats.value)
  {
    res := [];
    for k := 0 to |stocks|
      invariant |res| == k
      invariant forall m :: 0 <= m < k ==>
                  res[m].stats.Some? && res[m] == stocks[m].(stats := res[m].stats)
                  && IsTally(stocks[m].signals, res[m].stats.value)
    {
      var stats := TallyTypes(stocks[k].signals);
      res := res + [stocks[k].(stats := Some(stats))];
    }
  }

  /**
   * The events of the cards of one date: fetched per report id, sorted
   * newest first and attached. `sequential` picks the one-query-at-a-time
   * loop of `loadOtherDate` over the parallel queries of `loadSignals`; both
   * give the same rows.
   */
  method AttachFetched(cards: seq<StockGroup>, source: EventSource, limit: nat, mode: SortMode, sequential: bool)
    returns (attached: seq<StockGroup>)
    requires forall k :: 0 <= k < |cards| ==> cards[k].signals == []
    ensures AttachedState(cards, Fetched(cards, source, limit, mode), attached)
    ensures HoldsFetched(attached, source, limit, mode)
    ensures SameCards(cards, attached)
    ensures EventsBelong(attached, source.failing)
    ensures forall k :: 0 <= k < |attached| ==> NewestAttached(attached[k].signals, mode)
    ensures forall k :: 0 <= k < |attached| ==> attached[k].stats == cards[k].stats
  {
    var ids := ReportIds(cards);
    var fetched: seq<Event>;
    if sequential {
      fetched := CollectEvents(source.events, ids, source.failing, limit);
    } else {
      fetched := FetchAll(source.events, ids, source.failing, limit);
    }
    var sorted := SortEvents(fetched, mode);
    attached := AttachEvents(cards, sorted);
    forall k, l | 0 <= k < |attached| && l in attached[k].signals
      ensures l.event.reportId == attached[k].reportId && l.event.stockCode == attached[k].stockCode
      ensures l.event.reportId != "" && l.event.stockCode != ""
      ensures l.event.reportId !in source.failing
    {
      assert l in AttachedTo(cards, sorted, k);
      AttachedMatchCard(cards, sorted, k, l);
      assert l.event in multiset(sorted);
    }
    forall k | 0 <= k < |attached|
      ensures NewestAttached(attached[k].signals, mode)
    {
      AttachedKeepsOrder(cards, sorted, k, mode);
    }
    assert SameKeys(cards, attached);
    ReportIdsOfSameCards(cards, attached);
    forall k | 0 <= k < |attached|
      ensures attached[k].signals == AttachedTo(attached, Fetched(attached, source, limit, mode), k)
    {
      AttachedToSameKeys(cards, attached, sorted, k);
    }
  }

  /**
   * The cards of one date: group the summaries, fetch the events of the
   * cards' reports (when there is any), sort them newest first, attach and
   * tally. Without report ids the cards keep no events and no tally.
   */
  method BuildCards(summaries: seq<Summary>, date: string, source: EventSource, limit: nat,
                    mode: SortMode, sequential: bool)
    returns (stocks: seq<StockGroup>)
    ensures CardsFor(summaries, date, stocks)
    ensures EventsBelong(stocks, source.failing)
    ensures forall k :: 0 <= k < |stocks| ==> NewestAttached(stocks[k].signals, mode)
    ensures Tallied(stocks, ReportIds(stocks) != [])
    ensures HoldsFetched(stocks, source, limit, mode)
  {
    var cards := GroupStocks(summaries, date);
    assert CardsFor(summaries, date, cards) by {
      forall k | 0 <= k < |cards|
        ensures Bare(cards[k]) == cards[k]
      {
        assert IsFirstCard(summaries, date, cards[k]);
      }
    }
    if ReportIds(cards) == [] {
      NoReportsHoldNothing(cards, source, limit, mode);
      return cards;
    }
    var attached := AttachFetched(cards, source, limit, mode, sequential);
    stocks := TallyAll(attached);
    CardsForSame(summaries, date, cards, attached);
    TalliedCards(summaries, date, attached, stocks, source.failing, mode);
    TallyKeepsHeld(attached, stocks, source, limit, mode);
  }

  /** Tallying the attached cards keeps them the cards of the date, with their events, and tallies each. */
  lemma TalliedCards(summaries: seq<Summary>, date: string, attached: seq<StockGroup>, stocks: seq<StockGroup>,
                     failing: set<string>, mode: SortMode)
    requires CardsFor(summaries, date, attached) && ReportIds(attached) != []
    requires EventsBelong(attached, failing)
    requires forall k :: 0 <= k < |attached| ==> NewestAttached(attached[k].signals, mode)
    requires |stocks| == |attached|
    requires forall k :: 0 <= k < |stocks| ==>
               stocks[k].stats.Some? && stocks[k] == attached[k].(stats := stocks[k].stats)
               && IsTally(attached[k].signals, stocks[k].stats.value)
    ensures CardsFor(summaries, date, stocks)
    ensures EventsBelong(stocks, failing)
    ensures forall k :: 0 <= k < |stocks| ==> NewestAttached(stocks[k].signals, mode)
    ensures Tallied(stocks, ReportIds(stocks) != [])
  {
    assert SameCards(attached, stocks) by {
      forall k | 0 <= k < |stocks|
        ensures Bare(attached[k]) == Bare(stocks[k])
      {
        assert stocks[k] == attached[k].(stats := stocks[k].stats);
      }
    }
    CardsForSame(summaries, date, attached, stocks);
    assert forall k :: 0 <= k < |stocks| ==> stocks[k].signals == attached[k].signals;
    ReportIdsOfSameCards(attached, stocks);
  }

  /** Tallying changes no card's events, so the cards still hold what was fetched. */
  lemma TallyKeepsHeld(attached: seq<StockGroup>, stocks: seq<StockGroup>, source: EventSource, limit: nat, mode: SortMode)
    requires HoldsFetched(attached, source, limit, mode)
    requires |stocks| == |attached|
    requires forall k :: 0 <= k < |stocks| ==> stocks[k] == attached[k].(stats := stocks[k].stats)
    ensures HoldsFetched(stocks, source, limit, mode)
  {
    assert SameCards(attached, stocks) by {
      forall k | 0 <= k < |stocks|
        ensures Bare(attached[k]) == Bare(stocks[k])
      {
        assert stocks[k] == attached[k].(stats := stocks[k].stats);
      }
    }
    HoldsFetchedSame(attached, stocks, source, limit, mode);
  }

  lemma {:induction false} ReportIdsOfSameCards(a: seq<StockGroup>, b: seq<StockGroup>)
    requires |a| == |b| && forall k :: 0 <= k < |a| ==> a[k].reportId == b[k].reportId
    ensures ReportIds(a) == ReportIds(b)
  {
    if a != [] {
      ReportIdsOfSameCards(a[..|a| - 1], b[..|b| - 1]);
    }
  }
}
