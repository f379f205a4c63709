/**
 * `loadOtherDatesList`: the summaries are read page by page (newest report
 * first, at most 50 pages of 20 rows), grouped by date, and the five newest
 * dates other than the one already on screen are listed with the number of
 * distinct stocks filed under each.
 */
module OtherDates {
  import opened Wrappers
  import opened Ordinal
  import opened InsightRecords
  import opened Aggregation

  const BatchSize: nat := 20
  const MaxRounds: nat := 50
  const OtherDatesMax: nat := 5

  /** An entry of `otherDatesData`; `stocks` and `loaded` are set once the date is opened. */
  datatype OtherDate = OtherDate(date: string, stockCount: nat, stocks: Option<seq<StockGroup>>, loaded: bool)

  function Min(a: nat, b: nat): nat
  {
    if a < b then a else b
  }

  /** The rows the paging loop gets to see: the first 50 pages of 20. */
  function ReadRows(rows: seq<Summary>): seq<Summary>
  {
    rows[..Min(|rows|, MaxRounds * BatchSize)]
  }

  /** The distinct non-empty stock codes of some rows (the `Set` of `stock_code`). */
  function CodeSet(rows: seq<Summary>): set<string>
  {
    set s | s in rows && s.stockCode != "" :: s.stockCode
  }

  /** The dictionary `listDateGrouped` after the rows `rows` have gone through it. */
  ghost predicate GroupedBy(rows: seq<Summary>, grouped: map<string, seq<Summary>>, dates: seq<string>)
  {
    && Distinct(dates)
    && (forall d :: d in dates <==> d in grouped)
    && (forall d :: d in grouped ==> d != "" && grouped[d] == RowsOn(rows, d) && grouped[d] != [])
    && (forall d :: d != "" && d !in grouped ==> RowsOn(rows, d) == [])
  }

  lemma RowsOnAppend(rows: seq<Summary>, s: Summary, date: string)
    ensures RowsOn(rows + [s], date) == RowsOn(rows, date) + (if SummaryDate(s) == date then [s] else [])
  {
    assert (rows + [s])[..|rows|] == rows;
  }

  /** `listDateGrouped` and its keys after row `s` is filed: a row without a date is skipped. */
  function File(grouped: map<string, seq<Summary>>, dates: seq<string>, s: Summary)
    : (map<string, seq<Summary>>, seq<string>)
  {
    var date := SummaryDate(s);
    if date == "" then (grouped, dates)
    else if date in grouped then (grouped[date := grouped[date] + [s]], dates)
    else (grouped[date := [s]], dates + [date])
  }

  /** Filing row `i` keeps the dictionary in step with the rows read. */
  lemma FileRow(rows: seq<Summary>, i: nat, grouped: map<string, seq<Summary>>, dates: seq<string>)
    requires i < |rows| && GroupedBy(rows[..i], grouped, dates)
    ensures GroupedBy(rows[..i + 1], File(grouped, dates, rows[i]).0, File(grouped, dates, rows[i]).1)
  {
    assert rows[..i + 1] == rows[..i] + [rows[i]];
    forall d {
      RowsOnAppend(rows[..i], rows[i], d);
    }
  }

  /** One page through the `forEach` that files every dated row under its date. */
  method GroupBatch(rows: seq<Summary>, from: nat, to: nat, grouped0: map<string, seq<Summary>>, dates0: seq<string>)
    returns (grouped: map<string, seq<Summary>>, dates: seq<string>)
    requires from <= to <= |rows|
    requires GroupedBy(rows[..from], grouped0, dates0)
    ensures GroupedBy(rows[..to], grouped, dates)
  {
    grouped, dates := grouped0, dates0;
    for i := from to to
      invariant GroupedBy(rows[..i], grouped, dates)
    {
      FileRow(rows, i, grouped, dates);
      var s := rows[i];
      var date := SummaryDate(s);
      if date != "" {
        if date !in grouped {
          grouped := grouped[date := [s]];
          dates := dates + [date];
        } else {
          grouped := grouped[date := grouped[date] + [s]];
        }
      }
    }
  }

  /**
   * The paging `while` loop: a page of up to 20 rows per round, stopping
   * after 50 rounds, at an empty page or after a short one. `queries`
   * counts the reads, the last empty one included.
   */
  method ReadDateGroups(rows: seq<Summary>)
    returns (grouped: map<string, seq<Summary>>, dates: seq<string>, queries: nat)
    ensures GroupedBy(ReadRows(rows), grouped, dates)
    ensures queries <= MaxRounds
    ensures queries == if |rows| >= MaxRounds * BatchSize then MaxRounds else |rows| / BatchSize + 1
  {
    grouped, dates := map[], [];
    var skip: nat := 0;
    var rounds: nat := 0;
    queries := 0;
    assert rows[..0] == [];
    while rounds < MaxRounds
      invariant rounds <= MaxRounds
      invariant skip == rounds * BatchSize <= |rows|
      invariant queries == rounds
      invariant GroupedBy(rows[..skip], grouped, dates)
      decreases MaxRounds - rounds
    {
      var end := Min(skip + BatchSize, |rows|);
      queries := queries + 1;
      if end == skip {
        break;
      }
      grouped, dates := GroupBatch(rows, skip, end, grouped, dates);
      rounds := rounds + 1;
      if end - skip < BatchSize {
        skip := end;
        break;
      }
      skip := end;
    }
  }

  /** The dates of a newest-first list other than `latest`, still newest first. */
  function Without(dates: seq<string>, latest: string): (r: seq<string>)
    requires StrictlySorted(dates, true)
    ensures forall d :: d in r <==> d in dates && d != latest
    ensures StrictlySorted(r, true)
  {
    if dates == [] then []
    else
      assert StrictlySorted(dates[1..], true);
      var rest := Without(dates[1..], latest);
      assert forall d :: d in dates <==> d == dates[0] || d in dates[1..];
      if dates[0] == latest then rest
      else
        forall j | 0 <= j < |rest|
          ensures Precedes(dates[0], rest[j], true)
        {
          assert rest[j] in dates[1..];
          var q :| 0 <= q < |dates[1..]| && dates[1..][q] == rest[j];
          assert dates[q + 1] == rest[j];
        }
        [dates[0]] + rest
  }

  function Dates(entries: seq<OtherDate>): (r: seq<string>)
    ensures |r| == |entries|
    ensures forall k :: 0 <= k < |entries| ==> r[k] == entries[k].date
  {
    seq(|entries|, k requires 0 <= k < |entries| => entries[k].date)
  }

  /** Sorting keeps the dates. */
  lemma SortedDates(dates: seq<string>)
    requires Distinct(dates)
    ensures forall d :: d in SortStrings(dates, true) <==> d in dates
  {
    forall d
      ensures d in SortStrings(dates, true) <==> d in dates
    {
      SortedSameElements(dates, true, d);
    }
  }

  /** The dates that may be listed: every grouped date but `latest`, newest first. */
  function Candidates(dates: seq<string>, latest: string): (kept: seq<string>)
    requires Distinct(dates)
    ensures StrictlySorted(kept, true)
    ensures forall d :: d in kept <==> d in dates && d != latest
  {
    SortedDates(dates);
    Without(SortStrings(dates, true), latest)
  }

  function Entries(grouped: map<string, seq<Summary>>, kept: seq<string>): (r: seq<OtherDate>)
    requires forall d :: d in kept ==> d in grouped
    ensures |r| == |kept|
    ensures forall k :: 0 <= k < |r| ==> r[k] == OtherDate(kept[k], |CodeSet(grouped[kept[k]])|, None, false)
  {
    seq(|kept|, k requires 0 <= k < |kept| => OtherDate(kept[k], |CodeSet(grouped[kept[k]])|, None, false))
  }

  /**
   * The list built after the loop: the grouped dates newest first, without
   * `latest`, each with its count of distinct stock codes, the first five.
   */
  function OtherDatesList(grouped: map<string, seq<Summary>>, dates: seq<string>, latest: string): (r: seq<OtherDate>)
    requires Distinct(dates) && forall d :: d in dates ==> d in grouped
    ensures |r| <= OtherDatesMax
    ensures StrictlySorted(Dates(r), true)
    ensures forall k :: 0 <= k < |r| ==> r[k].date in dates && r[k].date != latest
    ensures forall k :: 0 <= k < |r| ==> r[k].stockCount == |CodeSet(grouped[r[k].date])|
    ensures forall k :: 0 <= k < |r| ==> r[k].stocks.None? && !r[k].loaded
  {
    var kept := Candidates(dates, latest);
    var all := Entries(grouped, kept);
    var r := all[..Min(|all|, OtherDatesMax)];
    assert forall k :: 0 <= k < |r| ==> r[k].date == kept[k] && kept[k] in kept;
    assert Dates(r) == kept[..|r|];
    r
  }

  /**
   * No date is skipped: a date with rows that is not `latest` is listed
   * unless five newer dates already are.
   */
  lemma OtherDatesComplete(grouped: map<string, seq<Summary>>, dates: seq<string>, latest: string, d: string)
    requires Distinct(dates) && forall x :: x in dates ==> x in grouped
    requires d in dates && d != latest
    ensures var r := OtherDatesList(grouped, dates, latest);
            d in Dates(r) || (|r| == OtherDatesMax && forall k :: 0 <= k < |r| ==> Less(d, r[k].date))
  {
    var kept := Candidates(dates, latest);
    var r := OtherDatesList(grouped, dates, latest);
    assert Dates(r) == kept[..|r|];
    var p :| 0 <= p < |kept| && kept[p] == d;
    if p < |r| {
      assert Dates(r)[p] == d;
    }
  }
}
