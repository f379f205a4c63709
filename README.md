# MaxTools: signals page, tool switches and home-page filtering in Dafny

This project models three parts of the MaxTools WeChat mini-program.

- **The stock-signal insights page** (`pages/tools/data-insights/index.js`):
  - the signal-type labeller `getSignalTypeCN` over `SIGNAL_TYPE_MAP`;
  - how one date's `stock_summary` rows become stock cards (first summary per stock code wins, cards sorted by code);
  - how the cards' `signal_event` rows are fetched, sorted newest first, attached by `(report_id, stock_code)` and tallied by readable type;
  - the "other dates" list: paged reads, grouping by date, the latest date dropped, distinct stock codes counted, five entries at most;
  - the merge of one loaded date into that list;
  - the expansion toggles;
  - the push-subscription records, with their `isSubscribed`, `subscribing` and `unsubscribing` switches;
  - the pure `processSummaries` and `processSignals` helpers, and the small helpers (signal strength, metrics list, market prefix of a stock code).
- **The home page** (`pages/index/index.js`):
  - the release-only rule that hides switch-controlled tools;
  - the available-tool list;
  - the category and keyword filter with favourite marks;
  - pruning of recent uses, and the default tab;
  - the colour of a tab or category;
  - the buckets of `formatRelativeTime`.
- **The `manageToolSwitch` cloud function** (`cloud/manageToolSwitch/index.js`): a command interpreter over the `tools_switch` table. It validates the request, then lists the table, sets or clears a review version, or enables or disables a tool.

Code that changes page fields or the table step by step is modelled as classes: `SignalsPage.InsightsPage`, `Subscription.SubscriptionPanel`, `ToolIndex.IndexPage` and `ToolSwitch.SwitchTable`. Each method is stated against a specification function, and the properties are proved about those functions.

Database reads are inputs:
- a sequence of rows;
- a set of report ids whose event query fails;
- a flag for a failed summary or subscriber read;
- a separate flag for a failed read of the background list of other dates.

The permission the platform returns for the message template is an input string. So are the version and environment of the running build, and the current time.

Approximations of JavaScript:
- `localeCompare` is ordinal string order (`Ordinal.Less`).
- `toLowerCase` lowers ASCII letters only (`Text.AsciiLower`).
- A missing string field is the empty string, which is how `a || b` defaulting sees it.
- `Promise.all` over the per-report queries is in-order concatenation, and a failed query contributes nothing.
- `Object.keys` order on the type tally is first-seen order.

The module `SwitchVisibility` joins the cloud function with the home page. It proves what a release build shows after each action.

## Model

| member | source | states |
|---|---|---|
| SignalLabels.Lookup | pages/tools/data-insights/index.js:442-444 | the exact lookup finds an entry with that key and value, or no entry has that key |
| SignalLabels.LookupIgnoringCase | pages/tools/data-insights/index.js:452-458 | a case-insensitive hit is the value of an entry whose lower-cased key is the lower-cased input |
| SignalLabels.KeywordLabel | pages/tools/data-insights/index.js:461-471 | a keyword rule only ever answers one of the eleven keyword labels |
| SignalLabels.KeywordLabelsInTable | pages/tools/data-insights/index.js:5-39 | every keyword label is also a label of `SIGNAL_TYPE_MAP` and ends in a CJK character |
| SignalLabels.SignalTypeMapWellFormed | pages/tools/data-insights/index.js:5-39 | the table's keys are distinct lower-case ASCII tokens and its labels are readable (end in CJK) |
| SignalLabels.SignalTypeCN | pages/tools/data-insights/index.js:438-474 | the label is empty exactly for empty input, and is either the input or a label of the table |
| SignalLabels.ExactKeyResolves | pages/tools/data-insights/index.js:442-444 | every key of the table resolves to its own label |
| SignalLabels.ReadableLabelPassesThrough | pages/tools/data-insights/index.js:447-449 | an input with a CJK character is returned unchanged |
| SignalLabels.IgnoresCase | pages/tools/data-insights/index.js:452-458 | an input equal to a key up to ASCII case resolves to that key's label |
| SignalLabels.KeywordsOrPassThrough | pages/tools/data-insights/index.js:461-473 | a non-CJK input that matches no key in any case gets the keyword label, or is returned unchanged |
| SignalLabels.UnknownTokenPassesThrough | pages/tools/data-insights/index.js:473 | a lower-case token that is no key and cannot trigger a keyword rule is shown as is |
| SignalLabels.LabelIdempotent | pages/tools/data-insights/index.js:438-474 | labelling a label gives the same label |
| SignalLabels.ExampleKey | pages/tools/data-insights/index.js:442-444 | `kdj_oversold` is shown as `KDJ超卖` |
| SignalLabels.ExampleUnknownToken | pages/tools/data-insights/index.js:473 | `xyz_foo` is shown as `xyz_foo` |
| InsightRecords.RowsOn | pages/tools/data-insights/index.js:288-293 | exactly the summaries filed under a date (their `report_date`, else their `signal_date`) |
| InsightRecords.FormatMetrics | pages/tools/data-insights/index.js:1193-1199 | no metrics object gives the empty list; otherwise one entry per pair |
| InsightRecords.FormatMetricsRoundTrip | pages/tools/data-insights/index.js:1193-1199 | reading the entries back gives the object's pairs, in order |
| InsightRecords.EventLabel | pages/tools/data-insights/index.js:209 | an event's readable type is empty exactly when it has neither a type nor a label |
| InsightRecords.StatKeyOfAttached | pages/tools/data-insights/index.js:222 | the tally key of an attached event is its readable type |
| InsightRecords.SignalStrength | pages/tools/data-insights/index.js:774-778 | high exactly from 80, low exactly below 60, medium in between |
| InsightRecords.SignalStrengthMonotone | pages/tools/data-insights/index.js:774-778 | a higher success rate never gives a weaker strength |
| InsightRecords.MarketPrefix | pages/tools/data-insights/index.js:500-511 | a code starting with `sh` or `sz` is split into those two letters and the rest; any other code is kept whole and gets `sh` exactly when it starts with 6, `sz` exactly when it starts with 0 or 3, and no prefix otherwise (so `hk00700` gets none) |
| InsightRecords.MarketSymbolIdempotent | pages/tools/data-insights/index.js:500-511 | the symbol of a symbol is the symbol itself |
| InsightRecords.MarketOfDigits | pages/tools/data-insights/index.js:507-511 | a code starting with 6 becomes `sh`+code; one starting with 0 or 3 becomes `sz`+code; any other digit gets no prefix |
| InsightRecords.QuoteLinks | pages/tools/data-insights/index.js:495-517 | an empty code gives no links; otherwise both links contain the market symbol |
| Aggregation.FirstByCode | pages/tools/data-insights/index.js:136-151 | the first summary with the given code, or none when no summary has it |
| Aggregation.FirstByCodeAppend | pages/tools/data-insights/index.js:140-150 | a later summary never replaces the first one of its code |
| Aggregation.IndexByCode | pages/tools/data-insights/index.js:135-151 | the `stockMap` loop: distinct non-empty codes, each mapped to the card of its first summary; a missing code has no summary |
| Aggregation.GroupStocks | pages/tools/data-insights/index.js:134-155 | one card per non-empty stock code, built from the first summary of that code; cards strictly ascending by code |
| Aggregation.GroupedCodesDistinct | pages/tools/data-insights/index.js:153-155 | no two cards share a stock code |
| Aggregation.ReportIds | pages/tools/data-insights/index.js:158 | the non-empty report ids of the cards, at most one per card: every card's id is there, and nothing else |
| Aggregation.ReportIdsAppend | pages/tools/data-insights/index.js:158 | the ids keep card order: the ids of two runs of cards are those of the first run followed by those of the second |
| Aggregation.ReportIdsCount | pages/tools/data-insights/index.js:158 | nothing is de-duplicated: a report id is listed once for every card that has it |
| Aggregation.EventsOf | pages/tools/data-insights/index.js:171-178 | one query returns the report's events in stored order, cut to the first `limit`: all of them when there are fewer |
| Aggregation.WithReport | pages/tools/data-insights/index.js:171-176 | exactly the events of the report |
| Aggregation.FetchAll | pages/tools/data-insights/index.js:169-187 | sound and complete: every fetched event is of a listed report whose query worked, and every event a working query returns is fetched; at most `limit` per listing |
| Aggregation.FetchedPerListing | pages/tools/data-insights/index.js:169-187 | a report listed twice is queried twice: each of its events is fetched at least once per listing |
| Aggregation.CollectEvents | pages/tools/data-insights/index.js:672-692 | the one-by-one loop of `loadOtherDate` gathers exactly what the parallel queries gather |
| Aggregation.InsertEvent | pages/tools/data-insights/index.js:190-194 | insertion keeps newest-first order and adds exactly the one event |
| Aggregation.SortEvents | pages/tools/data-insights/index.js:190-194 | the sort is a permutation of the fetched events and leaves them newest first (by `signal_date`, or by `report_date` then `signal_date` in `loadOtherDate`, lines 695-704) |
| Aggregation.FindCard | pages/tools/data-insights/index.js:200-206 | an event finds the first card with its report id and stock code; an event missing either finds none |
| Aggregation.FirstCard | pages/tools/data-insights/index.js:204-206 | the first matching card from a position on, or none after it |
| Aggregation.AttachedTo | pages/tools/data-insights/index.js:199-216 | a card gains only events that find it, each with its metrics list and readable type |
| Aggregation.AttachEvents | pages/tools/data-insights/index.js:199-216 | the attaching loop leaves each card with exactly the events that found it, in event order |
| Aggregation.AttachedMatchCard | pages/tools/data-insights/index.js:200-208 | every attached event has its card's report id and stock code, both non-empty |
| Aggregation.MatchingEventAttached | pages/tools/data-insights/index.js:204-215 | with distinct codes, every complete event that matches a card is attached to it |
| Aggregation.FindCardOfMatch | pages/tools/data-insights/index.js:204-206 | with distinct codes, a matching complete event finds exactly that card |
| Aggregation.AttachedToSameKeys | pages/tools/data-insights/index.js:204-206 | attaching looks only at the cards' report ids and stock codes |
| Aggregation.AttachedTotal | pages/tools/data-insights/index.js:199-216 | the cards gain exactly the events that found a card, never more than were fetched |
| Aggregation.AttachedKeepsOrder | pages/tools/data-insights/index.js:190-216 | each card's events stay in the newest-first order of the sort |
| Aggregation.FirstSeen | pages/tools/data-insights/index.js:225 | the tally's types are distinct and are exactly the keys that occur |
| Aggregation.OccurrencesPositive | pages/tools/data-insights/index.js:223 | a key occurs at least once exactly when it is among the events |
| Aggregation.SumOverFirstSeen | pages/tools/data-insights/index.js:219-228 | summing the occurrences of the distinct keys counts every event once |
| Aggregation.SumCountsOfTally | pages/tools/data-insights/index.js:225-228 | the counts of a tally add up to the occurrences of its types |
| Aggregation.Tally | pages/tools/data-insights/index.js:219-228 | the specification of the tally: types in first-seen order, each with its number of occurrences |
| Aggregation.TallyUnique | pages/tools/data-insights/index.js:219-228 | a card's events determine its tally |
| Aggregation.TallyTypes | pages/tools/data-insights/index.js:219-228 | the counting loop: distinct types, every count at least 1, every event's type listed, counts summing to the number of events |
| Aggregation.CountKeys | pages/tools/data-insights/index.js:220-224 | the `signalTypeCount` dictionary: a key per distinct type, in first-seen order, mapped to its occurrences |
| Aggregation.CardsForSame | pages/tools/data-insights/index.js:196-229 | attaching events and tallies never changes which cards there are or their report ids |
| Aggregation.TallyAll | pages/tools/data-insights/index.js:219-229 | every card gets the tally of its own events and nothing else changes |
| Aggregation.AttachFetched | pages/tools/data-insights/index.js:168-216 | each card ends with exactly the events of the sorted fetch that find it (`AttachedState`); cards otherwise unchanged; the events belong to the card, come from working queries and are newest first |
| Aggregation.BuildCards | pages/tools/data-insights/index.js:134-229 | the cards of a date (first summary per code, sorted by code), each holding exactly the fetched events that find it, newest first, tallied exactly when some report id existed |
| Aggregation.HeldEventsComplete | pages/tools/data-insights/index.js:158-216 | no event is lost: a card whose report query works holds every event of that query carrying its stock code |
| Aggregation.TalliedCards | pages/tools/data-insights/index.js:218-229 | tallying keeps the cards and their events and makes every card tallied |
| Aggregation.ReportIdsOfSameCards | pages/tools/data-insights/index.js:158 | cards with the same report ids give the same id list |
| Ordinal.LessTransitive | pages/tools/data-insights/index.js:153-155 | the string order used for `localeCompare` is transitive |
| Ordinal.LessTotal | pages/tools/data-insights/index.js:153-155 | any two different strings are ordered one way or the other |
| Ordinal.SortStrings | pages/tools/data-insights/index.js:351-352 | sorting distinct dates or codes is a permutation into strict order, either direction |
| Ordinal.PairLessTransitive | pages/tools/data-insights/index.js:695-704 | the two-key comparator of `loadOtherDate` is transitive |
| Ordinal.PairLessTotal | pages/tools/data-insights/index.js:695-704 | any two different key pairs are ordered one way or the other |
| RowGrouping.SummaryDates | pages/tools/data-insights/index.js:324-326 | exactly the non-empty filing dates of the summaries |
| RowGrouping.SummaryGroup | pages/tools/data-insights/index.js:332-346 | one date of `processSummaries`: the cards of its summaries, first per code, sorted, without events |
| RowGrouping.ProcessSummaries | pages/tools/data-insights/index.js:321-364 | dates strictly newest first, exactly the non-empty dates of the input, each with its cards |
| RowGrouping.EventDates | pages/tools/data-insights/index.js:374 | exactly the filing dates of the events |
| RowGrouping.EventsOn | pages/tools/data-insights/index.js:373-399 | exactly the events of one date and code, in order |
| RowGrouping.CodesOn | pages/tools/data-insights/index.js:380 | exactly the stock codes of one date's events |
| RowGrouping.SignalCardOf | pages/tools/data-insights/index.js:381-414 | a stock of `processSignals` holds all its events, labelled, with their tally |
| RowGrouping.SignalCard | pages/tools/data-insights/index.js:381-414 | the per-stock loop builds exactly that card |
| RowGrouping.SignalGroup | pages/tools/data-insights/index.js:402-429 | one date of `processSignals`: a card per code of its events, strictly sorted by code |
| RowGrouping.ProcessSignals | pages/tools/data-insights/index.js:369-433 | dates strictly newest first, exactly the events' dates, each with its signal cards |
| RowGrouping.EventListed | pages/tools/data-insights/index.js:373-399 | no event is lost: each is listed under its date and stock code |
| OtherDates.FileRow | pages/tools/data-insights/index.js:288-293 | filing one more row keeps the grouping exact |
| OtherDates.GroupBatch | pages/tools/data-insights/index.js:288-293 | filing a batch keeps the grouping exact |
| OtherDates.ReadDateGroups | pages/tools/data-insights/index.js:276-299 | the paged reads group every row read by date; at most 50 queries of 20 rows; the loop stops at an empty or short batch |
| OtherDates.Without | pages/tools/data-insights/index.js:301 | dropping the latest date keeps the order and every other date |
| OtherDates.Candidates | pages/tools/data-insights/index.js:300-301 | every grouped date but the latest, strictly newest first |
| OtherDates.Entries | pages/tools/data-insights/index.js:302-309 | each date with the number of distinct stock codes among its rows |
| OtherDates.OtherDatesList | pages/tools/data-insights/index.js:300-310 | at most five entries, strictly newest first, never the latest date, each with its distinct-code count, none loaded |
| OtherDates.OtherDatesComplete | pages/tools/data-insights/index.js:300-310 | no date is skipped: a date other than the latest is listed unless five newer ones are |
| SignalsPage.OnReportDate | pages/tools/data-insights/index.js:124-131 | the summaries whose `report_date` is the date |
| SignalsPage.ToggledCard | pages/tools/data-insights/index.js:479-490 | the card's flag flips and no other flag changes |
| SignalsPage.ToggledGroup | pages/tools/data-insights/index.js:576-587 | the date's flag flips (and is set) and no other flag changes |
| SignalsPage.ToggledCardTwice | pages/tools/data-insights/index.js:479-490 | toggling a card twice restores every flag |
| SignalsPage.OtherDateToggled | pages/tools/data-insights/index.js:608-629 | the date's expansion flips; a load starts exactly when it opens and none is in flight, which then marks it loading; nothing else changes |
| SignalsPage.NoSecondLoadInFlight | pages/tools/data-insights/index.js:623 | while a load of the date is in flight, toggling starts no second load |
| SignalsPage.ReopenReloads | pages/tools/data-insights/index.js:753-754 | after a load finishes, closing and reopening the date loads it again |
| SignalsPage.MergeDate | pages/tools/data-insights/index.js:741-751 | same length; only entries of that date change, gaining the cards and `loaded` |
| SignalsPage.MergeKeepsDates | pages/tools/data-insights/index.js:741-751 | the merge keeps every date and stock count |
| SignalsPage.OtherDatesListOfRows | pages/tools/data-insights/index.js:273-310 | the list built from the grouped rows is the list of other dates of the summaries read |
| SignalsPage.LoadCards | pages/tools/data-insights/index.js:134-229 | the cards of the date's summaries, each holding exactly the fetched events that find it, newest first, with tallies |
| SignalsPage.LoadedCardShowsItsEvents | pages/tools/data-insights/index.js:158-216 | a loaded card shows every event its report's working query returns with its stock code |
| SignalsPage.InsightsPage.constructor | pages/tools/data-insights/index.js:41-65 | the page's initial data: nothing loaded, expanded or loading |
| SignalsPage.InsightsPage.LoadSignals | pages/tools/data-insights/index.js:98-268 | a failed summary read only clears `loading`; no summary empties the page; otherwise one date group with that date's cards and their fetched events, only that date expanded, and the other dates listed (the list stays empty when its own read fails) |
| SignalsPage.InsightsPage.ShowFirstDate | pages/tools/data-insights/index.js:236-254 | the first render: one date group, its card count, only that date expanded, empty list of other dates |
| SignalsPage.InsightsPage.LoadOtherDatesList | pages/tools/data-insights/index.js:273-316 | a failed list read keeps the list; otherwise the list of other dates of the summaries |
| SignalsPage.InsightsPage.LoadOtherDate | pages/tools/data-insights/index.js:634-769 | the date's loading flag is cleared either way; on success only that date's entries gain its cards, with their fetched events, and `loaded` |
| SignalsPage.InsightsPage.ToggleOtherDate | pages/tools/data-insights/index.js:608-625 | the new flags and whether a load starts are those of the toggle rule |
| SignalsPage.InsightsPage.OpenOtherDate | pages/tools/data-insights/index.js:608-629 | toggle then load: the date's expansion flips and no other flag changes; a load runs exactly when the date opens with none in flight, and then merges the date's loaded cards and clears its loading flag |
| SignalsPage.InsightsPage.ToggleCardExpand | pages/tools/data-insights/index.js:479-490 | the card flags are those of the toggle rule |
| SignalsPage.InsightsPage.ToggleDateGroup | pages/tools/data-insights/index.js:576-587 | the date-group flags are those of the toggle rule |
| Subscription.KeepFirst | pages/tools/data-insights/index.js:889-898 | the duplicate clean-up keeps the first record only |
| Subscription.CheckedStatus | pages/tools/data-insights/index.js:887-933 | no record: not subscribed; first record active: subscribed; inactive: not; any other status keeps the switch |
| Subscription.Subscribed | pages/tools/data-insights/index.js:994-1031 | one active record without an error: the first one kept, or a new one |
| Subscription.Ensured | pages/tools/data-insights/index.js:843-872 | no record: one new active record with the new id and no error; otherwise the first record keeps its id and becomes active (its error cleared if it was not active), the others kept; an active first record changes nothing |
| Subscription.AllUnsubscribed | pages/tools/data-insights/index.js:1075-1091 | every active record becomes inactive, every other record is unchanged |
| Subscription.CheckAfterSubscribe | pages/tools/data-insights/index.js:887-933 | a check right after subscribing reports subscribed and cleans up nothing |
| Subscription.CheckAfterUnsubscribe | pages/tools/data-insights/index.js:1075-1091 | a check right after unsubscribing reports subscribed only for an unknown first status with the switch already on |
| Subscription.UnsubscribeIdempotent | pages/tools/data-insights/index.js:1075-1091 | unsubscribing twice is unsubscribing once |
| Subscription.EnsureAfterCleanUp | pages/tools/data-insights/index.js:843-872 | with at most one record, ensuring a record agrees with subscribing, unless that record is active with an old error |
| Subscription.SubscriptionPanel.constructor | pages/tools/data-insights/index.js:41-65 | the switches start off over the user's records |
| Subscription.SubscriptionPanel.CheckSubscribeStatus | pages/tools/data-insights/index.js:881-940 | the records become the first one only, and the switch follows the status rule; a failed read turns the switch off |
| Subscription.SubscriptionPanel.HandleSubscribe | pages/tools/data-insights/index.js:945-1051 | ignored while subscribing; reject, ban or any other answer writes nothing; accept gives the subscribed records and turns the switch on |
| Subscription.SubscriptionPanel.EnsureSubscribeRecord | pages/tools/data-insights/index.js:838-876 | the ensured records and the switch on; a failed read changes nothing |
| Subscription.SubscriptionPanel.SilentRequestSubscribe | pages/tools/data-insights/index.js:796-833 | accept ensures a record; the settings prompt shows exactly on ban with the switch on; anything else writes nothing |
| Subscription.SubscriptionPanel.HandleUnsubscribe | pages/tools/data-insights/index.js:1056-1111 | ignored while in progress or unconfirmed; otherwise all records unsubscribed and the switch off; a failed read writes nothing |
| ToolIndex.Keep | pages/index/index.js:174 | `filter`: exactly the elements that pass, never more than the input |
| ToolIndex.KeepCounts | pages/index/index.js:174 | `filter` keeps every copy of an element that passes and none of one that fails |
| ToolIndex.KeepIsSubsequence | pages/index/index.js:174 | a filter keeps the original order |
| ToolIndex.EnvVersion | pages/index/index.js:128-137 | the environment is never empty and is `develop` when the account info cannot be read |
| ToolIndex.DisabledIds | pages/index/index.js:150-159 | a tool id is listed exactly when one of its switches disables it |
| ToolIndex.NothingDisabledOutsideRelease | pages/index/index.js:128-166 | no account info, a develop or trial build, or a failed fetch disables nothing |
| ToolIndex.DisabledInRelease | pages/index/index.js:150-159 | in release, a tool is disabled exactly when it is switch-controlled and one of its switches has `enabled` false or a non-empty review version equal to the running version |
| ToolIndex.AvailableTools | pages/index/index.js:172-175 | exactly the catalogue's tools whose id is not disabled |
| ToolIndex.AvailableToolsInOrder | pages/index/index.js:172-175 | in catalogue order |
| ToolIndex.ByCategory | pages/index/index.js:265-267 | a non-empty category keeps exactly the tools of that category |
| ToolIndex.BySearch | pages/index/index.js:269-275 | a non-empty search keeps exactly the tools whose name or description contains the lower-cased keyword |
| ToolIndex.Selected | pages/index/index.js:263-275 | the available tools that pass both filters |
| ToolIndex.Annotate | pages/index/index.js:277-280 | every tool marked favourite exactly when its id is a favourite |
| ToolIndex.FilterToolsWithFavorites | pages/index/index.js:262-281 | exactly the available tools passing category and keyword, each marked favourite exactly when it is one |
| ToolIndex.FilteredInOrder | pages/index/index.js:262-281 | the result keeps the order of the available tools |
| ToolIndex.NoFilterListsAll | pages/index/index.js:262-281 | no category and no search list every available tool |
| ToolIndex.FormatRelativeTime | pages/index/index.js:512-533 | just now under a minute (negative included); else whole minutes under an hour, whole hours under a day, whole days under seven days, else a calendar date |
| ToolIndex.RelativeTimeMonotone | pages/index/index.js:512-526 | a newer timestamp is never shown as older |
| ToolIndex.CategoryColor | pages/index/index.js:326-333 | the default blue exactly for a category other than finance, image or life |
| ToolIndex.TabColor | pages/index/index.js:416-428 | default blue off the tools tab, the category colour on it |
| ToolIndex.EnabledUses | pages/index/index.js:186-187 | exactly the stored uses of tools not disabled, in stored order, each repeated use kept as often as it is stored |
| ToolIndex.PrunedUses | pages/index/index.js:186-193 | one entry per stored use of a tool not disabled, in stored order (so their number decides the tab), each with its relative time and favourite mark |
| ToolIndex.IndexPage.constructor | pages/index/index.js:88-102 | the page's initial data |
| ToolIndex.IndexPage.LoadToolsSwitch | pages/index/index.js:125-167 | the disabled list is that of the release rule |
| ToolIndex.IndexPage.InitPageData | pages/index/index.js:180-216 | favourites stored, tools the available ones, recent uses pruned, tab `recent` only when at least three remain, otherwise unchanged |
| ToolIndex.IndexPage.OnTabItemTap | pages/index/index.js:408-433 | tapping the current tab changes nothing; another tab becomes current with its colour |
| ToolIndex.IndexPage.OnCategoryChange | pages/index/index.js:323-340 | the category, its colour and the filtered tools for it |
| ToolSwitch.FirstMatch | cloud/manageToolSwitch/index.js:98-102 | the first record of the tool, or none when the tool has none |
| ToolSwitch.SetDoc | cloud/manageToolSwitch/index.js:115-123 | `doc(id).set`: replaces the document with that `_id`, or adds it |
| ToolSwitch.SetDocTouchesOne | cloud/manageToolSwitch/index.js:115-123 | `set` changes at most one document and keeps `_id`s unique |
| ToolSwitch.SetReviewEffect | cloud/manageToolSwitch/index.js:97-130 | one record at most changes; the tool's first record then has the review version and is enabled; a new one only when none existed |
| ToolSwitch.ClearReviewEffect | cloud/manageToolSwitch/index.js:133-158 | the first record of the tool loses its review version and is enabled; no record leaves the table unchanged |
| ToolSwitch.SetEnabledEffect | cloud/manageToolSwitch/index.js:163-206 | an existing record gets `enabled` and loses its review version; no record: enable changes nothing, disable adds one disabled record |
| ToolSwitch.EnableDisableAsymmetry | cloud/manageToolSwitch/index.js:161-205 | without a record, enable leaves the table as it is and disable appends exactly `{tool_id, enabled: false}` |
| ToolSwitch.Dispatch | cloud/manageToolSwitch/index.js:33-84 | a failure writes nothing; the request fails exactly when it does not pass the parameter checks (unknown action, missing tool id, or missing version for `set_review`); `list` returns all records and their count |
| ToolSwitch.DispatchTouchesAtMostOne | cloud/manageToolSwitch/index.js:33-206 | every request changes at most one record and keeps `_id`s unique |
| ToolSwitch.UpdateKeepsUniqueToolIds | cloud/manageToolSwitch/index.js:104-112 | updating a record without changing its tool keeps one record per tool |
| ToolSwitch.SetDocKeepsUniqueToolIds | cloud/manageToolSwitch/index.js:115-123 | creating the record of a tool that had none keeps one record per tool |
| ToolSwitch.SetDocKeepsOwnDocIds | cloud/manageToolSwitch/index.js:115-123 | when every `_id` is its `tool_id`, setting a new tool's record appends it |
| ToolSwitch.DispatchKeepsUniqueToolIds | cloud/manageToolSwitch/index.js:33-206 | no request gives a tool a second record, and every record created has its `tool_id` as `_id` |
| ToolSwitch.RunKeepsInvariants | cloud/manageToolSwitch/index.js:33-206 | any run of requests keeps `_id`s unique, one record per tool, and every `_id` its `tool_id` |
| ToolSwitch.BuiltTableInvariants | cloud/manageToolSwitch/index.js:33-206 | a table only this function has written, from empty, has one record per tool, under its `tool_id` |
| ToolSwitch.SwitchTable.constructor | cloud/manageToolSwitch/index.js:11 | the table over the stored records |
| ToolSwitch.SwitchTable.ListSwitches | cloud/manageToolSwitch/index.js:87-94 | all records and their number |
| ToolSwitch.SwitchTable.FindFirst | cloud/manageToolSwitch/index.js:98-102 | the loop finds the first record of the tool |
| ToolSwitch.SwitchTable.Set | cloud/manageToolSwitch/index.js:115-123 | the table after `doc(id).set` |
| ToolSwitch.SwitchTable.SetReviewVersion | cloud/manageToolSwitch/index.js:97-130 | the table and message of `setReviewVersion` |
| ToolSwitch.SwitchTable.ClearReviewVersion | cloud/manageToolSwitch/index.js:133-158 | the table and message of `clearReviewVersion` |
| ToolSwitch.SwitchTable.SetEnabled | cloud/manageToolSwitch/index.js:163-206 | the table and message of `setEnabled` |
| ToolSwitch.SwitchTable.HandleRequest | cloud/manageToolSwitch/index.js:33-84 | a request failing the parameter checks gets its validation reply without touching the database; one that passes fails with a database error and writes nothing, or gets the response and table of the dispatch rule; one record per tool is kept |
| SwitchVisibility.HiddenIff | pages/index/index.js:150-159 | a release build hides a tool exactly when some record of it disables it |
| SwitchVisibility.HiddenByOnlyRecord | pages/index/index.js:150-159 | with one record per tool, that record alone decides |
| SwitchVisibility.DisableHides | cloud/manageToolSwitch/index.js:163-206 | after `disable(t)` a switch-controlled `t` is hidden in every release build |
| SwitchVisibility.SetReviewHidesExactly | cloud/manageToolSwitch/index.js:97-130 | on a table with one record per tool, after `set_review(t, v)` a switch-controlled `t` is hidden exactly in release builds of version `v` |
| SwitchVisibility.ClearReviewShows | cloud/manageToolSwitch/index.js:133-158 | on a table with one record per tool, after `clear_review(t)` every release build shows `t` |
| SwitchVisibility.EnableShows | cloud/manageToolSwitch/index.js:163-184 | on a table with one record per tool, after `enable(t)` every release build shows `t` |
| SwitchVisibility.SecondRecordKeepsToolHidden | cloud/manageToolSwitch/index.js:138-179 | on a table with a second, disabled record of a tool, `clear_review` and `enable` update only the first, so the tool stays hidden |
| SwitchVisibility.DispatchOnlyChangesTool | cloud/manageToolSwitch/index.js:33-206 | when no other tool's document has `_id` `t`, an action on `t` changes or adds only records of `t` |
| SwitchVisibility.OtherToolsUnaffected | cloud/manageToolSwitch/index.js:33-206 | when no other tool's document has `_id` `t`, no action on `t` changes whether another tool is shown |
| SwitchVisibility.ActionsOnBuiltTable | cloud/manageToolSwitch/index.js:33-206 | on any table this function has built: `clear_review` and `enable` show the tool, `set_review(t, v)` hides it exactly in version `v`, and no action changes another tool |

## Left out

- All `wx.*` platform calls (toasts, modals, clipboard, navigation, `openSetting`, `requestSubscribeMessage`) and `setData` rendering. The permission result, the confirmation of the unsubscribe modal and the account info are inputs.
- Database query mechanics. Reads are input sequences, and each action of the cloud function is one step on the table. The default result limits of `get()` (20 rows on the client, 100 on the server) are not modelled, so `ListSwitches` returns the whole table. The client SDK also caps an explicit `.limit(100)` (pages/tools/data-insights/index.js:177) or `.limit(1000)` (pages/tools/data-insights/index.js:684) at 20 rows; `FirstLoadEventLimit` and `OtherDateEventLimit` take those limits as written, so a report with more than 20 events shows more of them in the model than on a device.
- Write failures: a database error in the cloud function is modelled as a failure before any write, for requests that pass the parameter checks. In the subscription handlers only a failed read is modelled, and every write is taken to succeed.
- The `created_at`, `updated_at`, `subscribeTime` and `lastErrorTime` timestamps, `formatDate`, and the text of the calendar branch of `formatRelativeTime` (modelled as `OnDate` with no month or day). `Date.now()` is the `now` parameter.
- ToolIndex.FormatRelativeTime: returns the bucket and its count, not the rendered Chinese text.
- The text of the quote links is modelled, but opening the action sheet and copying a link are not.
- `utils/storage`: stored favourites and recent uses are inputs of `InitPageData`. The handlers that reread or write storage (`refreshPageData`, `loadRecentUses`, `loadFavoriteTools`, `onFavoriteTap`, `onToolTap`) and the search-box handlers are not part of this model.
- The follow-up loads that `onTabItemTap` starts for the `recent` and `my` tabs; only the tab and colour change is modelled.
- `testNotification`, `toggleSignalsList`, `toggleRules`, console logging and `setTimeout`.
- Concurrency between page handlers: every handler runs to completion before the next one.
- `localeCompare` is ordinal order and `toLowerCase` lowers ASCII only. JavaScript's ordering of integer-like keys in `Object.keys` is replaced by first-seen order.
- A missing field and an empty one are both the empty string. So a missing value used as a dictionary key, which JavaScript turns into the key `"undefined"`, is the key `""` here. This covers a missing `stock_code` or date in `processSignals`, and the tally key of an event with no type, label or readable type.
- `processSignals` with a missing `stock_code` and another stock on the same date throws a `TypeError` in its `localeCompare` sort. The model sorts the empty code like any other.
- Keys that name inherited object members (`constructor`, `toString`, `valueOf`, `__proto__`) are ordinary keys here. In JavaScript `SIGNAL_TYPE_MAP[key]` then yields a function, `stockMap` treats such a stock code as already seen, and the tally adds to a function. The model passes such a signal type through and groups such a code like any other.
- `total_success_count` in `processSignals` (always 0 and never read) is not modelled. Neither are the stability of the event sort among equal keys and the `usage` object of the unknown-action response.
- The `TOOLS` catalogue is the constructor-set constant `IndexPage.catalogue`. Functions take the catalogue as a parameter.
- A `version` that is not a string in a switch record is not modelled; a missing one is `None`.
- SetReviewHidesExactly, ClearReviewShows, EnableShows: proved for tables with one record per tool. That holds for every table this function builds (`BuiltTableInvariants`). A table edited by hand can give a tool two records, and `SecondRecordKeepsToolHidden` shows the tool then stays hidden.
