/**
 * The home page: the tool catalogue, the production-only switch rule that
 * hides review-sensitive tools, the category and keyword filter, and the
 * page state set when the page starts and when a tab or category is tapped.
 */
module ToolIndex {
  import opened Wrappers
  import opened Text
  import opened ToolSwitch

  datatype Tool = Tool(id: string, name: string, icon: string, category: string, description: string, path: string)

  /** `TOOLS`, in catalogue order. */
  const Tools: seq<Tool> := [
    Tool("tax-calculator", "个税计算器", "money", "finance",
         "计算个人所得税，支持多个月份累计计算", "/pages/tools/tax-calculator/index"),
    Tool("pension-calculator", "年终奖计算器", "wallet", "finance",
         "计算年终奖缴税金额", "/pages/tools/pension-calculator/index"),
    Tool("currency-exchange", "汇率转换", "swap", "finance",
         "实时查询和转换多种货币汇率", "/pages/tools/currency-exchange/index"),
    Tool("photo-privacy", "照片隐私清除", "image", "image",
         "去除照片中的位置、时间等隐私信息", "/pages/tools/photo-privacy/index"),
    Tool("unit-converter", "单位换算器", "swap", "life",
         "支持长度、面积、体积、重量、温度、时间、速度等常用单位互转", "/pages/tools/unit-converter/index"),
    Tool("anniversary", "纪念日管家", "calendar", "life",
         "记录生日、纪念日、还款日等重要日期，自动计算倒计时，支持订阅消息提醒", "/pages/tools/anniversary/index"),
    Tool("stock-signals", "股票强力信号", "chart", "finance",
         "展示股票强力信号数据，按日期分组查看，支持筛选和详情展开", "/pages/tools/stock-signals/index")
  ]

  /** `SWITCH_CONTROLLED_TOOLS`: the only tools a switch can hide. */
  const SwitchControlledTools: seq<string> := ["stock-signals"]

  const DefaultColor := "#0052d9"

  // ---- generic filtering ------------------------------------------------

  /** `Array.prototype.filter`. */
  function Keep<T(!new)>(s: seq<T>, p: T -> bool): (r: seq<T>)
    ensures |r| <= |s|
    ensures forall x :: x in r <==> x in s && p(x)
  {
    if s == [] then []
    else
      assert forall x :: x in s <==> x == s[0] || x in s[1..];
      (if p(s[0]) then [s[0]] else []) + Keep(s[1..], p)
  }

  /** `a` is `b` with some elements left out, the rest in the same order. */
  predicate SubsequenceOf<T(==)>(a: seq<T>, b: seq<T>)
    decreases |b|
  {
    if a == [] then true
    else if b == [] then false
    else if a[0] == b[0] then SubsequenceOf(a[1..], b[1..])
    else SubsequenceOf(a, b[1..])
  }

  /** Putting an element in front of the longer sequence keeps a subsequence one. */
  lemma {:induction false} SubsequenceOfCons<T>(a: seq<T>, x: T, b: seq<T>)
    requires SubsequenceOf(a, b)
    ensures SubsequenceOf(a, [x] + b)
    decreases |b|, 1
  {
    var xb := [x] + b;
    assert xb[1..] == b;
    if a == [] {
    } else if a[0] == x {
      assert b != [];
      if a[0] == b[0] {
        SubsequenceOfCons(a[1..], b[0], b[1..]);
        assert [b[0]] + b[1..] == b;
      } else {
        SubsequenceDropHead(a, b);
      }
    }
  }

  /** Dropping the head of a subsequence keeps it a subsequence. */
  lemma {:induction false} SubsequenceDropHead<T>(a: seq<T>, b: seq<T>)
    requires a != [] && SubsequenceOf(a, b)
    ensures SubsequenceOf(a[1..], b)
    decreases |b|, 0
  {
    assert b != [];
    if a[0] == b[0] {
      if a[1..] != [] {
        SubsequenceOfCons(a[1..], b[0], b[1..]);
        assert [b[0]] + b[1..] == b;
      }
    } else {
      SubsequenceDropHead(a, b[1..]);
      if a[1..] != [] {
        SubsequenceOfCons(a[1..], b[0], b[1..]);
        assert [b[0]] + b[1..] == b;
      }
    }
  }

  /** Filtering keeps the order. */
  lemma {:induction false} KeepIsSubsequence<T(!new)>(s: seq<T>, p: T -> bool)
    ensures SubsequenceOf(Keep(s, p), s)
  {
    if s != [] {
      var rest := Keep(s[1..], p);
      KeepIsSubsequence(s[1..], p);
      if p(s[0]) {
        assert Keep(s, p) == [s[0]] + rest;
        assert ([s[0]] + rest)[1..] == rest;
      } else {
        assert Keep(s, p) == rest;
        SubsequenceOfCons(rest, s[0], s[1..]);
        assert [s[0]] + s[1..] == s;
      }
    }
  }

  /** Filtering keeps every copy of an element that passes and none of one that fails. */
  lemma {:induction false} KeepCounts<T(!new)>(s: seq<T>, p: T -> bool)
    ensures forall x :: multiset(Keep(s, p))[x] == if p(x) then multiset(s)[x] else 0
  {
    if s != [] {
      KeepCounts(s[1..], p);
      assert s == [s[0]] + s[1..];
      assert Keep(s, p) == (if p(s[0]) then [s[0]] else []) + Keep(s[1..], p);
    }
  }

  // ---- the switch rule --------------------------------------------------

  /** What `wx.getAccountInfoSync()` reports; None when it throws. */
  datatype AccountInfo = AccountInfo(version: string, envVersion: string)

  /** `miniProgram.version || ''`. */
  function CurrentVersion(account: Option<AccountInfo>): string
  {
    if account.Some? then account.value.version else ""
  }

  /** `miniProgram.envVersion || 'develop'`, and 'develop' when the info cannot be read. */
  function EnvVersion(account: Option<AccountInfo>): (env: string)
    ensures env != ""
    ensures account.None? ==> env == "develop"
  {
    if account.Some? && account.value.envVersion != "" then account.value.envVersion else "develop"
  }

  /** The filter of `loadToolsSwitch`: a switch-controlled tool explicitly disabled, or under review in this version. */
  predicate Disables(s: SwitchRecord, currentVersion: string)
  {
    && s.toolId in SwitchControlledTools
    && (s.enabled == Some(false)
        || (s.reviewVersion.Some? && s.reviewVersion.value != "" && s.reviewVersion.value == currentVersion))
  }

  /** The `tool_id`s of the switches that disable their tool, in collection order. */
  function DisabledIds(switches: seq<SwitchRecord>, currentVersion: string): (ids: seq<string>)
    ensures |ids| <= |switches|
    ensures forall t :: t in ids <==> exists k :: 0 <= k < |switches| && switches[k].toolId == t && Disables(switches[k], currentVersion)
  {
    if switches == [] then []
    else
      var rest := DisabledIds(switches[1..], currentVersion);
      assert forall k :: 1 <= k < |switches| ==> switches[1..][k - 1] == switches[k];
      if Disables(switches[0], currentVersion) then [switches[0].toolId] + rest else rest
  }

  /**
   * `disabledTools` after `loadToolsSwitch`: empty in a develop or trial
   * build and when the switches cannot be fetched (`fetched` is None);
   * otherwise the ids the switches disable.
   */
  function DisabledTools(account: Option<AccountInfo>, fetched: Option<seq<SwitchRecord>>): seq<string>
  {
    var env := EnvVersion(account);
    if env == "develop" || env == "trial" then []
    else if fetched.None? then []
    else DisabledIds(fetched.value, CurrentVersion(account))
  }

  /** Development and trial builds, unreadable account info and a failed fetch all show every tool. */
  lemma NothingDisabledOutsideRelease(account: Option<AccountInfo>, fetched: Option<seq<SwitchRecord>>)
    ensures account.None? ==> DisabledTools(account, fetched) == []
    ensures EnvVersion(account) in {"develop", "trial"} ==> DisabledTools(account, fetched) == []
    ensures fetched.None? ==> DisabledTools(account, fetched) == []
  {
  }

  /** In a release build a tool is disabled exactly when some switch of it disables it; only switch-controlled tools can be. */
  lemma DisabledInRelease(account: Option<AccountInfo>, switches: seq<SwitchRecord>, t: string)
    requires EnvVersion(account) !in {"develop", "trial"}
    ensures t in DisabledTools(account, Some(switches)) <==>
              t in SwitchControlledTools
              && exists k :: 0 <= k < |switches| && switches[k].toolId == t
                   && (switches[k].enabled == Some(false)
                       || (switches[k].reviewVersion.Some? && switches[k].reviewVersion.value != ""
                           && switches[k].reviewVersion.value == CurrentVersion(account)))
  {
  }

  // ---- filtering the catalogue ------------------------------------------

  /** `getAvailableTools`: the catalogue without the disabled ids. */
  function AvailableTools(catalogue: seq<Tool>, disabled: seq<string>): (tools: seq<Tool>)
    ensures forall t :: t in tools <==> t in catalogue && t.id !in disabled
  {
    Keep(catalogue, (t: Tool) => t.id !in disabled)
  }

  /** The available tools keep the catalogue order. */
  lemma AvailableToolsInOrder(catalogue: seq<Tool>, disabled: seq<string>)
    ensures SubsequenceOf(AvailableTools(catalogue, disabled), catalogue)
  {
    KeepIsSubsequence(catalogue, (t: Tool) => t.id !in disabled);
  }

  /** The keyword test: the lower-cased name or description contains the keyword. */
  predicate MatchesKeyword(t: Tool, keyword: string)
  {
    Includes(AsciiLower(t.name), keyword) || Includes(AsciiLower(t.description), keyword)
  }

  function ByCategory(tools: seq<Tool>, category: string): (r: seq<Tool>)
    ensures forall t :: t in r <==> t in tools && (category != "" ==> t.category == category)
  {
    if category != "" then Keep(tools, (t: Tool) => t.category == category) else tools
  }

  function BySearch(tools: seq<Tool>, searchValue: string): (r: seq<Tool>)
    ensures forall t :: t in r <==> t in tools && (searchValue != "" ==> MatchesKeyword(t, AsciiLower(searchValue)))
  {
    if searchValue != "" then Keep(tools, (t: Tool) => MatchesKeyword(t, AsciiLower(searchValue))) else tools
  }

  /** The tools `filterToolsWithFavorites` keeps, before they are annotated. */
  function Selected(catalogue: seq<Tool>, searchValue: string, category: string, disabled: seq<string>): (r: seq<Tool>)
    ensures forall t :: t in r <==>
              && t in AvailableTools(catalogue, disabled)
              && (category != "" ==> t.category == category)
              && (searchValue != "" ==> MatchesKeyword(t, AsciiLower(searchValue)))
  {
    BySearch(ByCategory(AvailableTools(catalogue, disabled), category), searchValue)
  }

  /** A tool as listed, with `isFavorite`. */
  datatype ShownTool = ShownTool(tool: Tool, isFavorite: bool)

  function Annotate(tools: seq<Tool>, favorites: seq<string>): (r: seq<ShownTool>)
    ensures |r| == |tools|
    ensures forall k :: 0 <= k < |r| ==> r[k].tool == tools[k] && (r[k].isFavorite <==> tools[k].id in favorites)
  {
    seq(|tools|, k requires 0 <= k < |tools| => ShownTool(tools[k], tools[k].id in favorites))
  }

  function ShownTools(r: seq<ShownTool>): (tools: seq<Tool>)
    ensures |tools| == |r|
    ensures forall k :: 0 <= k < |r| ==> tools[k] == r[k].tool
  {
    seq(|r|, k requires 0 <= k < |r| => r[k].tool)
  }

  /** `filterToolsWithFavorites`. */
  function FilterToolsWithFavorites(catalogue: seq<Tool>, searchValue: string, category: string,
                                    favorites: seq<string>, disabled: seq<string>)
    : (r: seq<ShownTool>)
    ensures forall k :: 0 <= k < |r| ==> (r[k].isFavorite <==> r[k].tool.id in favorites)
    ensures forall t :: t in ShownTools(r) <==>
              && t in AvailableTools(catalogue, disabled)
              && (category != "" ==> t.category == category)
              && (searchValue != "" ==> MatchesKeyword(t, AsciiLower(searchValue)))
  {
    var selected := Selected(catalogue, searchValue, category, disabled);
    var r := Annotate(selected, favorites);
    assert ShownTools(r) == selected;
    r
  }

  lemma ByCategoryInOrder(tools: seq<Tool>, category: string)
    ensures SubsequenceOf(ByCategory(tools, category), tools)
  {
    if category != "" {
      KeepIsSubsequence(tools, (t: Tool) => t.category == category);
    } else {
      SubsequenceOfSelf(tools);
    }
  }

  lemma BySearchInOrder(tools: seq<Tool>, searchValue: string)
    ensures SubsequenceOf(BySearch(tools, searchValue), tools)
  {
    if searchValue != "" {
      KeepIsSubsequence(tools, (t: Tool) => MatchesKeyword(t, AsciiLower(searchValue)));
    } else {
      SubsequenceOfSelf(tools);
    }
  }

  /** A subsequence of a subsequence is a subsequence. */
  lemma {:induction false} SubsequenceTransitive<T>(a: seq<T>, b: seq<T>, c: seq<T>)
    requires SubsequenceOf(a, b) && SubsequenceOf(b, c)
    ensures SubsequenceOf(a, c)
    decreases |c|
  {
    if a != [] {
      assert b != [] && c != [];
      if b[0] == c[0] {
        if a[0] == b[0] {
          SubsequenceTransitive(a[1..], b[1..], c[1..]);
        } else {
          SubsequenceTransitive(a, b[1..], c[1..]);
        }
      } else {
        SubsequenceTransitive(a, b, c[1..]);
        if a[0] == c[0] {
          SubsequenceDropHead(a, c[1..]);
        }
      }
    }
  }

  /** The filtered list keeps the order of the available tools. */
  lemma FilteredInOrder(catalogue: seq<Tool>, searchValue: string, category: string,
                        favorites: seq<string>, disabled: seq<string>)
    ensures SubsequenceOf(ShownTools(FilterToolsWithFavorites(catalogue, searchValue, category, favorites, disabled)),
                          AvailableTools(catalogue, disabled))
  {
    var avail := AvailableTools(catalogue, disabled);
    var byCat := ByCategory(avail, category);
    var selected := BySearch(byCat, searchValue);
    assert ShownTools(Annotate(selected, favorites)) == selected;
    ByCategoryInOrder(avail, category);
    BySearchInOrder(byCat, searchValue);
    SubsequenceTransitive(selected, byCat, avail);
  }

  lemma {:induction false} SubsequenceOfSelf<T>(s: seq<T>)
    ensures SubsequenceOf(s, s)
  {
    if s != [] {
      SubsequenceOfSelf(s[1..]);
    }
  }

  /** With no keyword and no category every available tool is listed, in order. */
  lemma NoFilterListsAll(catalogue: seq<Tool>, favorites: seq<string>, disabled: seq<string>)
    ensures ShownTools(FilterToolsWithFavorites(catalogue, "", "", favorites, disabled)) == AvailableTools(catalogue, disabled)
  {
    var selected := Selected(catalogue, "", "", disabled);
    assert ShownTools(Annotate(selected, favorites)) == selected;
  }

  // ---- relative time ----------------------------------------------------

  /** The buckets of `formatRelativeTime`; past a week the calendar date is shown. */
  datatype RelativeTime = JustNow | MinutesAgo(minutes: int) | HoursAgo(hours: int) | DaysAgo(days: int) | OnDate(timestamp: int)

  const MinuteMs: int := 60000
  const HourMs: int := 3600000
  const DayMs: int := 86400000

  /**
   * `formatRelativeTime`: the elapsed milliseconds, floored to minutes,
   * hours or days (a timestamp in the future is "just now").
   */
  function FormatRelativeTime(now: int, timestamp: int): (r: RelativeTime)
    ensures r == JustNow <==> now - timestamp < MinuteMs
    ensures r.MinutesAgo? <==> MinuteMs <= now - timestamp < HourMs
    ensures r.HoursAgo? <==> HourMs <= now - timestamp < DayMs
    ensures r.DaysAgo? <==> DayMs <= now - timestamp < 7 * DayMs
    ensures r.OnDate? <==> 7 * DayMs <= now - timestamp
    ensures r.MinutesAgo? ==> 1 <= r.minutes < 60 && r.minutes * MinuteMs <= now - timestamp < (r.minutes + 1) * MinuteMs
    ensures r.HoursAgo? ==> 1 <= r.hours < 24 && r.hours * HourMs <= now - timestamp < (r.hours + 1) * HourMs
    ensures r.DaysAgo? ==> 1 <= r.days < 7 && r.days * DayMs <= now - timestamp < (r.days + 1) * DayMs
  {
    var diff := now - timestamp;
    var minutes := diff / MinuteMs;
    var hours := diff / HourMs;
    var days := diff / DayMs;
    if minutes < 1 then JustNow
    else if minutes < 60 then MinutesAgo(minutes)
    else if hours < 24 then HoursAgo(hours)
    else if days < 7 then DaysAgo(days)
    else OnDate(timestamp)
  }

  /** Older uses never land in a finer bucket. */
  lemma RelativeTimeMonotone(now: int, older: int, newer: int)
    requires older <= newer
    ensures FormatRelativeTime(now, older) == JustNow ==> FormatRelativeTime(now, newer) == JustNow
    ensures FormatRelativeTime(now, older).MinutesAgo? && FormatRelativeTime(now, newer).MinutesAgo? ==>
              FormatRelativeTime(now, newer).minutes <= FormatRelativeTime(now, older).minutes
  {
  }

  // ---- colours ----------------------------------------------------------

  /** The active colour of a category; the default blue for "all" and anything unknown. */
  function CategoryColor(category: string): (color: string)
    ensures color == DefaultColor <==> category !in {"finance", "image", "life"}
  {
    if category == "finance" then "#e53e3e"
    else if category == "image" then "#ed7b2f"
    else if category == "life" then "#00a870"
    else DefaultColor
  }

  /** The colour after switching to a tab: the category's colour on the tools tab, blue elsewhere. */
  function TabColor(tab: string, category: string): (color: string)
    ensures tab != "tools" ==> color == DefaultColor
    ensures tab == "tools" ==> color == CategoryColor(category)
  {
    if tab == "tools" then CategoryColor(category) else DefaultColor
  }

  // ---- the page ---------------------------------------------------------

  /** A stored recent use: the tool and when it was used. */
  datatype RecentUse = RecentUse(toolId: string, useTime: int)

  datatype FormattedUse = FormattedUse(use: RecentUse, relativeTime: RelativeTime, isFavorite: bool)

  /** The stored uses whose tool is not disabled, in stored order. */
  function EnabledUses(uses: seq<RecentUse>, disabled: seq<string>): (r: seq<RecentUse>)
    ensures SubsequenceOf(r, uses)
    ensures forall u :: u in r <==> u in uses && u.toolId !in disabled
    ensures forall u :: multiset(r)[u] == if u.toolId !in disabled then multiset(uses)[u] else 0
  {
    KeepIsSubsequence(uses, (u: RecentUse) => u.toolId !in disabled);
    KeepCounts(uses, (u: RecentUse) => u.toolId !in disabled);
    Keep(uses, (u: RecentUse) => u.toolId !in disabled)
  }

  /** Each kept use with its relative time and favourite mark, in order. */
  function Formatted(kept: seq<RecentUse>, favorites: seq<string>, now: int): (r: seq<FormattedUse>)
    ensures |r| == |kept|
    ensures forall k :: 0 <= k < |r| ==>
              && r[k].use == kept[k]
              && r[k].relativeTime == FormatRelativeTime(now, kept[k].useTime)
              && (r[k].isFavorite <==> kept[k].toolId in favorites)
  {
    seq(|kept|, k requires 0 <= k < |kept| =>
      FormattedUse(kept[k], FormatRelativeTime(now, kept[k].useTime), kept[k].toolId in favorites))
  }

  /**
   * The recent uses `initPageData` lists: one per stored use whose tool is
   * not disabled, in stored order, formatted.
   */
  function PrunedUses(uses: seq<RecentUse>, disabled: seq<string>, favorites: seq<string>, now: int)
    : (r: seq<FormattedUse>)
    ensures |r| == |EnabledUses(uses, disabled)|
    ensures forall k :: 0 <= k < |r| ==> r[k].use == EnabledUses(uses, disabled)[k]
    ensures forall k :: 0 <= k < |r| ==> r[k].use.toolId !in disabled && r[k].use in uses
    ensures forall k :: 0 <= k < |r| ==>
              r[k].relativeTime == FormatRelativeTime(now, r[k].use.useTime)
              && (r[k].isFavorite <==> r[k].use.toolId in favorites)
    ensures forall u :: u in uses && u.toolId !in disabled ==> exists k :: 0 <= k < |r| && r[k].use == u
  {
    var kept := EnabledUses(uses, disabled);
    var r := Formatted(kept, favorites, now);
    forall u | u in kept
      ensures exists k :: 0 <= k < |r| && r[k].use == u
    {
      var k :| 0 <= k < |kept| && kept[k] == u;
      assert r[k].use == u;
    }
    assert forall k :: 0 <= k < |r| ==> r[k].use == kept[k] && kept[k] in kept;
    r
  }

  class IndexPage {
    /** `TOOLS`, which every filter starts from. */
    const catalogue: seq<Tool>
    var currentCategory: string
    var tools: seq<Tool>
    var filteredTools: seq<ShownTool>
    var searchValue: string
    var currentTab: string
    var favorites: seq<string>
    var recentUses: seq<FormattedUse>
    var activeColor: string
    var disabledTools: seq<string>

    /** The page's initial `data`. */
    constructor ()
      ensures catalogue == Tools
      ensures currentCategory == "" && tools == Tools && filteredTools == Annotate(Tools, [])
      ensures searchValue == "" && currentTab == "tools" && favorites == [] && recentUses == []
      ensures activeColor == DefaultColor && disabledTools == []
    {
      catalogue := Tools;
      currentCategory := "";
      tools := Tools;
      filteredTools := Annotate(Tools, []);
      searchValue := "";
      currentTab := "tools";
      favorites := [];
      recentUses := [];
      activeColor := DefaultColor;
      disabledTools := [];
    }

    /**
     * `loadToolsSwitch`: `account` is what the account-info call reports
     * (None when it throws), `fetched` the `tools_switch` rows (None when
     * the read fails).
     */
    method LoadToolsSwitch(account: Option<AccountInfo>, fetched: Option<seq<SwitchRecord>>)
      modifies this`disabledTools
      ensures disabledTools == DisabledTools(account, fetched)
    {
      var currentVersion := "";
      var envVersion := "develop";
      if account.Some? {
        currentVersion := account.value.version;
        envVersion := if account.value.envVersion != "" then account.value.envVersion else "develop";
      }
      if envVersion == "develop" || envVersion == "trial" {
        disabledTools := [];
        return;
      }
      if fetched.None? {
        disabledTools := [];
        return;
      }
      var switches := fetched.value;
      var ids: seq<string> := [];
      var k := |switches|;
      while k > 0
        invariant 0 <= k <= |switches|
        invariant ids == DisabledIds(switches[k..], currentVersion)
      {
        k := k - 1;
        assert switches[k..][1..] == switches[k + 1..];
        if Disables(switches[k], currentVersion) {
          ids := [switches[k].toolId] + ids;
        }
      }
      disabledTools := ids;
    }

    /**
     * `initPageData`: the available tools, annotated with the stored
     * favourites, and the recent uses of tools that are not disabled;
     * three or more of those make "recent" the current tab.
     */
    method InitPageData(storedFavorites: seq<string>, storedUses: seq<RecentUse>, now: int)
      modifies this`favorites, this`recentUses, this`filteredTools, this`tools, this`currentTab
      ensures favorites == storedFavorites
      ensures tools == AvailableTools(catalogue, disabledTools)
      ensures filteredTools == Annotate(AvailableTools(catalogue, disabledTools), storedFavorites)
      ensures recentUses == PrunedUses(storedUses, disabledTools, storedFavorites, now)
      ensures currentTab == if |recentUses| >= 3 then "recent" else old(currentTab)
    {
      var available := AvailableTools(catalogue, disabledTools);
      var formattedUses := PrunedUses(storedUses, disabledTools, storedFavorites, now);
      favorites := storedFavorites;
      recentUses := formattedUses;
      filteredTools := Annotate(available, storedFavorites);
      tools := available;
      if |formattedUses| >= 3 {
        currentTab := "recent";
      }
    }

    /** `onTabItemTap`: tapping the current tab changes nothing; another tab becomes current with its colour. */
    method OnTabItemTap(tab: string)
      modifies this`currentTab, this`activeColor
      ensures tab == old(currentTab) ==> currentTab == old(currentTab) && activeColor == old(activeColor)
      ensures tab != old(currentTab) ==> currentTab == tab && activeColor == TabColor(tab, currentCategory)
    {
      if tab == currentTab {
        return;
      }
      var color := DefaultColor;
      if tab == "tools" {
        color := CategoryColor(currentCategory);
      }
      currentTab := tab;
      activeColor := color;
    }

    /** `onCategoryChange`: the category, its colour and the list filtered by it. */
    method OnCategoryChange(category: string)
      modifies this`currentCategory, this`filteredTools, this`activeColor
      ensures currentCategory == category && activeColor == CategoryColor(category)
      ensures filteredTools == FilterToolsWithFavorites(catalogue, searchValue, category, favorites, disabledTools)
    {
      currentCategory := category;
      filteredTools := FilterToolsWithFavorites(catalogue, searchValue, category, favorites, disabledTools);
      activeColor := CategoryColor(category);
    }
  }
}
