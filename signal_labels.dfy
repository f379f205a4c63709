/**
 * The signal labeller of the stock-signal page: a signal-type token (or an
 * already readable label) becomes the label shown to the user.
 */
module SignalLabels {
  import opened Wrappers
  import opened Text

  /** `SIGNAL_TYPE_MAP`, in declaration order (the order `Object.entries` walks it). */
  const SignalTypeMap: seq<(string, string)> := [
    ("kdj_oversold", "KDJ超卖"),
    ("kdj_overbought", "KDJ超买"),
    ("dmi_adx_strong", "ADX强势"),
    ("dmi_adx_weak", "ADX弱势"),
    ("kdj_golden_cross", "KDJ金叉"),
    ("kdj_death_cross", "KDJ死叉"),
    ("rsi_golden_cross", "RSI金叉"),
    ("rsi_death_cross", "RSI死叉"),
    ("rsi_oversold", "RSI超卖"),
    ("rsi_overbought", "RSI超买"),
    ("cci_zero_cross", "CCI零轴上穿"),
    ("cci_zero_down", "CCI零轴下穿"),
    ("cci_oversold", "CCI超卖"),
    ("cci_overbought", "CCI超买"),
    ("roc_zero_cross", "ROC零轴上穿"),
    ("roc_zero_down", "ROC零轴下穿"),
    ("macd_golden_cross", "MACD金叉"),
    ("macd_death_cross", "MACD死叉"),
    ("boll_lower", "布林下轨"),
    ("boll_upper", "布林上轨"),
    ("boll_middle", "布林中轨"),
    ("boll_width_expand", "BOLL带宽扩张"),
    ("boll_bottom_touch", "BOLL下轨支撑"),
    ("boll_top_touch", "BOLL上轨压力"),
    ("ma_golden_cross", "均线金叉"),
    ("ma_death_cross", "均线死叉"),
    ("ma_support", "MA20支撑"),
    ("ma_resistance", "MA20阻力"),
    ("volume_surge", "成交量放大"),
    ("volume_shrink", "成交量萎缩"),
    ("price_breakthrough", "价格突破"),
    ("support_line", "支撑线"),
    ("resistance_line", "阻力线")
  ]

  /**
   * Every key is a lower-case ASCII token: no upper-case letter and no CJK
   * character. Checked in slices of the table so that each proof stays small.
   */
  predicate IsToken(k: string)
  {
    |k| > 0 && forall j :: 0 <= j < |k| ==> !IsCjk(k[j]) && !('A' <= k[j] <= 'Z')
  }

  lemma KeysAreTokens0()
    ensures forall i :: 0 <= i < 7 ==> IsToken(SignalTypeMap[i].0)
  {
  }

  lemma KeysAreTokens7()
    ensures forall i :: 7 <= i < 14 ==> IsToken(SignalTypeMap[i].0)
  {
  }

  lemma KeysAreTokens14()
    ensures forall i :: 14 <= i < 21 ==> IsToken(SignalTypeMap[i].0)
  {
  }

  lemma KeysAreTokens21()
    ensures forall i :: 21 <= i < 27 ==> IsToken(SignalTypeMap[i].0)
  {
  }

  lemma KeysAreTokens27()
    ensures forall i :: 27 <= i < 33 ==> IsToken(SignalTypeMap[i].0)
  {
  }

  lemma KeysAreTokens()
    ensures forall i :: 0 <= i < |SignalTypeMap| ==> IsToken(SignalTypeMap[i].0)
  {
    KeysAreTokens0(); KeysAreTokens7(); KeysAreTokens14(); KeysAreTokens21(); KeysAreTokens27();
  }

  lemma KeysAreDistinct()
    ensures forall i, j :: 0 <= i < j < |SignalTypeMap| ==> SignalTypeMap[i].0 != SignalTypeMap[j].0
  {
  }

  /** Every label in the table ends in a CJK character, so it is already readable. */
  lemma LabelsEndInCjk()
    ensures forall i :: 0 <= i < |SignalTypeMap| ==> |SignalTypeMap[i].1| > 0 && IsCjk(SignalTypeMap[i].1[|SignalTypeMap[i].1| - 1])
  {
  }

  lemma TokenIsLowerCase(k: string)
    requires IsToken(k)
    ensures AsciiLower(k) == k && !HasCjk(k)
  {
  }

  predicate IsLabel(v: string)
  {
    exists i :: 0 <= i < |SignalTypeMap| && SignalTypeMap[i].1 == v
  }

  /** The exact lookup `SIGNAL_TYPE_MAP[signalType]`: the first entry with that key. */
  function Lookup(entries: seq<(string, string)>, key: string): (r: Option<string>)
    ensures r.Some? ==> exists i :: 0 <= i < |entries| && entries[i] == (key, r.value)
    ensures r.None? ==> forall i :: 0 <= i < |entries| ==> entries[i].0 != key
  {
    if entries == [] then None
    else if entries[0].0 == key then Some(entries[0].1)
    else
      var r := Lookup(entries[1..], key);
      assert forall i :: 1 <= i < |entries| ==> entries[i] == entries[1..][i - 1];
      r
  }

  /** The loop over `Object.entries(SIGNAL_TYPE_MAP)` comparing lower-cased keys: the first hit. */
  function LookupIgnoringCase(entries: seq<(string, string)>, lower: string): (r: Option<string>)
    ensures r.Some? ==> exists i :: 0 <= i < |entries| && entries[i].1 == r.value && AsciiLower(entries[i].0) == lower
  {
    if entries == [] then None
    else if AsciiLower(entries[0].0) == lower then Some(entries[0].1)
    else
      var r := LookupIgnoringCase(entries[1..], lower);
      assert forall i :: 1 <= i < |entries| ==> entries[i] == entries[1..][i - 1];
      r
  }

  /** The labels the keyword heuristics can give. */
  const KeywordLabels: seq<string> := [
    "KDJ超卖", "KDJ超买", "KDJ金叉", "KDJ死叉", "RSI金叉", "RSI死叉",
    "MACD金叉", "MACD死叉", "ADX强势", "CCI零轴上穿", "ROC零轴上穿"
  ]

  /** The keyword heuristics, tried in source order on the lower-cased input. */
  function KeywordLabel(lower: string): (r: Option<string>)
    ensures r.Some? ==> r.value in KeywordLabels
  {
    if Includes(lower, "kdj") && Includes(lower, "oversold") then
      Some("KDJ超卖")
    else if Includes(lower, "kdj") && Includes(lower, "overbought") then
      Some("KDJ超买")
    else if Includes(lower, "kdj") && Includes(lower, "golden") then
      Some("KDJ金叉")
    else if Includes(lower, "kdj") && Includes(lower, "death") then
      Some("KDJ死叉")
    else if Includes(lower, "rsi") && Includes(lower, "golden") then
      Some("RSI金叉")
    else if Includes(lower, "rsi") && Includes(lower, "death") then
      Some("RSI死叉")
    else if Includes(lower, "macd") && Includes(lower, "golden") then
      Some("MACD金叉")
    else if Includes(lower, "macd") && Includes(lower, "death") then
      Some("MACD死叉")
    else if Includes(lower, "adx") && Includes(lower, "strong") then
      Some("ADX强势")
    else if Includes(lower, "cci") && Includes(lower, "zero") && Includes(lower, "cross") then
      Some("CCI零轴上穿")
    else if Includes(lower, "roc") && Includes(lower, "zero") && Includes(lower, "cross") then
      Some("ROC零轴上穿")
    else None
  }

  /** Each keyword label is a label of the table, and readable. */
  lemma KeywordLabelsInTable()
    ensures forall v :: v in KeywordLabels ==> IsLabel(v) && EndsInCjk(v)
  {
    assert SignalTypeMap[0].1 == KeywordLabels[0];
    assert SignalTypeMap[1].1 == KeywordLabels[1];
    assert SignalTypeMap[4].1 == KeywordLabels[2];
    assert SignalTypeMap[5].1 == KeywordLabels[3];
    assert SignalTypeMap[6].1 == KeywordLabels[4];
    assert SignalTypeMap[7].1 == KeywordLabels[5];
    assert SignalTypeMap[16].1 == KeywordLabels[6];
    assert SignalTypeMap[17].1 == KeywordLabels[7];
    assert SignalTypeMap[2].1 == KeywordLabels[8];
    assert SignalTypeMap[10].1 == KeywordLabels[9];
    assert SignalTypeMap[14].1 == KeywordLabels[10];
    LabelsEndInCjk();
  }

  predicate EndsInCjk(v: string)
  {
    |v| > 0 && IsCjk(v[|v| - 1])
  }

  /** What the labeller relies on in its table: lower-case token keys, distinct, and readable labels. */
  predicate WellFormedTable(table: seq<(string, string)>)
  {
    && (forall i :: 0 <= i < |table| ==> IsToken(table[i].0) && EndsInCjk(table[i].1))
    && (forall i, j :: 0 <= i < j < |table| ==> table[i].0 != table[j].0)
  }

  lemma SignalTypeMapWellFormed()
    ensures WellFormedTable(SignalTypeMap)
  {
    KeysAreTokens();
    KeysAreDistinct();
    LabelsEndInCjk();
  }

  /**
   * `getSignalTypeCN` over a given table: exact key, then an already readable
   * (CJK) label, then a case-insensitive key, then the keyword heuristics,
   * else the input itself. The empty string (JavaScript's falsy input) gives
   * the empty label.
   */
  function Resolve(table: seq<(string, string)>, signalType: string): string
  {
    if signalType == "" then ""
    else
      match Lookup(table, signalType)
      case Some(v) => v
      case None =>
        if HasCjk(signalType) then signalType
        else
          var lower := AsciiLower(signalType);
          match LookupIgnoringCase(table, lower)
          case Some(v) => v
          case None => KeywordLabel(lower).GetOr(signalType)
  }

  /** `getSignalTypeCN` with `SIGNAL_TYPE_MAP`. */
  function SignalTypeCN(signalType: string): (shown: string)
    ensures shown == "" <==> signalType == ""
    ensures shown == signalType || IsLabel(shown)
  {
    SignalTypeMapWellFormed();
    KeywordLabelsInTable();
    ResolveRange(SignalTypeMap, signalType);
    Resolve(SignalTypeMap, signalType)
  }

  lemma ResolveRange(table: seq<(string, string)>, s: string)
    requires WellFormedTable(table)
    ensures Resolve(table, s) == "" <==> s == ""
    ensures Resolve(table, s) == s || (exists i :: 0 <= i < |table| && table[i].1 == Resolve(table, s)) || KeywordLabel(AsciiLower(s)) == Some(Resolve(table, s))
  {
  }

  lemma LookupAt(table: seq<(string, string)>, i: int)
    requires WellFormedTable(table) && 0 <= i < |table|
    ensures Lookup(table, table[i].0) == Some(table[i].1)
  {
  }

  lemma {:induction false} LookupIgnoringCaseOfTokens(table: seq<(string, string)>, lower: string)
    requires WellFormedTable(table)
    ensures LookupIgnoringCase(table, lower) == Lookup(table, lower)
  {
    if table != [] {
      TokenIsLowerCase(table[0].0);
      assert forall i :: 1 <= i < |table| ==> table[1..][i - 1] == table[i];
      LookupIgnoringCaseOfTokens(table[1..], lower);
    }
  }

  lemma TokensAreNotReadable(table: seq<(string, string)>, s: string)
    requires WellFormedTable(table) && HasCjk(s)
    ensures forall i :: 0 <= i < |table| ==> table[i].0 != s
  {
    forall i | 0 <= i < |table|
      ensures table[i].0 != s
    {
      TokenIsLowerCase(table[i].0);
    }
  }

  lemma ResolveExactKey(table: seq<(string, string)>, i: int)
    requires WellFormedTable(table) && 0 <= i < |table|
    ensures Resolve(table, table[i].0) == table[i].1
  {
    LookupAt(table, i);
  }

  lemma ResolvePassesReadable(table: seq<(string, string)>, s: string)
    requires WellFormedTable(table) && HasCjk(s)
    ensures Resolve(table, s) == s
  {
    TokensAreNotReadable(table, s);
  }

  lemma ResolveIgnoresCase(table: seq<(string, string)>, s: string, i: int)
    requires WellFormedTable(table) && 0 <= i < |table| && AsciiLower(s) == table[i].0
    ensures Resolve(table, s) == table[i].1
  {
    TokenIsLowerCase(table[i].0);
    AsciiLowerKeepsCjk(s);
    LookupAt(table, i);
    LookupIgnoringCaseOfTokens(table, AsciiLower(s));
    forall j | 0 <= j < |table| && table[j].0 == s
      ensures s == table[i].0
    {
      TokenIsLowerCase(table[j].0);
    }
  }

  lemma ResolveKeywords(table: seq<(string, string)>, s: string)
    requires WellFormedTable(table) && s != "" && !HasCjk(s)
    requires forall i :: 0 <= i < |table| ==> AsciiLower(s) != table[i].0
    ensures Resolve(table, s) == KeywordLabel(AsciiLower(s)).GetOr(s)
  {
    LookupIgnoringCaseOfTokens(table, AsciiLower(s));
    forall j | 0 <= j < |table|
      ensures table[j].0 != s
    {
      TokenIsLowerCase(table[j].0);
    }
  }

  lemma ResolveIdempotent(table: seq<(string, string)>, s: string)
    requires WellFormedTable(table)
    ensures Resolve(table, Resolve(table, s)) == Resolve(table, s)
  {
    var shown := Resolve(table, s);
    if shown != s {
      ResolveRange(table, s);
      KeywordLabelsInTable();
      assert EndsInCjk(shown);
      ResolvePassesReadable(table, shown);
    }
  }

  /** A key of the table resolves to its own label (rule 1). */
  lemma ExactKeyResolves(i: int)
    requires 0 <= i < |SignalTypeMap|
    ensures SignalTypeCN(SignalTypeMap[i].0) == SignalTypeMap[i].1
  {
    SignalTypeMapWellFormed();
    ResolveExactKey(SignalTypeMap, i);
  }

  /** A label that already contains a CJK character is returned unchanged (rule 2): no key contains one. */
  lemma ReadableLabelPassesThrough(s: string)
    requires HasCjk(s)
    ensures SignalTypeCN(s) == s
  {
    SignalTypeMapWellFormed();
    ResolvePassesReadable(SignalTypeMap, s);
  }

  /** A token that matches a key up to ASCII case resolves to that key's label (rules 1 and 3). */
  lemma IgnoresCase(s: string, i: int)
    requires 0 <= i < |SignalTypeMap| && AsciiLower(s) == SignalTypeMap[i].0
    ensures SignalTypeCN(s) == SignalTypeMap[i].1
  {
    SignalTypeMapWellFormed();
    ResolveIgnoresCase(SignalTypeMap, s, i);
  }

  /**
   * A token without CJK characters that is no key in any case falls through to
   * the keyword heuristics, and is returned unchanged when none applies (rules 4 and 5).
   */
  lemma KeywordsOrPassThrough(s: string)
    requires s != "" && !HasCjk(s)
    requires forall i :: 0 <= i < |SignalTypeMap| ==> AsciiLower(s) != SignalTypeMap[i].0
    ensures SignalTypeCN(s) == KeywordLabel(AsciiLower(s)).GetOr(s)
  {
    SignalTypeMapWellFormed();
    ResolveKeywords(SignalTypeMap, s);
  }

  /** Labelling a label changes nothing: resolved labels survive a second pass untouched. */
  lemma LabelIdempotent(s: string)
    ensures SignalTypeCN(SignalTypeCN(s)) == SignalTypeCN(s)
  {
    SignalTypeMapWellFormed();
    ResolveIdempotent(SignalTypeMap, s);
  }

  /** Worked examples: a key of the table and an unknown token. */
  lemma ExampleKey()
    ensures SignalTypeCN("kdj_oversold") == "KDJ超卖"
  {
    ExactKeyResolves(0);
  }

  /** A lower-case token spelt without any of the letters k, r, m, a, c matches no keyword rule and is shown as is. */
  lemma UnknownTokenPassesThrough(s: string)
    requires IsToken(s) && 'k' !in s && 'r' !in s && 'm' !in s && 'a' !in s && 'c' !in s
    requires forall i :: 0 <= i < |SignalTypeMap| ==> s != SignalTypeMap[i].0
    ensures SignalTypeCN(s) == s
  {
    TokenIsLowerCase(s);
    MissingCharNotIncluded(s, "kdj", 'k');
    MissingCharNotIncluded(s, "rsi", 'r');
    MissingCharNotIncluded(s, "macd", 'm');
    MissingCharNotIncluded(s, "adx", 'a');
    MissingCharNotIncluded(s, "cci", 'c');
    MissingCharNotIncluded(s, "roc", 'r');
    KeywordsOrPassThrough(s);
  }

  lemma ExampleUnknownToken()
    ensures SignalTypeCN("xyz_foo") == "xyz_foo"
  {
    assert IsToken("xyz_foo");
    assert forall i :: 0 <= i < |SignalTypeMap| ==> "xyz_foo" != SignalTypeMap[i].0;
    UnknownTokenPassesThrough("xyz_foo");
  }
}
