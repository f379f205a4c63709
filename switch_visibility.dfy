/**
 * What a release build of the home page shows after each action of the
 * switch cloud function: the table operations of `ToolSwitch` read through
 * the rule of `ToolIndex.Disables`.
 */
module SwitchVisibility {
  import opened Wrappers
  import opened ToolSwitch
  import opened ToolIndex

  /** Tool `t` is hidden in a release build whose version is `version`, given the switch records. */
  predicate HiddenInRelease(records: seq<SwitchRecord>, t: string, version: string)
  {
    t in DisabledTools(Some(AccountInfo(version, "release")), Some(records))
  }

  /** Hidden exactly when some record of `t` disables it. */
  lemma HiddenIff(records: seq<SwitchRecord>, t: string, version: string)
    ensures HiddenInRelease(records, t, version) <==>
              exists k :: 0 <= k < |records| && records[k].toolId == t && Disables(records[k], version)
  {
  }

  /** With one record per tool, the record at `i` is the only one of its tool. */
  lemma HiddenByOnlyRecord(records: seq<SwitchRecord>, t: string, version: string, i: nat)
    requires UniqueToolIds(records) && i < |records| && records[i].toolId == t
    ensures HiddenInRelease(records, t, version) <==> Disables(records[i], version)
  {
    HiddenIff(records, t, version);
    assert forall k :: 0 <= k < |records| && k != i ==> records[k].toolId != t;
  }

  /** In a release build, `disable(t)` hides a switch-controlled tool `t`, whatever the version. */
  lemma DisableHides(records: seq<SwitchRecord>, t: string, version: string)
    requires UniqueDocIds(records) && t in SwitchControlledTools
    ensures HiddenInRelease(AfterSetEnabled(records, t, false), t, version)
  {
    var after := AfterSetEnabled(records, t, false);
    SetEnabledEffect(records, t, false);
    var i := FirstMatch(after, t).value;
    assert Disables(after[i], version);
    HiddenIff(after, t, version);
  }

  /**
   * `set_review(t, v)` hides a switch-controlled tool `t` in exactly the
   * release builds whose version is `v`, on a table with one record per
   * tool (every table this function builds, `BuiltTableInvariants`).
   */
  lemma SetReviewHidesExactly(records: seq<SwitchRecord>, t: string, v: string, version: string)
    requires UniqueDocIds(records) && UniqueToolIds(records)
    requires t in SwitchControlledTools && v != ""
    ensures HiddenInRelease(AfterSetReview(records, t, v), t, version) <==> version == v
  {
    var after := AfterSetReview(records, t, v);
    SetReviewEffect(records, t, v);
    match FirstMatch(records, t)
    case Some(i) =>
      UpdateKeepsUniqueToolIds(records, i, after[i]);
    case None =>
      SetDocKeepsUniqueToolIds(records, SwitchRecord(t, t, Some(true), Some(v)));
    HiddenByOnlyRecord(after, t, version, FirstMatch(after, t).value);
  }

  /** `clear_review(t)` makes `t` visible in every release build, on a table with one record per tool. */
  lemma ClearReviewShows(records: seq<SwitchRecord>, t: string, version: string)
    requires UniqueDocIds(records) && UniqueToolIds(records)
    ensures !HiddenInRelease(AfterClearReview(records, t), t, version)
  {
    var after := AfterClearReview(records, t);
    ClearReviewEffect(records, t);
    match FirstMatch(records, t)
    case Some(i) =>
      UpdateKeepsUniqueToolIds(records, i, after[i]);
      HiddenByOnlyRecord(after, t, version, i);
    case None =>
      HiddenIff(after, t, version);
  }

  /** `enable(t)` makes `t` visible in every release build, on a table with one record per tool. */
  lemma EnableShows(records: seq<SwitchRecord>, t: string, version: string)
    requires UniqueDocIds(records) && UniqueToolIds(records)
    ensures !HiddenInRelease(AfterSetEnabled(records, t, true), t, version)
  {
    var after := AfterSetEnabled(records, t, true);
    SetEnabledEffect(records, t, true);
    match FirstMatch(records, t)
    case Some(i) =>
      UpdateKeepsUniqueToolIds(records, i, after[i]);
      HiddenByOnlyRecord(after, t, version, i);
    case None =>
      HiddenIff(after, t, version);
  }

  /**
   * On a table edited outside this function a tool can have two records.
   * `clear_review` and `enable` update only the first, so a second record
   * with `enabled: false` keeps the tool hidden.
   */
  lemma SecondRecordKeepsToolHidden()
    ensures var records := [SwitchRecord("stock-signals", "stock-signals", Some(true), Some("1.0")),
                            SwitchRecord("other", "stock-signals", Some(false), None)];
            && HiddenInRelease(AfterClearReview(records, "stock-signals"), "stock-signals", "2.0")
            && HiddenInRelease(AfterSetEnabled(records, "stock-signals", true), "stock-signals", "2.0")
  {
    var records := [SwitchRecord("stock-signals", "stock-signals", Some(true), Some("1.0")),
                    SwitchRecord("other", "stock-signals", Some(false), None)];
    var cleared := AfterClearReview(records, "stock-signals");
    var enabled := AfterSetEnabled(records, "stock-signals", true);
    assert cleared[1] == records[1] && Disables(records[1], "2.0");
    assert enabled[1] == records[1];
    HiddenIff(cleared, "stock-signals", "2.0");
    HiddenIff(enabled, "stock-signals", "2.0");
  }

  /** `after` differs from `before` only in records of tool `t`, and whatever it adds is of tool `t`. */
  predicate OnlyToolChanged(before: seq<SwitchRecord>, after: seq<SwitchRecord>, t: string)
  {
    && |before| <= |after|
    && (forall k :: 0 <= k < |before| && before[k].toolId != t ==> after[k] == before[k])
    && (forall k :: 0 <= k < |before| && before[k].toolId == t ==> after[k].toolId == t)
    && (forall k :: |before| <= k < |after| ==> after[k].toolId == t)
  }

  /** No document's `_id` names `t` unless it is `t`'s own switch (the `_id` a new switch gets). */
  predicate DocIdNamesTool(records: seq<SwitchRecord>, t: string)
  {
    forall k :: 0 <= k < |records| && records[k].docId == t ==> records[k].toolId == t
  }

  /** Every action on `t` changes only records of `t`. */
  lemma DispatchOnlyChangesTool(records: seq<SwitchRecord>, req: Request)
    requires DocIdNamesTool(records, req.toolId)
    ensures OnlyToolChanged(records, Dispatch(records, req).1, req.toolId)
  {
    var t := req.toolId;
    var after := Dispatch(records, req).1;
    if after != records {
      match FirstMatch(records, t)
      case Some(i) =>
        assert |after| == |records|;
        assert forall k :: 0 <= k < |records| && k != i ==> after[k] == records[k];
      case None =>
    }
  }

  /** No action on `t` changes whether another tool is shown. */
  lemma OtherToolsUnaffected(records: seq<SwitchRecord>, req: Request, u: string, version: string)
    requires DocIdNamesTool(records, req.toolId) && u != req.toolId
    ensures HiddenInRelease(Dispatch(records, req).1, u, version) <==> HiddenInRelease(records, u, version)
  {
    var after := Dispatch(records, req).1;
    DispatchOnlyChangesTool(records, req);
    HiddenIff(records, u, version);
    HiddenIff(after, u, version);
    if k :| 0 <= k < |after| && after[k].toolId == u && Disables(after[k], version) {
      assert k < |records| && records[k] == after[k];
    }
    if k :| 0 <= k < |records| && records[k].toolId == u && Disables(records[k], version) {
      assert after[k] == records[k];
    }
  }

  /**
   * On a table that only this function has written, the actions do what
   * their messages say: `clear_review` and `enable` show the tool in every
   * release build, `set_review(t, v)` hides it in exactly the release
   * builds of version `v`, and no action changes another tool.
   */
  lemma ActionsOnBuiltTable(reqs: seq<Request>, t: string, v: string, version: string, req: Request, u: string)
    ensures var built := Run([], reqs);
            && !HiddenInRelease(AfterClearReview(built, t), t, version)
            && !HiddenInRelease(AfterSetEnabled(built, t, true), t, version)
            && (t in SwitchControlledTools && v != "" ==>
                  (HiddenInRelease(AfterSetReview(built, t, v), t, version) <==> version == v))
            && (u != req.toolId ==>
                  (HiddenInRelease(Dispatch(built, req).1, u, version) <==> HiddenInRelease(built, u, version)))
  {
    var built := Run([], reqs);
    BuiltTableInvariants(reqs);
    ClearReviewShows(built, t, version);
    EnableShows(built, t, version);
    if t in SwitchControlledTools && v != "" {
      SetReviewHidesExactly(built, t, v, version);
    }
    if u != req.toolId {
      OtherToolsUnaffected(built, req, u, version);
    }
  }
}
