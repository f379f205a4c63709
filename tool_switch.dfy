/**
 * The `manageToolSwitch` cloud function: a small command interpreter over
 * the `tools_switch` collection. Every action reads the records of one
 * `tool_id` and writes at most one record.
 *
 * A record's `enabled` and `review_version` fields may be absent (None);
 * a missing request parameter is the empty string, as `!tool_id` sees it.
 */
module ToolSwitch {
  import opened Wrappers

  /** A `tools_switch` document: its `_id`, `tool_id`, `enabled` and `review_version`. */
  datatype SwitchRecord = SwitchRecord(
    docId: string,
    toolId: string,
    enabled: Option<bool>,
    reviewVersion: Option<string>)

  /** The request: `action`, `tool_id` and `version`. */
  datatype Request = Request(action: string, toolId: string, version: string)

  /** What `main` returns: a message, the listing of `list`, or `success: false` with an error. */
  datatype Response =
    | Done(message: string)
    | Listing(data: seq<SwitchRecord>, count: nat)
    | Failure(error: string)
  {
    predicate Success()
    {
      !Failure?
    }
  }

  const MissingToolOrVersion := "缺少 tool_id 或 version 参数"
  const MissingTool := "缺少 tool_id 参数"
  const UnknownAction := "未知的 action，支持: list, set_review, clear_review, disable, enable"

  /** The position of the first record of a tool, as `where({ tool_id }).get()` lists them. */
  function FirstMatch(records: seq<SwitchRecord>, toolId: string): (r: Option<nat>)
    ensures r.None? <==> forall k :: 0 <= k < |records| ==> records[k].toolId != toolId
    ensures r.Some? ==> r.value < |records| && records[r.value].toolId == toolId
    ensures r.Some? ==> forall k :: 0 <= k < r.value ==> records[k].toolId != toolId
  {
    if records == [] then None
    else if records[0].toolId == toolId then Some(0)
    else match FirstMatch(records[1..], toolId)
      case None => None
      case Some(k) => Some(k + 1)
  }

  /** Some document has `_id == id`. */
  predicate HasDoc(records: seq<SwitchRecord>, id: string)
  {
    exists k :: 0 <= k < |records| && records[k].docId == id
  }

  /**
   * `doc(id).set(...)`: the document with `_id == id` is replaced whole,
   * or, when there is none, added at the end.
   */
  function SetDoc(records: seq<SwitchRecord>, rec: SwitchRecord): (r: seq<SwitchRecord>)
    ensures |r| == if HasDoc(records, rec.docId) then |records| else |records| + 1
    ensures forall k :: 0 <= k < |records| ==> r[k] == if records[k].docId == rec.docId then rec else records[k]
    ensures !HasDoc(records, rec.docId) ==> r[|records|] == rec
  {
    if HasDoc(records, rec.docId) then
      seq(|records|, k requires 0 <= k < |records| => if records[k].docId == rec.docId then rec else records[k])
    else records + [rec]
  }

  /** `setReviewVersion`: the first record gets the version and `enabled: true`, or a record `_id = tool_id` is set. */
  function AfterSetReview(records: seq<SwitchRecord>, toolId: string, version: string): seq<SwitchRecord>
  {
    match FirstMatch(records, toolId)
    case Some(i) => records[i := records[i].(reviewVersion := Some(version), enabled := Some(true))]
    case None => SetDoc(records, SwitchRecord(toolId, toolId, Some(true), Some(version)))
  }

  /** `clearReviewVersion`: the first record loses its version and is enabled; no record, no write. */
  function AfterClearReview(records: seq<SwitchRecord>, toolId: string): seq<SwitchRecord>
  {
    match FirstMatch(records, toolId)
    case Some(i) => records[i := records[i].(reviewVersion := None, enabled := Some(true))]
    case None => records
  }

  /**
   * `setEnabled`: the first record gets `enabled` and loses its version;
   * with no record, enabling writes nothing and disabling sets a record
   * `_id = tool_id` with `enabled: false`.
   */
  function AfterSetEnabled(records: seq<SwitchRecord>, toolId: string, enabled: bool): seq<SwitchRecord>
  {
    match FirstMatch(records, toolId)
    case Some(i) => records[i := records[i].(enabled := Some(enabled), reviewVersion := None)]
    case None =>
      if enabled then records
      else SetDoc(records, SwitchRecord(toolId, toolId, Some(false), None))
  }

  /** `after` differs from `before` in at most one record, possibly one appended at the end. */
  predicate TouchesAtMostOne(before: seq<SwitchRecord>, after: seq<SwitchRecord>)
  {
    && |before| <= |after| <= |before| + 1
    && exists j :: 0 <= j <= |before| && Outside(before, after, j)
  }

  /** Every record of `before` but the one at `j` is unchanged in `after`. */
  predicate Outside(before: seq<SwitchRecord>, after: seq<SwitchRecord>, j: nat)
    requires |before| <= |after|
  {
    forall k :: 0 <= k < |before| && k != j ==> after[k] == before[k]
  }

  lemma UnchangedTouchesNone(records: seq<SwitchRecord>)
    ensures TouchesAtMostOne(records, records)
  {
    assert Outside(records, records, 0);
  }

  lemma UpdateTouchesOne(records: seq<SwitchRecord>, i: nat, rec: SwitchRecord)
    requires i < |records|
    ensures TouchesAtMostOne(records, records[i := rec])
  {
    assert Outside(records, records[i := rec], i);
  }

  /** The `_id`s are unique, as in any collection. */
  predicate UniqueDocIds(records: seq<SwitchRecord>)
  {
    forall a, b :: 0 <= a < b < |records| ==> records[a].docId != records[b].docId
  }

  /** No tool has two records. */
  predicate UniqueToolIds(records: seq<SwitchRecord>)
  {
    forall a, b :: 0 <= a < b < |records| ==> records[a].toolId != records[b].toolId
  }

  lemma UpdateKeepsUniqueToolIds(records: seq<SwitchRecord>, i: nat, rec: SwitchRecord)
    requires UniqueToolIds(records) && i < |records| && rec.toolId == records[i].toolId
    ensures UniqueToolIds(records[i := rec])
  {
    var after := records[i := rec];
    assert forall k :: 0 <= k < |records| ==> after[k].toolId == records[k].toolId;
  }

  /** Setting the record of a tool that had none keeps one record per tool. */
  lemma SetDocKeepsUniqueToolIds(records: seq<SwitchRecord>, rec: SwitchRecord)
    requires UniqueDocIds(records) && UniqueToolIds(records)
    requires FirstMatch(records, rec.toolId).None?
    ensures UniqueToolIds(SetDoc(records, rec))
  {
    var after := SetDoc(records, rec);
    forall a, b | 0 <= a < b < |after|
      ensures after[a].toolId != after[b].toolId
    {
      var changedA := a == |records| || records[a].docId == rec.docId;
      var changedB := b == |records| || records[b].docId == rec.docId;
      assert !(changedA && changedB);
      if changedA {
        assert after[b] == records[b];
      } else if changedB {
        assert after[a] == records[a];
      } else {
        assert after[a] == records[a] && after[b] == records[b];
      }
    }
  }

  /** With unique `_id`s, setting a document writes one record and keeps the `_id`s unique. */
  lemma SetDocTouchesOne(records: seq<SwitchRecord>, rec: SwitchRecord)
    requires UniqueDocIds(records)
    ensures TouchesAtMostOne(records, SetDoc(records, rec))
    ensures UniqueDocIds(SetDoc(records, rec))
  {
    var r := SetDoc(records, rec);
    if HasDoc(records, rec.docId) {
      var j :| 0 <= j < |records| && records[j].docId == rec.docId;
      assert Outside(records, r, j);
    } else {
      assert Outside(records, r, |records|);
    }
  }

  /** Changing record `i` but not its tool keeps `i` the first record of that tool. */
  lemma FirstMatchSame(before: seq<SwitchRecord>, after: seq<SwitchRecord>, toolId: string, i: nat)
    requires FirstMatch(before, toolId) == Some(i) && |after| == |before|
    requires after[i].toolId == toolId
    requires forall k :: 0 <= k < |before| && k != i ==> after[k] == before[k]
    ensures FirstMatch(after, toolId) == Some(i)
  {
    match FirstMatch(after, toolId)
    case None =>
    case Some(j) =>
  }

  /** When the tool had no record, the record set for it is its first. */
  lemma SetDocFirstMatch(records: seq<SwitchRecord>, rec: SwitchRecord)
    requires FirstMatch(records, rec.toolId).None?
    ensures FirstMatch(SetDoc(records, rec), rec.toolId).Some?
    ensures SetDoc(records, rec)[FirstMatch(SetDoc(records, rec), rec.toolId).value] == rec
  {
    var r := SetDoc(records, rec);
    if HasDoc(records, rec.docId) {
      var j :| 0 <= j < |records| && records[j].docId == rec.docId;
      assert r[j].toolId == rec.toolId;
    } else {
      assert r[|records|].toolId == rec.toolId;
    }
  }

  /** `set_review(t, v)`: the first record of `t` now carries `v` and is enabled; a record is added only when `t` had none. */
  lemma SetReviewEffect(records: seq<SwitchRecord>, toolId: string, version: string)
    requires UniqueDocIds(records)
    ensures var after := AfterSetReview(records, toolId, version);
            && TouchesAtMostOne(records, after)
            && UniqueDocIds(after)
            && FirstMatch(after, toolId).Some?
            && after[FirstMatch(after, toolId).value].reviewVersion == Some(version)
            && after[FirstMatch(after, toolId).value].enabled == Some(true)
            && (FirstMatch(records, toolId).Some? ==> |after| == |records|)
  {
    var after := AfterSetReview(records, toolId, version);
    match FirstMatch(records, toolId)
    case Some(i) =>
      UpdateTouchesOne(records, i, after[i]);
      FirstMatchSame(records, after, toolId, i);
    case None =>
      var rec := SwitchRecord(toolId, toolId, Some(true), Some(version));
      SetDocTouchesOne(records, rec);
      SetDocFirstMatch(records, rec);
  }

  /** `clear_review(t)`: the first record of `t` is enabled with no version; with no record the table is unchanged. */
  lemma ClearReviewEffect(records: seq<SwitchRecord>, toolId: string)
    requires UniqueDocIds(records)
    ensures var after := AfterClearReview(records, toolId);
            && |after| == |records|
            && TouchesAtMostOne(records, after)
            && UniqueDocIds(after)
            && (FirstMatch(records, toolId).None? ==> after == records)
            && (FirstMatch(records, toolId).Some? ==>
                  var i := FirstMatch(records, toolId).value;
                  after[i].enabled == Some(true) && after[i].reviewVersion == None
                  && FirstMatch(after, toolId) == Some(i))
  {
    var after := AfterClearReview(records, toolId);
    match FirstMatch(records, toolId)
    case None =>
      UnchangedTouchesNone(records);
    case Some(i) =>
      UpdateTouchesOne(records, i, after[i]);
      FirstMatchSame(records, after, toolId, i);
  }

  /**
   * `enable`/`disable` on a tool with a record set `enabled` and remove the
   * version; with no record, `enable` writes nothing while `disable` sets
   * the record `{ _id: t, tool_id: t, enabled: false }`.
   */
  lemma SetEnabledEffect(records: seq<SwitchRecord>, toolId: string, enabled: bool)
    requires UniqueDocIds(records)
    ensures var after := AfterSetEnabled(records, toolId, enabled);
            && TouchesAtMostOne(records, after)
            && UniqueDocIds(after)
            && (FirstMatch(records, toolId).Some? ==>
                  var i := FirstMatch(records, toolId).value;
                  |after| == |records| && after[i].enabled == Some(enabled) && after[i].reviewVersion == None
                  && FirstMatch(after, toolId) == Some(i))
            && (FirstMatch(records, toolId).None? && enabled ==> after == records)
            && (FirstMatch(records, toolId).None? && !enabled ==>
                  FirstMatch(after, toolId).Some?
                  && after[FirstMatch(after, toolId).value] == SwitchRecord(toolId, toolId, Some(false), None))
  {
    var after := AfterSetEnabled(records, toolId, enabled);
    match FirstMatch(records, toolId)
    case Some(i) =>
      UpdateTouchesOne(records, i, after[i]);
      FirstMatchSame(records, after, toolId, i);
    case None =>
      if enabled {
        UnchangedTouchesNone(records);
      } else {
        var rec := SwitchRecord(toolId, toolId, Some(false), None);
        SetDocTouchesOne(records, rec);
        SetDocFirstMatch(records, rec);
      }
  }

  /** The enable/disable asymmetry: with no record, enabling is a no-op and disabling adds a record. */
  lemma EnableDisableAsymmetry(records: seq<SwitchRecord>, toolId: string)
    requires FirstMatch(records, toolId).None? && !HasDoc(records, toolId)
    ensures AfterSetEnabled(records, toolId, true) == records
    ensures AfterSetEnabled(records, toolId, false) == records + [SwitchRecord(toolId, toolId, Some(false), None)]
  {
  }

  function ReviewSetMessage(toolId: string, version: string): string
  {
    "已设置 " + toolId + " 的审核版本号为 " + version + "，该版本将隐藏此工具"
  }

  function ReviewClearedMessage(toolId: string, found: bool): string
  {
    if found then "已清除 " + toolId + " 的审核版本号，所有版本都将显示此工具"
    else toolId + " 没有开关记录，无需清除"
  }

  function EnabledMessage(toolId: string, enabled: bool, found: bool): string
  {
    if found then (if enabled then "已启用 " else "已禁用 ") + toolId
    else if enabled then toolId + " 暂无开关记录，无需启用"
    else "已禁用 " + toolId
  }

  /**
   * The request passes the parameter checks of `main` and so reaches the
   * database: `list`, or an action with a `tool_id` (and, for `set_review`,
   * a `version`).
   */
  predicate ReachesDatabase(req: Request)
  {
    || req.action == "list"
    || (req.action == "set_review" && req.toolId != "" && req.version != "")
    || (req.action in {"clear_review", "disable", "enable"} && req.toolId != "")
  }

  /** The response `main` gives and the table it leaves, as functions of the request. */
  function Dispatch(records: seq<SwitchRecord>, req: Request): (r: (Response, seq<SwitchRecord>))
    ensures r.0.Failure? <==> !ReachesDatabase(req)
    ensures r.0.Failure? ==> r.1 == records
    ensures req.action !in {"list", "set_review", "clear_review", "disable", "enable"} ==> r.0 == Failure(UnknownAction)
    ensures req.action in {"set_review", "clear_review", "disable", "enable"} && req.toolId == "" ==> r.0.Failure?
    ensures req.action == "set_review" && req.version == "" ==> r.0.Failure?
    ensures req.action == "list" ==> r.0 == Listing(records, |records|) && r.1 == records
  {
    match req.action
    case "list" => (Listing(records, |records|), records)
    case "set_review" =>
      if req.toolId == "" || req.version == "" then (Failure(MissingToolOrVersion), records)
      else (Done(ReviewSetMessage(req.toolId, req.version)), AfterSetReview(records, req.toolId, req.version))
    case "clear_review" =>
      if req.toolId == "" then (Failure(MissingTool), records)
      else (Done(ReviewClearedMessage(req.toolId, FirstMatch(records, req.toolId).Some?)),
            AfterClearReview(records, req.toolId))
    case "disable" =>
      if req.toolId == "" then (Failure(MissingTool), records)
      else (Done(EnabledMessage(req.toolId, false, FirstMatch(records, req.toolId).Some?)),
            AfterSetEnabled(records, req.toolId, false))
    case "enable" =>
      if req.toolId == "" then (Failure(MissingTool), records)
      else (Done(EnabledMessage(req.toolId, true, FirstMatch(records, req.toolId).Some?)),
            AfterSetEnabled(records, req.toolId, true))
    case _ => (Failure(UnknownAction), records)
  }

  /** Every request leaves the table with at most one record changed or added, and the `_id`s unique. */
  lemma DispatchTouchesAtMostOne(records: seq<SwitchRecord>, req: Request)
    requires UniqueDocIds(records)
    ensures TouchesAtMostOne(records, Dispatch(records, req).1)
    ensures UniqueDocIds(Dispatch(records, req).1)
  {
    var after := Dispatch(records, req).1;
    if after == records {
      UnchangedTouchesNone(records);
    } else if req.action == "set_review" {
      SetReviewEffect(records, req.toolId, req.version);
    } else if req.action == "clear_review" {
      ClearReviewEffect(records, req.toolId);
    } else {
      SetEnabledEffect(records, req.toolId, req.action == "enable");
    }
  }

  /** Every document's `_id` is its `tool_id`, as for every document `set` creates. */
  predicate OwnDocIds(records: seq<SwitchRecord>)
  {
    forall k :: 0 <= k < |records| ==> records[k].docId == records[k].toolId
  }

  /** Setting the record of a tool that had none keeps every `_id` its own `tool_id`. */
  lemma SetDocKeepsOwnDocIds(records: seq<SwitchRecord>, rec: SwitchRecord)
    requires OwnDocIds(records) && rec.docId == rec.toolId && FirstMatch(records, rec.toolId).None?
    ensures SetDoc(records, rec) == records + [rec]
  {
    assert !HasDoc(records, rec.docId) by {
      forall k | 0 <= k < |records|
        ensures records[k].docId != rec.docId
      {
        assert records[k].toolId != rec.toolId;
      }
    }
  }

  /**
   * No request gives a tool a second record: every action updates the
   * tool's first record or sets a record for a tool that had none; and
   * every record it creates has its `tool_id` as `_id`.
   */
  lemma DispatchKeepsUniqueToolIds(records: seq<SwitchRecord>, req: Request)
    requires UniqueDocIds(records) && UniqueToolIds(records)
    ensures UniqueToolIds(Dispatch(records, req).1)
    ensures OwnDocIds(records) ==> OwnDocIds(Dispatch(records, req).1)
  {
    var t := req.toolId;
    var after := Dispatch(records, req).1;
    if after != records {
      match FirstMatch(records, t)
      case Some(i) =>
        assert after == records[i := after[i]] && after[i].toolId == records[i].toolId;
        UpdateKeepsUniqueToolIds(records, i, after[i]);
      case None =>
        var rec := SwitchRecord(t, t, Some(req.action != "disable"), if req.action == "set_review" then Some(req.version) else None);
        assert after == SetDoc(records, rec);
        SetDocKeepsUniqueToolIds(records, rec);
        if OwnDocIds(records) {
          SetDocKeepsOwnDocIds(records, rec);
        }
    }
  }

  /** The table after a run of requests, one after another. */
  function Run(records: seq<SwitchRecord>, reqs: seq<Request>): seq<SwitchRecord>
    decreases |reqs|
  {
    if reqs == [] then records else Run(Dispatch(records, reqs[0]).1, reqs[1..])
  }

  /** Any run of requests keeps the `_id`s unique, one record per tool, and every `_id` its `tool_id`. */
  lemma {:induction false} RunKeepsInvariants(records: seq<SwitchRecord>, reqs: seq<Request>)
    requires UniqueDocIds(records) && UniqueToolIds(records) && OwnDocIds(records)
    ensures var after := Run(records, reqs);
            UniqueDocIds(after) && UniqueToolIds(after) && OwnDocIds(after)
    decreases |reqs|
  {
    if reqs != [] {
      DispatchTouchesAtMostOne(records, reqs[0]);
      DispatchKeepsUniqueToolIds(records, reqs[0]);
      RunKeepsInvariants(Dispatch(records, reqs[0]).1, reqs[1..]);
    }
  }

  /** A table that only this function has written holds one record per tool, under its `tool_id`. */
  lemma BuiltTableInvariants(reqs: seq<Request>)
    ensures var built := Run([], reqs);
            UniqueDocIds(built) && UniqueToolIds(built) && OwnDocIds(built)
  {
    RunKeepsInvariants([], reqs);
  }

  /** The `tools_switch` collection. */
  class SwitchTable {
    var records: seq<SwitchRecord>

    /** Document `_id`s are unique. */
    predicate Valid()
      reads this
    {
      UniqueDocIds(records)
    }

    constructor (initial: seq<SwitchRecord>)
      requires UniqueDocIds(initial)
      ensures Valid() && records == initial
    {
      records := initial;
    }

    /** `listSwitches`: every record, with their number. */
    method ListSwitches() returns (data: seq<SwitchRecord>, count: nat)
      ensures data == records && count == |records|
    {
      data := records;
      count := |data|;
    }

    /** The first record of a tool: the `where({ tool_id }).get()` each action starts with. */
    method FindFirst(toolId: string) returns (found: Option<nat>)
      ensures found == FirstMatch(records, toolId)
    {
      var k := 0;
      while k < |records|
        invariant 0 <= k <= |records|
        invariant forall m :: 0 <= m < k ==> records[m].toolId != toolId
      {
        if records[k].toolId == toolId {
          return Some(k);
        }
        k := k + 1;
      }
      return None;
    }

    /** `doc(id).set(...)` of a record whose `_id` is `rec.docId`. */
    method Set(rec: SwitchRecord)
      requires Valid()
      modifies this
      ensures Valid() && records == SetDoc(old(records), rec)
    {
      SetDocTouchesOne(records, rec);
      var k := 0;
      while k < |records|
        invariant 0 <= k <= |records|
        invariant forall m :: 0 <= m < k ==> records[m].docId != rec.docId
      {
        if records[k].docId == rec.docId {
          records := records[k := rec];
          return;
        }
        k := k + 1;
      }
      records := records + [rec];
    }

    /** `setReviewVersion`. */
    method SetReviewVersion(toolId: string, version: string) returns (message: string)
      requires Valid()
      modifies this
      ensures Valid() && records == AfterSetReview(old(records), toolId, version)
      ensures message == ReviewSetMessage(toolId, version)
    {
      SetReviewEffect(records, toolId, version);
      var found := FindFirst(toolId);
      if found.Some? {
        var i := found.value;
        records := records[i := records[i].(reviewVersion := Some(version), enabled := Some(true))];
      } else {
        Set(SwitchRecord(toolId, toolId, Some(true), Some(version)));
      }
      message := ReviewSetMessage(toolId, version);
    }

    /** `clearReviewVersion`. */
    method ClearReviewVersion(toolId: string) returns (message: string)
      requires Valid()
      modifies this
      ensures Valid() && records == AfterClearReview(old(records), toolId)
      ensures message == ReviewClearedMessage(toolId, FirstMatch(old(records), toolId).Some?)
    {
      ClearReviewEffect(records, toolId);
      var found := FindFirst(toolId);
      if found.Some? {
        var i := found.value;
        records := records[i := records[i].(reviewVersion := None, enabled := Some(true))];
      }
      message := ReviewClearedMessage(toolId, found.Some?);
    }

    /** `setEnabled`. */
    method SetEnabled(toolId: string, enabled: bool) returns (message: string)
      requires Valid()
      modifies this
      ensures Valid() && records == AfterSetEnabled(old(records), toolId, enabled)
      ensures message == EnabledMessage(toolId, enabled, FirstMatch(old(records), toolId).Some?)
    {
      SetEnabledEffect(records, toolId, enabled);
      var found := FindFirst(toolId);
      if found.Some? {
        var i := found.value;
        records := records[i := records[i].(enabled := Some(enabled), reviewVersion := None)];
      } else if !enabled {
        Set(SwitchRecord(toolId, toolId, Some(false), None));
      }
      message := EnabledMessage(toolId, enabled, found.Some?);
    }

    /**
     * `exports.main`: validates the parameters of the action and runs it.
     * `dbError` is the message of a failing database call: a request that
     * reaches the database then fails with it and nothing is written; a
     * request rejected by the parameter checks never calls the database.
     */
    method HandleRequest(req: Request, dbError: Option<string>) returns (resp: Response)
      requires Valid()
      modifies this
      ensures Valid()
      ensures ReachesDatabase(req) && dbError.Some? ==> resp == Failure(dbError.value) && records == old(records)
      ensures !ReachesDatabase(req) || dbError.None? ==> (resp, records) == Dispatch(old(records), req)
      ensures UniqueToolIds(old(records)) ==> UniqueToolIds(records)
    {
      if UniqueToolIds(records) {
        DispatchKeepsUniqueToolIds(records, req);
      }
      if req.action == "list" {
        if dbError.Some? {
          return Failure(dbError.value);
        }
        var data, count := ListSwitches();
        resp := Listing(data, count);
      } else if req.action == "set_review" {
        if req.toolId == "" || req.version == "" {
          return Failure(MissingToolOrVersion);
        }
        if dbError.Some? {
          return Failure(dbError.value);
        }
        var message := SetReviewVersion(req.toolId, req.version);
        resp := Done(message);
      } else if req.action in {"clear_review", "disable", "enable"} {
        if req.toolId == "" {
          return Failure(MissingTool);
        }
        if dbError.Some? {
          return Failure(dbError.value);
        }
        var message;
        if req.action == "clear_review" {
          message := ClearReviewVersion(req.toolId);
        } else {
          message := SetEnabled(req.toolId, req.action == "enable");
        }
        resp := Done(message);
      } else {
        resp := Failure(UnknownAction);
      }
    }
  }
}
