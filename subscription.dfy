/**
 * The push-subscription part of the insights page: the current user's
 * records in `stock_signals_subscriber` and the page's `isSubscribed`,
 * `subscribing` and `unsubscribing` switches.
 *
 * The permission the platform returns for the message template is an input
 * (`"accept"`, `"reject"`, `"ban"` or anything else); a failed read of the
 * records is an input flag; the id a new record receives is an input.
 */
module Subscription {
  import opened Wrappers

  const Active := "active"
  const Inactive := "inactive"

  /** A subscriber record; `lastError` is None once cleared. */
  datatype Subscriber = Subscriber(id: string, status: string, lastError: Option<string>)

  /** A fresh active record, as `add` writes it. */
  function NewSubscriber(id: string): Subscriber
  {
    Subscriber(id, Active, None)
  }

  /** The duplicate clean-up: only the first record is kept. */
  function KeepFirst(records: seq<Subscriber>): (r: seq<Subscriber>)
    ensures |r| == if records == [] then 0 else 1
    ensures records != [] ==> r[0] == records[0]
  {
    if records == [] then [] else [records[0]]
  }

  /**
   * The switch after a status check: the first record decides; "active"
   * is subscribed, "inactive" is not, any other status keeps the switch as
   * it was; no record means not subscribed.
   */
  function CheckedStatus(records: seq<Subscriber>, wasSubscribed: bool): (subscribed: bool)
    ensures records == [] ==> !subscribed
    ensures records != [] && records[0].status == Active ==> subscribed
    ensures records != [] && records[0].status == Inactive ==> !subscribed
    ensures records != [] && records[0].status !in {Active, Inactive} ==> subscribed == wasSubscribed
  {
    if records == [] then false
    else if records[0].status == Active then true
    else if records[0].status == Inactive then false
    else wasSubscribed
  }

  /** The records after an accepted subscription: the first one, reactivated with its error cleared, or a new one. */
  function Subscribed(records: seq<Subscriber>, newId: string): (r: seq<Subscriber>)
    ensures |r| == 1 && r[0].status == Active && r[0].lastError == None
    ensures r[0].id == if records == [] then newId else records[0].id
  {
    if records == [] then [NewSubscriber(newId)]
    else [records[0].(status := Active, lastError := None)]
  }

  /** The records after `ensureSubscribeRecord`: the first one made active (the rest kept), or a new one. */
  function Ensured(records: seq<Subscriber>, newId: string): (r: seq<Subscriber>)
    ensures r != [] && r[0].status == Active
    ensures |r| == if records == [] then 1 else |records|
    ensures forall k :: 1 <= k < |r| ==> r[k] == records[k]
    ensures records == [] ==> r == [Subscriber(newId, Active, None)]
    ensures records != [] ==> r[0].id == records[0].id
    ensures records != [] && records[0].status != Active ==> r[0].lastError == None
    ensures records != [] && records[0].status == Active ==> r == records
  {
    if records == [] then [NewSubscriber(newId)]
    else if records[0].status != Active then [records[0].(status := Active, lastError := None)] + records[1..]
    else records
  }

  /** One record after unsubscribing: an active record becomes inactive. */
  function Unsubscribed(s: Subscriber): Subscriber
  {
    if s.status == Active then s.(status := Inactive) else s
  }

  /** The records after unsubscribing. */
  function AllUnsubscribed(records: seq<Subscriber>): (r: seq<Subscriber>)
    ensures |r| == |records|
    ensures forall k :: 0 <= k < |r| ==> r[k].id == records[k].id && r[k].lastError == records[k].lastError
    ensures forall k :: 0 <= k < |r| ==> r[k].status != Active
    ensures forall k :: 0 <= k < |r| && records[k].status == Active ==> r[k].status == Inactive
    ensures forall k :: 0 <= k < |r| && records[k].status != Active ==> r[k] == records[k]
  {
    seq(|records|, k requires 0 <= k < |records| => Unsubscribed(records[k]))
  }

  /** A check right after an accepted subscription reports subscribed, and cleans up nothing more. */
  lemma CheckAfterSubscribe(records: seq<Subscriber>, newId: string, wasSubscribed: bool)
    ensures CheckedStatus(Subscribed(records, newId), wasSubscribed)
    ensures KeepFirst(Subscribed(records, newId)) == Subscribed(records, newId)
  {
  }

  /**
   * A check right after unsubscribing reports subscribed only when the
   * first record had a status that is neither active nor inactive and the
   * switch was already on.
   */
  lemma CheckAfterUnsubscribe(records: seq<Subscriber>, wasSubscribed: bool)
    ensures CheckedStatus(AllUnsubscribed(records), wasSubscribed) ==>
              records != [] && records[0].status !in {Active, Inactive} && wasSubscribed
  {
  }

  /** Unsubscribing twice is unsubscribing once. */
  lemma UnsubscribeIdempotent(records: seq<Subscriber>)
    ensures AllUnsubscribed(AllUnsubscribed(records)) == AllUnsubscribed(records)
  {
  }

  /** Once the duplicates are gone, an ensured record and an accepted subscription agree. */
  lemma EnsureAfterCleanUp(records: seq<Subscriber>, newId: string)
    requires |records| <= 1
    ensures Ensured(records, newId) == Subscribed(records, newId)
              || (records[0].status == Active && records[0].lastError != None)
  {
  }

  class SubscriptionPanel {
    var records: seq<Subscriber>
    var isSubscribed: bool
    var subscribing: bool
    var unsubscribing: bool

    /** The page's initial switches over the user's current records. */
    constructor (existing: seq<Subscriber>)
      ensures records == existing && !isSubscribed && !subscribing && !unsubscribing
    {
      records := existing;
      isSubscribed := false;
      subscribing := false;
      unsubscribing := false;
    }

    /**
     * `checkSubscribeStatus`: duplicates are removed and the first record
     * sets the switch; a failed read turns the switch off.
     */
    method CheckSubscribeStatus(readFails: bool)
      modifies this`records, this`isSubscribed
      ensures readFails ==> records == old(records) && !isSubscribed
      ensures !readFails ==> records == KeepFirst(old(records))
      ensures !readFails ==> isSubscribed == CheckedStatus(old(records), old(isSubscribed))
    {
      if readFails {
        isSubscribed := false;
        return;
      }
      if |records| > 0 {
        if |records| > 1 {
          records := [records[0]];
        }
        var subscriber := records[0];
        if subscriber.status == Active {
          isSubscribed := true;
        } else if subscriber.status == Inactive {
          isSubscribed := false;
        }
      } else {
        isSubscribed := false;
      }
    }

    /**
     * `handleSubscribe`: ignored while a subscription is in progress; any
     * permission but "accept" writes nothing; an accepted one keeps the
     * first record and reactivates it, or creates one.
     */
    method HandleSubscribe(permission: string, readFails: bool, newId: string)
      modifies this`records, this`isSubscribed, this`subscribing
      ensures old(subscribing) ==>
                records == old(records) && isSubscribed == old(isSubscribed) && subscribing
      ensures !old(subscribing) ==> !subscribing
      ensures !old(subscribing) && (permission != "accept" || readFails) ==>
                records == old(records) && isSubscribed == old(isSubscribed)
      ensures !old(subscribing) && permission == "accept" && !readFails ==>
                records == Subscribed(old(records), newId) && isSubscribed
    {
      if subscribing {
        return;
      }
      subscribing := true;
      if permission == "reject" || permission == "ban" {
        subscribing := false;
        return;
      }
      if permission != "accept" {
        subscribing := false;
        return;
      }
      if readFails {
        subscribing := false;
        return;
      }
      if |records| > 0 {
        if |records| > 1 {
          records := [records[0]];
        }
        records := [records[0].(status := Active, lastError := None)];
      } else {
        records := records + [NewSubscriber(newId)];
      }
      isSubscribed := true;
      subscribing := false;
    }

    /** `ensureSubscribeRecord`: makes sure an active record exists; a failed read changes nothing. */
    method EnsureSubscribeRecord(readFails: bool, newId: string)
      modifies this`records, this`isSubscribed
      ensures readFails ==> records == old(records) && isSubscribed == old(isSubscribed)
      ensures !readFails ==> records == Ensured(old(records), newId) && isSubscribed
    {
      if readFails {
        return;
      }
      if |records| > 0 {
        var subscriber := records[0];
        if subscriber.status != Active {
          records := [subscriber.(status := Active, lastError := None)] + records[1..];
        }
        isSubscribed := true;
      } else {
        records := records + [NewSubscriber(newId)];
        isSubscribed := true;
      }
    }

    /**
     * `silentRequestSubscribe`: an accepted permission ensures a record; a
     * ban asks the user to open the settings when the switch is on
     * (`promptSettings`); anything else does nothing.
     */
    method SilentRequestSubscribe(permission: string, readFails: bool, newId: string) returns (promptSettings: bool)
      modifies this`records, this`isSubscribed
      ensures promptSettings <==> permission == "ban" && old(isSubscribed)
      ensures permission == "accept" && !readFails ==> records == Ensured(old(records), newId) && isSubscribed
      ensures permission != "accept" || readFails ==> records == old(records) && isSubscribed == old(isSubscribed)
    {
      promptSettings := false;
      if permission == "accept" {
        EnsureSubscribeRecord(readFails, newId);
      } else if permission == "ban" {
        if isSubscribed {
          promptSettings := true;
        }
      }
    }

    /**
     * `handleUnsubscribe`: ignored while in progress or when the user does
     * not confirm; otherwise every active record becomes inactive and the
     * switch goes off. A failed read writes nothing.
     */
    method HandleUnsubscribe(confirmed: bool, readFails: bool)
      modifies this`records, this`isSubscribed, this`unsubscribing
      ensures old(unsubscribing) || !confirmed ==>
                records == old(records) && isSubscribed == old(isSubscribed) && unsubscribing == old(unsubscribing)
      ensures !old(unsubscribing) && confirmed ==> !unsubscribing
      ensures !old(unsubscribing) && confirmed && readFails ==>
                records == old(records) && isSubscribed == old(isSubscribed)
      ensures !old(unsubscribing) && confirmed && !readFails ==>
                records == AllUnsubscribed(old(records)) && !isSubscribed
    {
      if unsubscribing {
        return;
      }
      if !confirmed {
        return;
      }
      unsubscribing := true;
      if readFails {
        unsubscribing := false;
        return;
      }
      var updated: seq<Subscriber> := [];
      for k := 0 to |records|
        invariant updated == AllUnsubscribed(records[..k])
      {
        assert records[..k + 1] == records[..k] + [records[k]];
        updated := updated + [Unsubscribed(records[k])];
      }
      assert records[..|records|] == records;
      records := updated;
      isSubscribed := false;
      unsubscribing := false;
    }
  }
}
