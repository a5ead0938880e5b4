/**
 * The single-slot notification store: showing a notification replaces
 * whatever is displayed, and each notification expires after its delay
 * unless it was closed or superseded first.
 */
module Notifications {

  import opened Wrappers

  datatype Kind = Success | Error | Warning | Info

  /**
   * One notification. The id `n` stands for the string `notif-n`; the
   * duration is the caller's optional one, kept as given.
   */
  datatype Notification = Notification(id: nat, message: string, kind: Kind, duration: Option<int>)

  /** A scheduled expiry: `Expire(id)` is due `delay` ms after it was scheduled. */
  datatype Expiry = Expiry(id: nat, delay: int)

  /** The delay used when the caller's duration is absent or zero (the falsy cases). */
  const DefaultDuration: int := 5000

  /** The auto-dismiss delay: the caller's duration when it is truthy, else the default. */
  function ExpiryDelay(duration: Option<int>): (delay: int)
    ensures duration.Some? && duration.value != 0 ==> delay == duration.value
    ensures duration.None? || duration == Some(0) ==> delay == DefaultDuration
  {
    if duration.Some? && duration.value != 0 then duration.value else DefaultDuration
  }

  /** The entries of `list` whose id differs from `id`, in their original order. */
  function WithoutId(list: seq<Notification>, id: nat): (r: seq<Notification>)
    ensures |r| <= |list|
    ensures forall n :: n in r <==> n in list && n.id != id
    ensures (forall k :: 0 <= k < |list| ==> list[k].id != id) ==> r == list
    ensures |list| == 1 ==> r == (if list[0].id != id then list else [])
  {
    if list == [] then []
    else if list[0].id != id then [list[0]] + WithoutId(list[1..], id)
    else WithoutId(list[1..], id)
  }

  /**
   * The filter works entry by entry and keeps the order: filtering a
   * concatenation filters each part. With the one-entry case above this
   * fixes the result for every list.
   */
  lemma {:induction false} WithoutIdAppend(xs: seq<Notification>, ys: seq<Notification>, id: nat)
    ensures WithoutId(xs + ys, id) == WithoutId(xs, id) + WithoutId(ys, id)
  {
    if xs == [] {
      assert xs + ys == ys;
    } else {
      assert (xs + ys)[0] == xs[0] && (xs + ys)[1..] == xs[1..] + ys;
      WithoutIdAppend(xs[1..], ys, id);
    }
  }

  /** Expiring or closing a superseded id leaves the displayed entry in place. */
  lemma {:induction false} StaleIdIsNoOp(list: seq<Notification>, id: nat)
    requires |list| <= 1 && (list != [] ==> list[0].id != id)
    ensures WithoutId(list, id) == list
  {
    if list != [] {
      assert list[1..] == [];
    }
  }

  /** The displayed notification: the first entry, or none. */
  function Current(list: seq<Notification>): (c: Option<Notification>)
    ensures c.None? <==> list == []
    ensures c.Some? ==> c.value == list[0] && c.value in list
  {
    if |list| > 0 then Some(list[0]) else None
  }

  /**
   * The provider's state. `nextId` is the module-level id counter; `issued`
   * records every id handed out so far.
   */
  class NotificationProvider {
    var notifications: seq<Notification>
    var nextId: nat
    ghost var issued: set<nat>

    /** At most one entry is held, and every id ever issued is below the counter. */
    ghost predicate Valid()
      reads this
    {
      && |notifications| <= 1
      && (forall i :: i in issued <==> 0 <= i < nextId)
      && (forall k :: 0 <= k < |notifications| ==> notifications[k].id in issued)
    }

    constructor ()
      ensures Valid() && notifications == [] && nextId == 0 && issued == {}
    {
      notifications := [];
      nextId := 0;
      issued := {};
    }

    /**
     * `showNotification`: takes the next id, replaces the list with the new
     * entry, and returns the expiry the caller's scheduler delivers later
     * as `Expire(expiry.id)`.
     */
    method Show(message: string, kind: Kind, duration: Option<int>) returns (expiry: Expiry)
      requires Valid()
      modifies this
      ensures Valid()
      ensures expiry.id !in old(issued) && issued == old(issued) + {expiry.id}
      ensures expiry.id == old(nextId) && nextId == old(nextId) + 1
      ensures notifications == [Notification(expiry.id, message, kind, duration)]
      ensures expiry.delay == ExpiryDelay(duration)
      ensures Displayed() == Some(Notification(expiry.id, message, kind, duration))
    {
      var id := nextId;
      nextId := nextId + 1;
      issued := issued + {id};
      notifications := [Notification(id, message, kind, duration)];
      expiry := Expiry(id, ExpiryDelay(duration));
    }

    /** The timer scheduled by `Show` for `id` fires: entries with that id are removed. */
    method Expire(id: nat)
      requires Valid()
      modifies this`notifications
      ensures Valid()
      ensures notifications == WithoutId(old(notifications), id)
    {
      notifications := WithoutId(notifications, id);
    }

    /** `closeNotification`: entries with that id are removed, all others kept. */
    method Close(id: nat)
      requires Valid()
      modifies this`notifications
      ensures Valid()
      ensures notifications == WithoutId(old(notifications), id)
    {
      notifications := WithoutId(notifications, id);
    }

    /** `currentNotification`. */
    function Displayed(): (d: Option<Notification>)
      reads this
      ensures d.None? <==> notifications == []
      ensures d.Some? ==> d.value == notifications[0]
    {
      Current(notifications)
    }
  }
}
