/**
 * The notification centre: a list of toasts, each with an id, a type, a
 * message and an auto-dismiss delay. The id (`Date.now().toString()`) is an
 * input; the `setTimeout` scheduling is recorded as a list of timers.
 */
module Notifications {
  import opened Wrappers
  import opened Js
  import Lists

  const Success: string := "success"
  const Error: string := "error"
  const Info: string := "info"
  const Warning: string := "warning"

  /** The delay used when none (or 0) is given, in milliseconds. */
  const DefaultDuration: int := 5000

  /** What a caller passes to `addNotification`. */
  datatype NotificationInput = NotificationInput(kind: Option<string>, message: string, duration: Option<int>)

  datatype Notification = Notification(id: string, kind: string, message: string, duration: int)

  /** A scheduled `removeNotification(id)` after `delay` milliseconds. */
  datatype Timer = Timer(id: string, delay: int)

  /** The notification `addNotification` builds: type `|| 'info'`, duration `|| 5000`. */
  function MakeNotification(input: NotificationInput, id: string): (n: Notification)
    ensures n.id == id && n.message == input.message
    ensures Truthy(input.kind) ==> n.kind == input.kind.value
    ensures !Truthy(input.kind) ==> n.kind == Info
    ensures TruthyInt(input.duration) ==> n.duration == input.duration.value
    ensures !TruthyInt(input.duration) ==> n.duration == DefaultDuration
    ensures n.kind != "" && n.duration != 0
  {
    Notification(
      id,
      if Truthy(input.kind) then input.kind.value else Info,
      input.message,
      if TruthyInt(input.duration) then input.duration.value else DefaultDuration)
  }

  /** The `filter` predicate `notification => notification.id !== id`. */
  function OtherThan(id: string): Notification -> bool {
    (n: Notification) => n.id != id
  }

  /** `prev.filter(notification => notification.id !== id)`. */
  function WithoutId(ns: seq<Notification>, id: string): (r: seq<Notification>)
    ensures forall i :: 0 <= i < |r| ==> r[i].id != id
    ensures forall x :: x in r <==> x in ns && x.id != id
    ensures Lists.SubsequenceOf(r, ns)
  {
    Lists.Filter(ns, OtherThan(id))
  }

  /** Removing the id of a notification just added, when no older one shares it, restores the list. */
  lemma RemoveUndoesAdd(ns: seq<Notification>, n: Notification)
    requires forall i :: 0 <= i < |ns| ==> ns[i].id != n.id
    ensures WithoutId(ns + [n], n.id) == ns
  {
    Lists.FilterAppend(ns, n, OtherThan(n.id));
    Lists.FilterAll(ns, OtherThan(n.id));
  }

  /** Notifications sharing an id (two added in the same millisecond) are removed together. */
  lemma RemoveDropsSameIdTwins(ns: seq<Notification>, n: Notification, m: Notification)
    requires n.id == m.id
    ensures WithoutId(ns + [n, m], n.id) == WithoutId(ns, n.id)
  {
    assert ns + [n, m] == (ns + [n]) + [m];
    Lists.FilterAppend(ns + [n], m, OtherThan(n.id));
    Lists.FilterAppend(ns, n, OtherThan(n.id));
  }

  /** The provider's state. */
  class NotificationCenter {
    var notifications: seq<Notification>
    var timers: seq<Timer>

    constructor ()
      ensures notifications == [] && timers == []
    {
      notifications := [];
      timers := [];
    }

    /** `addNotification(notification)`: appends one entry and schedules its dismissal when the delay is positive. */
    method AddNotification(input: NotificationInput, id: string) returns (n: Notification)
      modifies this
      ensures n == MakeNotification(input, id)
      ensures notifications == old(notifications) + [n]
      ensures timers == old(timers) + if n.duration > 0 then [Timer(id, n.duration)] else []
    {
      n := MakeNotification(input, id);
      notifications := notifications + [n];
      if n.duration > 0 {
        timers := timers + [Timer(id, n.duration)];
      }
    }

    /** `removeNotification(id)`. */
    method RemoveNotification(id: string)
      modifies this
      ensures notifications == WithoutId(old(notifications), id) && timers == old(timers)
    {
      notifications := WithoutId(notifications, id);
    }

    /** `clearNotifications()`. */
    method ClearNotifications()
      modifies this
      ensures notifications == [] && timers == old(timers)
    {
      notifications := [];
    }
  }
}
