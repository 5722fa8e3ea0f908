/**
 * `NotificationsManager` (src/components/notifications/NotificationsManager.tsx):
 * a notification list with mark-as-read, mark-all and delete, the visibility
 * of "Mark all as read", and the relative-time label.
 */
module Notifications {
  import opened Base
  import opened Text
  import opened Seqs
  import opened Arith

  datatype Kind = Order | Billing | Support | System

  /** A notification; its timestamp is not held here, its age is `FormatTimestamp`'s `diff`. */
  datatype Notification = Notification(id: string, title: string, message: string, kind: Kind, read: bool)

  /** `markAsRead(id)` on a list: the entries with that id become read, nothing else changes. */
  function MarkRead(ns: seq<Notification>, id: string): (r: seq<Notification>)
    ensures |r| == |ns|
    ensures forall i :: 0 <= i < |ns| ==> r[i] == if ns[i].id == id then ns[i].(read := true) else ns[i]
  {
    UpdateWhere(ns, (n: Notification) => n.id == id, (n: Notification) => n.(read := true))
  }

  /** Marking the same notification twice is marking it once. */
  lemma MarkReadIdempotent(ns: seq<Notification>, id: string)
    ensures MarkRead(MarkRead(ns, id), id) == MarkRead(ns, id)
  {
  }

  /** `markAllAsRead`: every entry read, same ids in the same order, other fields kept. */
  function MarkAllRead(ns: seq<Notification>): (r: seq<Notification>)
    ensures |r| == |ns|
    ensures forall i :: 0 <= i < |ns| ==> r[i] == ns[i].(read := true)
  {
    UpdateWhere(ns, (n: Notification) => true, (n: Notification) => n.(read := true))
  }

  /** `deleteNotification(id)`: the entries with other ids, in their order. */
  function Delete(ns: seq<Notification>, id: string): (r: seq<Notification>)
    ensures IsSubseq(r, ns)
    ensures forall i :: 0 <= i < |r| ==> r[i].id != id
  {
    FilterIsSubseq(ns, (n: Notification) => n.id != id);
    Filter(ns, (n: Notification) => n.id != id)
  }

  /** Exactly the entries carrying the id are removed: each other entry keeps all its copies. */
  lemma {:induction false} DeleteRemovesExactly(ns: seq<Notification>, id: string, n: Notification)
    ensures multiset(Delete(ns, id))[n] == if n.id == id then 0 else multiset(ns)[n]
  {
    FilterCount(ns, (n: Notification) => n.id != id, n);
  }

  /** "Mark all as read" is shown while some notification is unread. */
  predicate ShowMarkAll(ns: seq<Notification>) {
    exists i :: 0 <= i < |ns| && !ns[i].read
  }

  /** After marking all, the button is gone; and marking a list with nothing unread changes nothing. */
  lemma MarkAllHidesButton(ns: seq<Notification>)
    ensures !ShowMarkAll(MarkAllRead(ns))
    ensures !ShowMarkAll(ns) ==> MarkAllRead(ns) == ns
  {
  }

  const MinuteMs := 60000
  const HourMs := 60 * MinuteMs
  const DayMs := 24 * HourMs

  /**
   * `formatTimestamp` for an age of `diff` milliseconds: minutes, hours and
   * days by repeated flooring, then the largest unit that is positive.
   */
  function FormatTimestamp(diff: int): (r: string)
    ensures diff >= DayMs ==> r == IntToString(diff / DayMs) + "d ago"
    ensures HourMs <= diff < DayMs ==> r == IntToString(diff / HourMs) + "h ago"
    ensures diff < HourMs ==> r == IntToString(diff / MinuteMs) + "m ago"
  {
    var minutes := diff / MinuteMs;
    var hours := minutes / 60;
    var days := hours / 24;
    NestedFloor(diff, MinuteMs, 60);
    NestedFloor(diff, HourMs, 24);
    if days > 0 then IntToString(days) + "d ago"
    else if hours > 0 then IntToString(hours) + "h ago"
    else IntToString(minutes) + "m ago"
  }

  /** The list's state. */
  class Manager {
    var notifications: seq<Notification>

    /** The three mock notifications: two unread, one read. */
    constructor ()
      ensures |notifications| == 3 && ShowMarkAll(notifications)
      ensures notifications[0].id == "1" && notifications[1].id == "2" && notifications[2].id == "3"
      ensures !notifications[0].read && !notifications[1].read && notifications[2].read
    {
      notifications := [
        Notification("1", "Order Shipped", "Your order #12345 has been shipped and is on its way.", Order, false),
        Notification("2", "Payment Received", "Payment for invoice #INV-001 has been processed successfully.", Billing, false),
        Notification("3", "Support Ticket Update", "Your support ticket #45678 has been resolved.", Support, true)
      ];
      new;
      assert !notifications[0].read;
    }

    method MarkAsRead(id: string)
      modifies this
      ensures notifications == MarkRead(old(notifications), id)
    {
      notifications := MarkRead(notifications, id);
    }

    method MarkAllAsRead()
      modifies this
      ensures notifications == MarkAllRead(old(notifications))
      ensures !ShowMarkAll(notifications)
    {
      notifications := MarkAllRead(notifications);
      MarkAllHidesButton(old(notifications));
    }

    method DeleteNotification(id: string)
      modifies this
      ensures notifications == Delete(old(notifications), id)
    {
      notifications := Delete(notifications, id);
    }
  }
}
