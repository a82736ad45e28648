/** The in-app notification list (mobile-app/src/core/stores/notificationStore.ts).
    The generated id and `new Date()` are the parameters `id` and `now`. */
module NotificationStore {
  import opened Wrappers
  import opened Types
  import Seqs

  /** What a caller passes to `addNotification`: a notification without id,
      timestamp or read flag. */
  datatype NotificationDraft = NotificationDraft(
    userId: string,
    kind: NotificationType,
    title: string,
    message: string,
    taskId: Option<string>,
    instantTaskId: Option<string>)

  /** The notification `addNotification` builds: unread, stamped with `now`. */
  function Issued(draft: NotificationDraft, id: string, now: Timestamp): (n: Notification)
    ensures !n.isRead && n.id == id && n.createdAt == now && n.userId == draft.userId
    ensures n.kind == draft.kind && n.title == draft.title && n.message == draft.message
    ensures n.taskId == draft.taskId && n.instantTaskId == draft.instantTaskId
  {
    Notification(id, draft.userId, draft.kind, draft.title, draft.message,
                 draft.taskId, draft.instantTaskId, false, now)
  }

  // ---------------------------------------------------------------------------
  // The list after each action
  // ---------------------------------------------------------------------------

  /** `addNotification` puts the new notification first: it heads its
      recipient's list, and everything already there follows unchanged. */
  function AfterAdd(ns: seq<Notification>, draft: NotificationDraft, id: string, now: Timestamp): (r: seq<Notification>)
    ensures |r| == |ns| + 1 && r[1..] == ns
    ensures UserNotifications(r, draft.userId) == [Issued(draft, id, now)] + UserNotifications(ns, draft.userId)
    ensures forall u :: u != draft.userId ==> UserNotifications(r, u) == UserNotifications(ns, u)
  {
    var r := [Issued(draft, id, now)] + ns;
    assert r[1..] == ns;
    r
  }

  /** `markAsRead` marks every notification with the id read, and touches
      nothing else. */
  function AfterMarkAsRead(ns: seq<Notification>, notificationId: string): (r: seq<Notification>)
    ensures |r| == |ns|
    ensures forall i :: 0 <= i < |ns| ==>
      r[i].isRead == (ns[i].isRead || ns[i].id == notificationId) && r[i] == ns[i].(isRead := r[i].isRead)
  {
    Seqs.MapWhere(ns, (n: Notification) => n.id == notificationId, (n: Notification) => n.(isRead := true))
  }

  /** `markAllAsRead` marks every notification of the user read, and touches
      nothing else. */
  function AfterMarkAllAsRead(ns: seq<Notification>, userId: string): (r: seq<Notification>)
    ensures |r| == |ns|
    ensures forall i :: 0 <= i < |ns| ==>
      r[i].isRead == (ns[i].isRead || ns[i].userId == userId) && r[i] == ns[i].(isRead := r[i].isRead)
  {
    Seqs.MapWhere(ns, (n: Notification) => n.userId == userId, (n: Notification) => n.(isRead := true))
  }

  /** `clearNotifications` keeps exactly the other users' notifications. */
  function AfterClear(ns: seq<Notification>, userId: string): (r: seq<Notification>)
    ensures forall n :: n in r <==> n in ns && n.userId != userId
  {
    Seqs.Filter(ns, (n: Notification) => n.userId != userId)
  }

  // ---------------------------------------------------------------------------
  // Queries
  // ---------------------------------------------------------------------------

  /** `getUserNotifications`: exactly the user's notifications, newest first. */
  function UserNotifications(ns: seq<Notification>, userId: string): (r: seq<Notification>)
    ensures forall n :: n in r <==> n in ns && n.userId == userId
  {
    Seqs.Filter(ns, (n: Notification) => n.userId == userId)
  }

  predicate UnreadFor(n: Notification, userId: string) {
    n.userId == userId && !n.isRead
  }

  /** `getUnreadCount`: how many of the user's notifications are unread. */
  function UnreadCount(ns: seq<Notification>, userId: string): (c: nat)
    ensures c <= |ns|
    ensures c == 0 <==> forall n :: n in ns ==> !UnreadFor(n, userId)
  {
    var unread := Seqs.Filter(ns, (n: Notification) => UnreadFor(n, userId));
    assert unread != [] ==> unread[0] in unread;
    |unread|
  }

  // ---------------------------------------------------------------------------
  // Properties
  // ---------------------------------------------------------------------------

  /** Adding a notification raises its recipient's unread count by one and
      leaves everyone else's alone. */
  lemma UnreadAfterAdd(ns: seq<Notification>, draft: NotificationDraft, id: string, now: Timestamp, userId: string)
    ensures UnreadCount(AfterAdd(ns, draft, id, now), userId) ==
            UnreadCount(ns, userId) + (if draft.userId == userId then 1 else 0)
  {
    var p := (n: Notification) => UnreadFor(n, userId);
    Seqs.FilterAppend([Issued(draft, id, now)], ns, p);
  }

  /** The unread count is the number of unread entries among the user's
      notifications, so it never exceeds the user's notification count. */
  lemma UnreadAtMostUserNotifications(ns: seq<Notification>, userId: string)
    ensures UnreadCount(ns, userId) == |Seqs.Filter(UserNotifications(ns, userId), (n: Notification) => !n.isRead)|
    ensures UnreadCount(ns, userId) <= |UserNotifications(ns, userId)|
  {
    var mine := (n: Notification) => n.userId == userId;
    var unread := (n: Notification) => !n.isRead;
    Seqs.FilterFilter(ns, mine, unread, (n: Notification) => UnreadFor(n, userId));
  }

  /** Marking a notification read twice is the same as once. */
  lemma MarkAsReadIdempotent(ns: seq<Notification>, notificationId: string)
    ensures AfterMarkAsRead(AfterMarkAsRead(ns, notificationId), notificationId) == AfterMarkAsRead(ns, notificationId)
  {
  }

  /** After `markAllAsRead(u)`, `u` has nothing unread, every other user's
      unread count is unchanged, and `u` keeps all of their notifications. */
  lemma MarkAllAsReadEffect(ns: seq<Notification>, userId: string, other: string)
    requires other != userId
    ensures UnreadCount(AfterMarkAllAsRead(ns, userId), userId) == 0
    ensures UnreadCount(AfterMarkAllAsRead(ns, userId), other) == UnreadCount(ns, other)
    ensures |UserNotifications(AfterMarkAllAsRead(ns, userId), userId)| == |UserNotifications(ns, userId)|
  {
    var after := AfterMarkAllAsRead(ns, userId);
    Seqs.FilterAgrees(ns, after, (n: Notification) => UnreadFor(n, other));
    Seqs.FilterLengthAgrees(ns, after, (n: Notification) => n.userId == userId);
  }

  /** After `clearNotifications(u)`, `u` has no notifications left and every
      other user's list is exactly what it was, in the same order. */
  lemma ClearEffect(ns: seq<Notification>, userId: string, other: string)
    requires other != userId
    ensures UserNotifications(AfterClear(ns, userId), userId) == []
    ensures UserNotifications(AfterClear(ns, userId), other) == UserNotifications(ns, other)
  {
    var notMine := (n: Notification) => n.userId != userId;
    Seqs.FilterFilter(ns, notMine, (n: Notification) => n.userId == other, (n: Notification) => n.userId == other);
    var cleared := AfterClear(ns, userId);
    assert forall i :: 0 <= i < |cleared| ==> cleared[i] in cleared;
    Seqs.FilterNone(cleared, (n: Notification) => n.userId == userId);
  }

  // ---------------------------------------------------------------------------
  // The store
  // ---------------------------------------------------------------------------

  class NotificationStore {
    var notifications: seq<Notification>

    constructor ()
      ensures notifications == []
    {
      notifications := [];
    }

    method AddNotification(draft: NotificationDraft, id: string, now: Timestamp)
      modifies this
      ensures notifications == AfterAdd(old(notifications), draft, id, now)
    {
      notifications := [Issued(draft, id, now)] + notifications;
    }

    method MarkAsRead(notificationId: string)
      modifies this
      ensures notifications == AfterMarkAsRead(old(notifications), notificationId)
    {
      notifications := Seqs.MapWhere(notifications, (n: Notification) => n.id == notificationId,
                                     (n: Notification) => n.(isRead := true));
    }

    method MarkAllAsRead(userId: string)
      modifies this
      ensures notifications == AfterMarkAllAsRead(old(notifications), userId)
    {
      notifications := Seqs.MapWhere(notifications, (n: Notification) => n.userId == userId,
                                     (n: Notification) => n.(isRead := true));
    }

    method ClearNotifications(userId: string)
      modifies this
      ensures notifications == AfterClear(old(notifications), userId)
    {
      notifications := Seqs.Filter(notifications, (n: Notification) => n.userId != userId);
    }

    function GetUserNotifications(userId: string): (r: seq<Notification>)
      reads this
      ensures forall n :: n in r <==> n in notifications && n.userId == userId
    {
      UserNotifications(notifications, userId)
    }

    function GetUnreadCount(userId: string): (c: nat)
      reads this
      ensures c == |Seqs.Filter(UserNotifications(notifications, userId), (n: Notification) => !n.isRead)|
    {
      UnreadAtMostUserNotifications(notifications, userId);
      UnreadCount(notifications, userId)
    }
  }
}
