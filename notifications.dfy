/**
 * The notification dropdown
 * (frontend/src/components/notifications/NotificationCenter.jsx): a list of
 * notifications held as component state, an unread count, and two handlers
 * that mark entries read.
 */
module Notifications {

  /**
   * One notification. `read` is false while the source's `read` key is still
   * absent (falsy) and true once a handler has set it.
   */
  datatype Notification = Notification(
    id: int, title: string, description: string, severity: string,
    timestamp: int, kind: string, link: string, read: bool)

  /** The initial state: three notifications, none read, stamped now, one and two hours ago. */
  function MockNotifications(now: int): (s: seq<Notification>)
    ensures |s| == 3
    ensures forall i :: 0 <= i < |s| ==> !s[i].read && s[i].id == i + 1
  {
    [ Notification(1, "High Heart Rate Alert", "Your heart rate has exceeded the normal range.",
        "high", now, "alert", "/dashboard?tab=alerts", false),
      Notification(2, "Blood Pressure Warning", "Your blood pressure is slightly elevated.",
        "medium", now - 3600000, "alert", "/dashboard?tab=alerts", false),
      Notification(3, "New Health Report", "Your monthly health report is ready to view.",
        "low", now - 7200000, "report", "/dashboard?tab=metrics", false) ]
  }

  /** `notifications.filter(n => !n.read).length`, counted from the end. */
  function Unread(s: seq<Notification>): (n: nat)
    ensures n <= |s|
  {
    if s == [] then 0 else Unread(s[..|s| - 1]) + (if s[|s| - 1].read then 0 else 1)
  }

  /** The positions of the unread entries. */
  ghost function UnreadPositions(s: seq<Notification>): set<int> {
    set i | 0 <= i < |s| && !s[i].read
  }

  /** The unread count is the number of positions holding an unread entry. */
  lemma {:induction false} UnreadCountsPositions(s: seq<Notification>)
    ensures Unread(s) == |UnreadPositions(s)|
  {
    if s != [] {
      var init := s[..|s| - 1];
      UnreadCountsPositions(init);
      if s[|s| - 1].read {
        assert UnreadPositions(s) == UnreadPositions(init);
      } else {
        assert UnreadPositions(s) == UnreadPositions(init) + {|s| - 1};
      }
    }
  }

  /** The update of `handleNotificationClick`: every entry with that id becomes read. */
  function MarkRead(s: seq<Notification>, id: int): (r: seq<Notification>)
    ensures |r| == |s|
    ensures forall i :: 0 <= i < |s| ==>
      r[i] == if s[i].id == id then s[i].(read := true) else s[i]
  {
    seq(|s|, i requires 0 <= i < |s| => if s[i].id == id then s[i].(read := true) else s[i])
  }

  /** The update of "Mark all as read": every entry becomes read. */
  function MarkAllRead(s: seq<Notification>): (r: seq<Notification>)
    ensures |r| == |s|
    ensures forall i :: 0 <= i < |s| ==> r[i] == s[i].(read := true)
  {
    seq(|s|, i requires 0 <= i < |s| => s[i].(read := true))
  }

  /** Marking the same id twice is the same as marking it once. */
  lemma MarkReadIdempotent(s: seq<Notification>, id: int)
    ensures MarkRead(MarkRead(s, id), id) == MarkRead(s, id)
  {
  }

  /**
   * Marking an id read never raises the unread count; it lowers it when some
   * entry with that id was unread, and afterwards no entry with it is unread.
   */
  lemma {:induction false} MarkReadLowersUnread(s: seq<Notification>, id: int)
    ensures Unread(MarkRead(s, id)) <= Unread(s)
    ensures (exists i :: 0 <= i < |s| && s[i].id == id && !s[i].read) ==>
      Unread(MarkRead(s, id)) < Unread(s)
    ensures forall i :: 0 <= i < |s| && s[i].id == id ==> MarkRead(s, id)[i].read
  {
    if s != [] {
      var init := s[..|s| - 1];
      var r := MarkRead(s, id);
      assert r[..|r| - 1] == MarkRead(init, id);
      MarkReadLowersUnread(init, id);
      if exists i :: 0 <= i < |s| && s[i].id == id && !s[i].read {
        var i :| 0 <= i < |s| && s[i].id == id && !s[i].read;
        if i < |s| - 1 {
          assert init[i].id == id && !init[i].read;
        }
      }
    }
  }

  /** After "Mark all as read" nothing is unread, and doing it again changes nothing. */
  lemma {:induction false} MarkAllClearsUnread(s: seq<Notification>)
    ensures Unread(MarkAllRead(s)) == 0
    ensures MarkAllRead(MarkAllRead(s)) == MarkAllRead(s)
  {
    if s != [] {
      var r := MarkAllRead(s);
      assert r[..|r| - 1] == MarkAllRead(s[..|s| - 1]);
      MarkAllClearsUnread(s[..|s| - 1]);
    }
  }

  /** Marking every id that occurs one by one ends where "Mark all as read" does. */
  lemma MarkAllIsMarkEach(s: seq<Notification>)
    ensures MarkAllRead(s) == MarkEach(s, Ids(s))
  {
    MarkEachCovers(s, Ids(s));
  }

  function Ids(s: seq<Notification>): (ids: seq<int>)
    ensures |ids| == |s| && forall i :: 0 <= i < |s| ==> ids[i] == s[i].id
  {
    seq(|s|, i requires 0 <= i < |s| => s[i].id)
  }

  /** Clicking the notifications with the given ids, one after another. */
  function MarkEach(s: seq<Notification>, ids: seq<int>): (r: seq<Notification>)
    ensures |r| == |s|
    decreases ids
  {
    if ids == [] then s else MarkEach(MarkRead(s, ids[0]), ids[1..])
  }

  lemma {:induction false} MarkEachCovers(s: seq<Notification>, ids: seq<int>)
    ensures forall i :: 0 <= i < |s| ==>
      MarkEach(s, ids)[i] == if s[i].id in ids then s[i].(read := true) else s[i]
    decreases ids
  {
    if ids != [] {
      MarkEachCovers(MarkRead(s, ids[0]), ids[1..]);
      assert forall x :: x in ids <==> x == ids[0] || x in ids[1..];
    }
  }

  lemma InitialUnreadCount(now: int)
    ensures Unread(MockNotifications(now)) == 3
  {
    var s := MockNotifications(now);
    UnreadCountsPositions(s);
    assert UnreadPositions(s) == {0, 1, 2};
  }

  /** The component: its `notifications` state and the handlers that replace it. */
  class NotificationCenter {
    var notifications: seq<Notification>

    /** `useState(mockNotifications)`, with the clock reading passed in. */
    constructor (now: int)
      ensures notifications == MockNotifications(now)
    {
      notifications := MockNotifications(now);
    }

    /** `unreadCount`. */
    function UnreadCount(): (n: nat)
      reads this
      ensures n <= |notifications|
    {
      Unread(notifications)
    }

    /** The count badge on the bell and the "Mark all as read" button are both shown exactly when something is unread. */
    predicate ShowsUnreadControls()
      reads this
      ensures ShowsUnreadControls() ==> |notifications| > 0
    {
      UnreadCount() > 0
    }

    /** "No notifications" is shown instead of the list exactly when the list is empty. */
    predicate ShowsEmptyMessage()
      reads this
      ensures ShowsEmptyMessage() ==> !ShowsUnreadControls()
    {
      |notifications| == 0
    }

    /**
     * `handleNotificationClick(notification)`: marks every entry with the
     * clicked notification's id read and returns the link to navigate to.
     */
    method HandleNotificationClick(notification: Notification) returns (target: string)
      modifies this
      ensures notifications == MarkRead(old(notifications), notification.id)
      ensures target == notification.link
      ensures UnreadCount() <= old(UnreadCount())
      ensures Ids(notifications) == Ids(old(notifications))
    {
      MarkReadLowersUnread(notifications, notification.id);
      notifications := MarkRead(notifications, notification.id);
      target := notification.link;
    }

    /** The "Mark all as read" button. */
    method MarkAllAsRead()
      modifies this
      ensures notifications == MarkAllRead(old(notifications))
      ensures UnreadCount() == 0 && !ShowsUnreadControls()
      ensures Ids(notifications) == Ids(old(notifications))
    {
      MarkAllClearsUnread(notifications);
      notifications := MarkAllRead(notifications);
    }
  }
}
