/** The notification drawer's state: the fetched notifications and an
    unread counter, which the mark-as-read handlers update after the server
    confirms. A failed request leaves both as they were. */
module NotificationCenter {
  import opened Seqs

  datatype Level = Success | Error | Warning | Info

  datatype Notification = Notification(id: string, level: Level, title: string, message: string,
                                       timestamp: int, read: bool)

  predicate Unseen(n: Notification)
  {
    !n.read
  }

  function UnseenWith(id: string): Notification -> bool
  {
    (n: Notification) => n.id == id && !n.read
  }

  /** `data.filter(n => !n.read).length` */
  function Unread(s: seq<Notification>): nat
  {
    Count(s, Unseen)
  }

  /** `prev.map(n => n.id === id ? { ...n, read: true } : n)` */
  function MarkRead(s: seq<Notification>, id: string): (r: seq<Notification>)
    ensures |r| == |s|
    ensures forall i :: 0 <= i < |s| && s[i].id == id ==> r[i] == s[i].(read := true)
    ensures forall i :: 0 <= i < |s| && s[i].id != id ==> r[i] == s[i]
  {
    seq(|s|, i requires 0 <= i < |s| => if s[i].id == id then s[i].(read := true) else s[i])
  }

  /** `prev.map(n => ({ ...n, read: true }))` */
  function MarkAllRead(s: seq<Notification>): (r: seq<Notification>)
    ensures |r| == |s|
    ensures forall i :: 0 <= i < |s| ==> r[i] == s[i].(read := true)
  {
    seq(|s|, i requires 0 <= i < |s| => s[i].(read := true))
  }

  /** Marking an id read removes from the unread count exactly the unread
      entries with that id. */
  lemma {:induction false} MarkReadCount(s: seq<Notification>, id: string)
    ensures Unread(MarkRead(s, id)) + Count(s, UnseenWith(id)) == Unread(s)
  {
    if s != [] {
      MarkReadCount(s[1..], id);
      assert MarkRead(s, id)[1..] == MarkRead(s[1..], id);
    }
  }

  /** After marking everything read, nothing is unread. */
  lemma {:induction false} MarkAllReadCount(s: seq<Notification>)
    ensures Unread(MarkAllRead(s)) == 0
  {
    if s != [] {
      MarkAllReadCount(s[1..]);
      assert MarkAllRead(s)[1..] == MarkAllRead(s[1..]);
    }
  }

  /** Exactly one entry satisfies `p`: the count is one. */
  lemma {:induction false} CountSingle<T>(s: seq<T>, p: T -> bool, k: nat)
    requires k < |s| && p(s[k])
    requires forall j :: 0 <= j < |s| && j != k ==> !p(s[j])
    ensures Count(s, p) == 1
  {
    if k == 0 {
      CountNone(s[1..], p);
    } else {
      CountSingle(s[1..], p, k - 1);
    }
  }

  lemma {:induction false} CountNone<T>(s: seq<T>, p: T -> bool)
    requires forall j :: 0 <= j < |s| ==> !p(s[j])
    ensures Count(s, p) == 0
  {
    if s != [] {
      CountNone(s[1..], p);
    }
  }

  /** Marking a unique unread id lowers the unread count by one. */
  lemma MarkUniqueUnread(s: seq<Notification>, k: nat)
    requires k < |s| && !s[k].read
    requires forall j :: 0 <= j < |s| && j != k ==> s[j].id != s[k].id
    ensures Unread(MarkRead(s, s[k].id)) == Unread(s) - 1
  {
    MarkReadCount(s, s[k].id);
    CountSingle(s, UnseenWith(s[k].id), k);
  }

  class Center {
    var notifications: seq<Notification>
    /** Starts at 0, is set to a count and only ever lowered to 0 at the
        least, so it is never negative. */
    var unreadCount: nat

    /** The counter agrees with the list. */
    ghost predicate Consistent()
      reads this
    {
      unreadCount == Unread(notifications)
    }

    constructor ()
      ensures notifications == [] && unreadCount == 0
      ensures Consistent()
    {
      notifications := [];
      unreadCount := 0;
    }

    /** `fetchNotifications`: `ok` is whether the request succeeded and
        `data` the list it returned. */
    method Fetch(ok: bool, data: seq<Notification>)
      modifies this
      ensures ok ==> notifications == data && unreadCount == Unread(data)
      ensures !ok ==> notifications == old(notifications) && unreadCount == old(unreadCount)
      ensures ok ==> Consistent()
    {
      if ok {
        notifications := data;
        unreadCount := Unread(data);
      }
    }

    /** `markAsRead(id)`. The counter is lowered but never below zero, and
        it stays in step with the list when the id names one unread entry
        (the only entries with a mark-as-read button). */
    method MarkAsRead(id: string, ok: bool)
      modifies this
      ensures ok ==> notifications == MarkRead(old(notifications), id)
      ensures ok ==> unreadCount == if old(unreadCount) > 0 then old(unreadCount) - 1 else 0
      ensures !ok ==> notifications == old(notifications) && unreadCount == old(unreadCount)
      ensures ok && old(Consistent()) && Count(old(notifications), UnseenWith(id)) == 1 ==> Consistent()
    {
      if ok {
        MarkReadCount(notifications, id);
        notifications := MarkRead(notifications, id);
        unreadCount := if unreadCount - 1 > 0 then unreadCount - 1 else 0;
      }
    }

    /** `markAllAsRead` */
    method MarkAllAsRead(ok: bool)
      modifies this
      ensures ok ==> notifications == MarkAllRead(old(notifications)) && unreadCount == 0
      ensures ok ==> Consistent()
      ensures !ok ==> notifications == old(notifications) && unreadCount == old(unreadCount)
    {
      if ok {
        MarkAllReadCount(notifications);
        notifications := MarkAllRead(notifications);
        unreadCount := 0;
      }
    }
  }
}
