/** `NotificationService` of `src/lib/notifications.ts`: an in-browser list of
    notifications, newest first, capped at 100 entries. The list that the service
    re-reads from and writes back to local storage on every call is the field
    `notifications`; generated ids and timestamps are parameters. */
module Notifications {
  import opened Common

  /** The most entries the list keeps (line 45). */
  const Capacity := 100

  datatype Notification = Notification(
    id: string,
    kind: string,
    title: string,
    message: string,
    timestamp: string,
    read: bool,
    userId: string)

  function AddressedTo(userId: string): Notification -> bool {
    (n: Notification) => n.userId == userId
  }

  function IsUnread(n: Notification): bool {
    !n.read
  }

  function UnreadFor(userId: string): Notification -> bool {
    (n: Notification) => n.userId == userId && !n.read
  }

  /** Lines 53-56, `getNotificationsForUser`: exactly the user's entries, in stored order. */
  function NotificationsForUser(list: seq<Notification>, userId: string): (r: seq<Notification>)
    ensures |r| <= |list|
    ensures forall i :: 0 <= i < |r| ==> r[i].userId == userId
    ensures forall n :: n in r <==> n in list && n.userId == userId
    ensures list != [] ==>
              r == (if list[0].userId == userId then [list[0]] else []) + NotificationsForUser(list[1..], userId)
    decreases |list|
  {
    assert forall n :: n in Filter(list, AddressedTo(userId)) <==> n in list && n.userId == userId by {
      forall n ensures n in Filter(list, AddressedTo(userId)) <==> n in list && n.userId == userId {
        FilterMember(list, AddressedTo(userId), n);
      }
    }
    Filter(list, AddressedTo(userId))
  }

  /** Lines 58-61, `getUnreadCount`. */
  function UnreadCount(list: seq<Notification>, userId: string): (c: nat)
    ensures c <= |NotificationsForUser(list, userId)|
  {
    |Filter(NotificationsForUser(list, userId), IsUnread)|
  }

  /** The unread count is the number of entries that are both the user's and unread. */
  lemma {:induction false} UnreadCountIsDirect(list: seq<Notification>, userId: string)
    ensures UnreadCount(list, userId) == |Filter(list, UnreadFor(userId))|
    decreases |list|
  {
    if list != [] {
      UnreadCountIsDirect(list[1..], userId);
      FilterCons(list, AddressedTo(userId));
      FilterCons(list, UnreadFor(userId));
      var mine := NotificationsForUser(list, userId);
      var rest := NotificationsForUser(list[1..], userId);
      if AddressedTo(userId)(list[0]) {
        assert mine == [list[0]] + rest;
        FilterCons(mine, IsUnread);
        assert mine[0] == list[0] && mine[1..] == rest;
        assert |Filter(mine, IsUnread)| == (if IsUnread(list[0]) then 1 else 0) + |Filter(rest, IsUnread)|;
      } else {
        assert mine == rest;
      }
    }
  }

  /** Lines 41-47: `unshift`, then `splice(100)`. */
  function Pushed(list: seq<Notification>, n: Notification): (r: seq<Notification>)
    ensures |r| == if |list| < Capacity then |list| + 1 else Capacity
    ensures r[0] == n
    ensures forall i :: 1 <= i < |r| ==> r[i] == list[i - 1]
  {
    if |list| + 1 > Capacity then ([n] + list)[..Capacity] else [n] + list
  }

  /** Below the cap, a new notification is its user's newest entry and adds one to that
      user's unread count, and every other user's entries are untouched. */
  lemma PushedForUsers(list: seq<Notification>, n: Notification, other: string)
    requires |list| < Capacity && !n.read && other != n.userId
    ensures NotificationsForUser(Pushed(list, n), n.userId) == [n] + NotificationsForUser(list, n.userId)
    ensures UnreadCount(Pushed(list, n), n.userId) == UnreadCount(list, n.userId) + 1
    ensures NotificationsForUser(Pushed(list, n), other) == NotificationsForUser(list, other)
  {
    var r := Pushed(list, n);
    assert r == [n] + list;
    assert r[1..] == list;
    FilterCons(r, AddressedTo(n.userId));
    FilterCons(r, AddressedTo(other));
    FilterCons(NotificationsForUser(r, n.userId), IsUnread);
  }

  /** At the cap, the oldest entry is the one dropped: the list is the new entry followed by
      the 99 newest old ones. */
  lemma PushedAtCapacity(list: seq<Notification>, n: Notification)
    requires |list| >= Capacity
    ensures Pushed(list, n) == [n] + list[..Capacity - 1]
  {
  }

  /** Lines 63-70: the first entry with that id (if any) is marked read. */
  function MarkedRead(list: seq<Notification>, id: string): (r: seq<Notification>)
    ensures |r| == |list|
    ensures FirstIndex(list, (n: Notification) => n.id == id).None? ==> r == list
    ensures FirstIndex(list, (n: Notification) => n.id == id).Some? ==>
              var k := FirstIndex(list, (n: Notification) => n.id == id).value;
              r[k] == list[k].(read := true) && forall i :: 0 <= i < |list| && i != k ==> r[i] == list[i]
  {
    match FirstIndex(list, (n: Notification) => n.id == id)
    case None => list
    case Some(k) => list[k := list[k].(read := true)]
  }

  /** Marking read twice is marking read once. */
  lemma MarkedReadIdempotent(list: seq<Notification>, id: string)
    ensures MarkedRead(MarkedRead(list, id), id) == MarkedRead(list, id)
  {
    var once := MarkedRead(list, id);
    var p := (n: Notification) => n.id == id;
    match FirstIndex(list, p)
    case None =>
    case Some(k) =>
      assert p(once[k]);
      assert forall j :: 0 <= j < k ==> once[j] == list[j];
      assert FirstIndex(once, p) == Some(k);
  }

  /** Lines 72-80: every entry of the user is marked read. */
  function AllRead(list: seq<Notification>, userId: string): (r: seq<Notification>)
    ensures |r| == |list|
    ensures forall i :: 0 <= i < |list| ==>
              r[i] == if list[i].userId == userId then list[i].(read := true) else list[i]
  {
    seq(|list|, i requires 0 <= i < |list| =>
      if list[i].userId == userId then list[i].(read := true) else list[i])
  }

  /** After marking all read the user has no unread entry, and every other user's entries
      are exactly as they were. */
  lemma AllReadClears(list: seq<Notification>, userId: string, other: string)
    requires other != userId
    ensures UnreadCount(AllRead(list, userId), userId) == 0
    ensures NotificationsForUser(AllRead(list, userId), other) == NotificationsForUser(list, other)
  {
    var r := AllRead(list, userId);
    UnreadCountIsDirect(r, userId);
    FilterNone(r, UnreadFor(userId));
    FilterPointwise(r, list, AddressedTo(other));
  }

  /** Line 88: the message of a referral-submitted notification. */
  function ReferralMessage(affiliateName: string, leadName: string, company: Option<string>): string {
    affiliateName + " submitted a referral for " + leadName +
      (if Truthy(company) then " from " + company.value else "")
  }

  function ReferralNotice(id: string, timestamp: string, adminId: string,
                          affiliateName: string, leadName: string, company: Option<string>): Notification {
    Notification(id, "referral_submitted", "New Referral Submitted",
                 ReferralMessage(affiliateName, leadName, company), timestamp, false, adminId)
  }

  /** The list after pushing `ns` one after the other. */
  function PushedAll(list: seq<Notification>, ns: seq<Notification>): seq<Notification>
    decreases |ns|
  {
    if ns == [] then list else PushedAll(Pushed(list, ns[0]), ns[1..])
  }

  lemma {:induction false} PushedAllSnoc(list: seq<Notification>, ns: seq<Notification>, n: Notification)
    ensures PushedAll(list, ns + [n]) == Pushed(PushedAll(list, ns), n)
    decreases |ns|
  {
    if ns == [] {
      assert ns + [n] == [n];
      assert [n][1..] == [];
    } else {
      assert (ns + [n])[0] == ns[0];
      assert (ns + [n])[1..] == ns[1..] + [n];
      PushedAllSnoc(Pushed(list, ns[0]), ns[1..], n);
    }
  }

  /** `s` back to front. */
  function Reversed(s: seq<Notification>): (r: seq<Notification>)
    ensures |r| == |s|
    ensures forall i :: 0 <= i < |s| ==> r[i] == s[|s| - 1 - i]
    decreases |s|
  {
    if s == [] then [] else Reversed(s[1..]) + [s[0]]
  }

  /** While the list stays under the cap, pushing several entries puts them in front, newest
      (the last pushed) first, with the old list intact behind them. */
  lemma {:induction false} PushedAllBelowCapacity(list: seq<Notification>, ns: seq<Notification>)
    requires |list| + |ns| <= Capacity
    ensures PushedAll(list, ns) == Reversed(ns) + list
    decreases |ns|
  {
    if ns != [] {
      assert Pushed(list, ns[0]) == [ns[0]] + list;
      PushedAllBelowCapacity([ns[0]] + list, ns[1..]);
    }
  }

  /** The length of a list of `n` entries once it is cut to the cap. */
  function Capped(n: nat): nat {
    if n < Capacity then n else Capacity
  }

  /** At any fill level, pushing several entries puts them in front, newest first, and the
      list is then cut to the cap, so the oldest entries are the ones dropped. A list longer
      than the cap, which no push produces, is only cut once something is pushed. */
  lemma {:induction false} PushedAllCapped(list: seq<Notification>, ns: seq<Notification>)
    requires |list| <= Capacity || ns != []
    ensures PushedAll(list, ns) == (Reversed(ns) + list)[..Capped(|list| + |ns|)]
    decreases |ns|
  {
    if ns == [] {
      assert Reversed(ns) + list == list;
    } else {
      var p := Pushed(list, ns[0]);
      var rest := Reversed(ns[1..]);
      assert p == ([ns[0]] + list)[..Capped(|list| + 1)];
      PushedAllCapped(p, ns[1..]);
      assert Reversed(ns) == rest + [ns[0]];
      var whole := Reversed(ns) + list;
      var n := Capped(|list| + |ns|);
      assert Capped(|p| + |ns[1..]|) == n;
      var lhs := (rest + p)[..n];
      forall i | 0 <= i < n
        ensures lhs[i] == whole[i]
      {
        if i >= |rest| {
          assert lhs[i] == p[i - |rest|] == ([ns[0]] + list)[i - |rest|];
        }
      }
    }
  }

  class NotificationService {
    var notifications: seq<Notification>

    constructor ()
      ensures notifications == []
    {
      notifications := [];
    }

    /** Lines 33-51. */
    method CreateNotification(kind: string, title: string, message: string, userId: string,
                              id: string, timestamp: string)
      returns (n: Notification)
      modifies this
      ensures n == Notification(id, kind, title, message, timestamp, false, userId)
      ensures notifications == Pushed(old(notifications), n)
    {
      n := Notification(id, kind, title, message, timestamp, false, userId);
      var list := [n] + notifications;
      if |list| > Capacity {
        list := list[..Capacity];
      }
      notifications := list;
    }

    /** Lines 63-70. */
    method MarkAsRead(id: string)
      modifies this
      ensures notifications == MarkedRead(old(notifications), id)
    {
      var k := FirstIndex(notifications, (n: Notification) => n.id == id);
      if k.Some? {
        notifications := notifications[k.value := notifications[k.value].(read := true)];
      }
    }

    /** Lines 72-80: the `forEach` over the list. */
    method MarkAllAsRead(userId: string)
      modifies this
      ensures notifications == AllRead(old(notifications), userId)
    {
      var i := 0;
      while i < |notifications|
        invariant 0 <= i <= |notifications| == |old(notifications)|
        invariant forall j :: 0 <= j < i ==> notifications[j] == AllRead(old(notifications), userId)[j]
        invariant notifications[i..] == old(notifications)[i..]
      {
        if notifications[i].userId == userId {
          notifications := notifications[i := notifications[i].(read := true)];
        }
        i := i + 1;
      }
    }

    /** Lines 83-93: one notification per admin, in the order of `adminIds`; the k-th
        notification created gets the id `newId(k)`. */
    method NotifyReferralSubmitted(affiliateName: string, leadName: string, company: Option<string>,
                                   adminIds: seq<string>, newId: nat -> string, timestamp: string)
      modifies this
      ensures notifications == PushedAll(old(notifications),
                seq(|adminIds|, k requires 0 <= k < |adminIds| =>
                  ReferralNotice(newId(k), timestamp, adminIds[k], affiliateName, leadName, company)))
    {
      ghost var all := seq(|adminIds|, k requires 0 <= k < |adminIds| =>
                         ReferralNotice(newId(k), timestamp, adminIds[k], affiliateName, leadName, company));
      var k := 0;
      while k < |adminIds|
        invariant 0 <= k <= |adminIds|
        invariant notifications == PushedAll(old(notifications), all[..k])
      {
        var n := CreateNotification("referral_submitted", "New Referral Submitted",
                                    ReferralMessage(affiliateName, leadName, company),
                                    adminIds[k], newId(k), timestamp);
        assert all[..k + 1] == all[..k] + [n];
        PushedAllSnoc(old(notifications), all[..k], n);
        k := k + 1;
      }
      assert all[..k] == all;
    }
  }

  /** Each admin gets one notification addressed to them (the last admin's first), at any
      fill level of a list the service wrote, as long as there are no more admins than the
      cap; behind them come the newest old entries that still fit (all of them while the
      list stays under the cap). */
  lemma ReferralNoticesAddressed(list: seq<Notification>, adminIds: seq<string>, newId: nat -> string,
                                 timestamp: string, affiliateName: string, leadName: string, company: Option<string>)
    requires |list| <= Capacity && |adminIds| <= Capacity
    ensures var ns := seq(|adminIds|, k requires 0 <= k < |adminIds| =>
                        ReferralNotice(newId(k), timestamp, adminIds[k], affiliateName, leadName, company));
            var r := PushedAll(list, ns);
            && |r| == (if |list| + |adminIds| < Capacity then |list| + |adminIds| else Capacity)
            && (forall i :: 0 <= i < |adminIds| ==>
                  r[i].userId == adminIds[|adminIds| - 1 - i] && !r[i].read && r[i].kind == "referral_submitted")
            && r[|adminIds|..] == list[..|r| - |adminIds|]
  {
    var ns := seq(|adminIds|, k requires 0 <= k < |adminIds| =>
                ReferralNotice(newId(k), timestamp, adminIds[k], affiliateName, leadName, company));
    forall k | 0 <= k < |ns|
      ensures NoticeFor(ns[k], adminIds[k])
    {
      assert ns[k] == ReferralNotice(newId(k), timestamp, adminIds[k], affiliateName, leadName, company);
    }
    PushedAllCapped(list, ns);
    ReversedNotices(ns, adminIds);
    var r := PushedAll(list, ns);
    var whole := Reversed(ns) + list;
    assert r == whole[..Capped(|list| + |ns|)];
    forall i | 0 <= i < |adminIds|
      ensures NoticeFor(r[i], adminIds[|adminIds| - 1 - i])
    {
      assert r[i] == Reversed(ns)[i];
    }
    assert r[|ns|..] == list[..|r| - |ns|] by {
      forall i | 0 <= i < |r| - |ns|
        ensures r[|ns|..][i] == list[i]
      {
        assert r[|ns| + i] == whole[|ns| + i];
      }
    }
  }

  /** An unread referral notice addressed to `admin`. */
  predicate NoticeFor(n: Notification, admin: string) {
    n.userId == admin && !n.read && n.kind == "referral_submitted"
  }

  /** Reversing the notices reverses the admins they are addressed to. */
  lemma ReversedNotices(ns: seq<Notification>, adminIds: seq<string>)
    requires |ns| == |adminIds|
    requires forall k :: 0 <= k < |ns| ==> NoticeFor(ns[k], adminIds[k])
    ensures forall i :: 0 <= i < |ns| ==> NoticeFor(Reversed(ns)[i], adminIds[|ns| - 1 - i])
  {
  }
}
