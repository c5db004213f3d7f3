/** The value-level rules of src/controllers/notificationController.js: the
    lookup by id and the listing of one user's notifications, newest first. */
module NotificationRules {
  import opened Outcomes
  import opened NotificationModel

  const NotificationNotFound := Failure(NotFound, "Notification not found")
  const NotOwner := Failure(Unauthorized, "Not authorized to update this notification")

  /** `Notification.findById(id)`: where the notification sits in the
      collection, if it is there. */
  function IndexOfNotification(ns: seq<Notification>, id: NotificationId): (r: Option<nat>)
    ensures r.Some? ==> r.value < |ns| && ns[r.value].id == id
    ensures r.None? <==> forall i :: 0 <= i < |ns| ==> ns[i].id != id
  {
    if ns == [] then None
    else if ns[0].id == id then Some(0)
    else
      match IndexOfNotification(ns[1..], id)
      case None =>
        assert forall i :: 1 <= i < |ns| ==> ns[i] == ns[1..][i - 1];
        None
      case Some(k) => Some(k + 1)
  }

  /** `Notification.find({ userId })`, in stored order. */
  function ForUser(ns: seq<Notification>, u: Id): (r: seq<Notification>)
    ensures forall n :: n in r <==> n in ns && n.userId == u
    ensures forall n :: multiset(r)[n] == (if n.userId == u then multiset(ns)[n] else 0)
    ensures |r| <= |ns|
  {
    if ns == [] then []
    else
      assert ns == [ns[0]] + ns[1..];
      (if ns[0].userId == u then [ns[0]] else []) + ForUser(ns[1..], u)
  }

  /** Ordered by `createdAt`, descending. */
  predicate NewestFirst(s: seq<Notification>)
  {
    forall i, j :: 0 <= i < j < |s| ==> s[i].createdAt >= s[j].createdAt
  }

  /** A notification at least as new as the head of a newest-first list
      may be put in front of it. */
  lemma PrependNewest(x: Notification, t: seq<Notification>)
    requires NewestFirst(t)
    requires t != [] ==> x.createdAt >= t[0].createdAt
    ensures NewestFirst([x] + t)
  {
    var r := [x] + t;
    forall i, j | 0 <= i < j < |r|
      ensures r[i].createdAt >= r[j].createdAt
    {
      if i == 0 {
        assert r[j] == t[j - 1] && t[0].createdAt >= t[j - 1].createdAt;
      } else {
        assert r[i] == t[i - 1] && r[j] == t[j - 1];
      }
    }
  }

  /** Places `n` after every notification strictly newer than it and
      before the rest. */
  function InsertByDate(n: Notification, s: seq<Notification>): (r: seq<Notification>)
    ensures |r| == |s| + 1
    ensures r[0] == n || (s != [] && r[0] == s[0])
    ensures s == [] || s[0].createdAt <= n.createdAt ==> r == [n] + s
    ensures s != [] && s[0].createdAt > n.createdAt ==> r[0] == s[0]
  {
    if s == [] || s[0].createdAt <= n.createdAt then [n] + s
    else [s[0]] + InsertByDate(n, s[1..])
  }

  /** Inserting into a newest-first list keeps it newest first and adds
      exactly `n`. */
  lemma {:induction false} InsertByDateSorted(n: Notification, s: seq<Notification>)
    requires NewestFirst(s)
    ensures NewestFirst(InsertByDate(n, s))
    ensures multiset(InsertByDate(n, s)) == multiset(s) + multiset{n}
  {
    if s == [] || s[0].createdAt <= n.createdAt {
      PrependNewest(n, s);
    } else {
      var rest := InsertByDate(n, s[1..]);
      assert s == [s[0]] + s[1..];
      InsertByDateSorted(n, s[1..]);
      PrependNewest(s[0], rest);
    }
  }

  /** `.sort({ createdAt: -1 })`, as an insertion sort from the back. */
  function SortNewestFirst(s: seq<Notification>): (r: seq<Notification>)
    ensures NewestFirst(r)
    ensures multiset(r) == multiset(s)
  {
    if s == [] then []
    else
      assert s == [s[0]] + s[1..];
      InsertByDateSorted(s[0], SortNewestFirst(s[1..]));
      InsertByDate(s[0], SortNewestFirst(s[1..]))
  }

  /** The notifications stamped `t`, in order. */
  function StampedAt(s: seq<Notification>, t: nat): seq<Notification>
  {
    if s == [] then []
    else (if s[0].createdAt == t then [s[0]] else []) + StampedAt(s[1..], t)
  }

  /** Unfolding StampedAt on a list with a known head. */
  lemma StampedAtCons(x: Notification, rest: seq<Notification>, t: nat)
    ensures StampedAt([x] + rest, t) == (if x.createdAt == t then [x] else []) + StampedAt(rest, t)
  {
    assert ([x] + rest)[0] == x && ([x] + rest)[1..] == rest;
  }

  /** Inserting `n` puts it in front of every notification of its own age
      and leaves the other ages alone. */
  lemma {:induction false} InsertByDateTies(n: Notification, s: seq<Notification>, t: nat)
    ensures n.createdAt == t ==> StampedAt(InsertByDate(n, s), t) == [n] + StampedAt(s, t)
    ensures n.createdAt != t ==> StampedAt(InsertByDate(n, s), t) == StampedAt(s, t)
  {
    if s == [] || s[0].createdAt <= n.createdAt {
      assert InsertByDate(n, s) == [n] + s;
      StampedAtCons(n, s, t);
      if n.createdAt != t {
        assert [] + StampedAt(s, t) == StampedAt(s, t);
      }
    } else {
      var rest := InsertByDate(n, s[1..]);
      assert InsertByDate(n, s) == [s[0]] + rest;
      InsertByDateTies(n, s[1..], t);
      StampedAtCons(s[0], rest, t);
      var later := StampedAt(s[1..], t);
      if n.createdAt == t {
        assert s[0].createdAt != t;
        assert StampedAt(InsertByDate(n, s), t) == [] + StampedAt(rest, t);
        assert StampedAt(s, t) == [] + later;
      }
    }
  }

  /** The sort is stable: notifications of equal age come out in their
      stored order. */
  lemma {:induction false} SortNewestFirstStable(s: seq<Notification>, t: nat)
    ensures StampedAt(SortNewestFirst(s), t) == StampedAt(s, t)
  {
    if s != [] {
      SortNewestFirstStable(s[1..], t);
      InsertByDateTies(s[0], SortNewestFirst(s[1..]), t);
    }
  }

  /** The listing `getNotifications` answers for user `u`. */
  function Inbox(ns: seq<Notification>, u: Id): seq<Notification>
  {
    SortNewestFirst(ForUser(ns, u))
  }

  /** The listing holds exactly the user's notifications, as many times as
      they are stored, newest first, and those of equal age in stored
      order. */
  lemma InboxIsUsersNewestFirst(ns: seq<Notification>, u: Id)
    ensures NewestFirst(Inbox(ns, u))
    ensures forall n :: multiset(Inbox(ns, u))[n] == (if n.userId == u then multiset(ns)[n] else 0)
    ensures forall n :: n in Inbox(ns, u) <==> n in ns && n.userId == u
    ensures forall t :: StampedAt(Inbox(ns, u), t) == StampedAt(ForUser(ns, u), t)
  {
    var r := Inbox(ns, u);
    forall t: nat
      ensures StampedAt(r, t) == StampedAt(ForUser(ns, u), t)
    {
      SortNewestFirstStable(ForUser(ns, u), t);
    }
    forall n
      ensures n in r <==> n in ns && n.userId == u
    {
      assert n in r <==> n in multiset(r);
      assert n in ForUser(ns, u) <==> n in multiset(ForUser(ns, u));
    }
  }
}
