/** The notification context: which notifications a user sees, how a live
    insert joins the list, the unread count, the two read actions and the
    row `addNotification` stores. */
module Notifications {

  import opened Types
  import opened Seqs

  datatype Kind = Info | Success | Warning | Error

  /** A notification as the context holds it (`read` is the `is_read`
      column). A notification is addressed to a user, to a role, or both. */
  datatype Notification = Notification(
    id: string,
    userId: Option<string>,
    targetRole: Option<string>,
    title: string,
    message: string,
    createdAt: Timestamp,
    read: bool,
    kind: Option<Kind>)

  /** The argument of `addNotification`. */
  datatype Request = Request(
    title: string,
    message: string,
    kind: Option<Kind>,
    userId: Option<string>,
    targetRole: Option<string>)

  /** The check the live-insert handler makes: addressed to the user, or
      the user has a role and the notification targets that role. */
  predicate IsRelevant(n: Notification, user: User) {
    || n.userId == Some(user.id)
    || (user.role.Some? && n.targetRole == Some(RoleName(user.role.value)))
  }

  /** The filter `fetchNotifications` builds: an `or` of the two columns
      when the user has a role, the user column alone otherwise. */
  function FetchFilter(user: User): Notification -> bool {
    if user.role.Some? then
      (n: Notification) => n.userId == Some(user.id) || n.targetRole == Some(RoleName(user.role.value))
    else
      (n: Notification) => n.userId == Some(user.id)
  }

  /** The fetch query and the live handler select the same notifications. */
  lemma FetchFilterIsRelevance(user: User, n: Notification)
    ensures FetchFilter(user)(n) <==> IsRelevant(n, user)
  {}

  function NewestFirst(n: Notification): int { -n.createdAt }

  /** `fetchNotifications`: the latest 50 relevant rows, newest first. */
  function Fetch(rows: seq<Notification>, user: User): (r: seq<Notification>)
    ensures |r| <= 50
    ensures forall n :: n in r ==> n in rows && IsRelevant(n, user)
    ensures forall i, j :: 0 <= i < j < |r| ==> r[i].createdAt >= r[j].createdAt
    ensures |r| < 50 ==> forall n :: n in rows && IsRelevant(n, user) ==> n in r
  {
    var relevant := Filter(rows, FetchFilter(user));
    SortByMembers(relevant, NewestFirst);
    var sorted := SortBy(relevant, NewestFirst);
    var r := Take(sorted, 50);
    assert forall n :: n in r ==> n in sorted by {
      forall n | n in r ensures n in sorted {
        var i :| 0 <= i < |r| && r[i] == n;
        assert sorted[i] == n;
      }
    }
    r
  }

  /** A relevant notification the fetch leaves out is not newer than any it
      keeps: the list is full and the oldest entry kept is at least as new. */
  lemma FetchKeepsNewest(rows: seq<Notification>, user: User, n: Notification)
    requires n in rows && IsRelevant(n, user) && n !in Fetch(rows, user)
    ensures |Fetch(rows, user)| == 50
    ensures n.createdAt <= Fetch(rows, user)[49].createdAt
  {
    var relevant := Filter(rows, FetchFilter(user));
    var sorted := SortBy(relevant, NewestFirst);
    var r := Fetch(rows, user);
    assert r == Take(sorted, 50);
    FetchFilterIsRelevance(user, n);
    SortByMembers(relevant, NewestFirst);
    assert n in sorted;
    var k :| 0 <= k < |sorted| && sorted[k] == n;
    if k < 50 {
      assert false;
    }
    assert NewestFirst(sorted[49]) <= NewestFirst(sorted[k]);
  }

  /** The live INSERT handler: a relevant notification is put in front of
      the list, any other leaves the list as it was. */
  function OnInsert(list: seq<Notification>, n: Notification, user: User): (r: seq<Notification>)
    ensures IsRelevant(n, user) ==> r == [n] + list
    ensures !IsRelevant(n, user) ==> r == list
  {
    if IsRelevant(n, user) then [n] + list else list
  }

  /** `unreadCount`. */
  function UnreadCount(list: seq<Notification>): nat {
    |Filter(list, (n: Notification) => !n.read)|
  }

  /** The number of unread entries, counted one position at a time. */
  function UnreadIn(list: seq<Notification>): nat {
    if |list| == 0 then 0 else (if list[0].read then 0 else 1) + UnreadIn(list[1..])
  }

  /** The filtered count the badge shows agrees with the positional count. */
  lemma {:induction false} UnreadCountCounts(list: seq<Notification>)
    ensures UnreadCount(list) == UnreadIn(list)
    ensures UnreadCount(list) <= |list|
  {
    if |list| > 0 {
      UnreadCountCounts(list[1..]);
    }
  }

  /** An inserted relevant notification raises the count by one exactly
      when it arrives unread. */
  lemma OnInsertUnread(list: seq<Notification>, n: Notification, user: User)
    requires IsRelevant(n, user)
    ensures UnreadCount(OnInsert(list, n, user)) == UnreadCount(list) + (if n.read then 0 else 1)
  {
    assert ([n] + list)[1..] == list;
  }

  /** `markAsRead(id)`: the notification with that id becomes read and
      every other entry is left as it was. */
  function MarkAsRead(list: seq<Notification>, id: string): (r: seq<Notification>)
    ensures |r| == |list|
    ensures forall i :: 0 <= i < |list| && list[i].id == id ==> r[i] == list[i].(read := true)
    ensures forall i :: 0 <= i < |list| && list[i].id != id ==> r[i] == list[i]
  {
    if |list| == 0 then []
    else
      assert forall i :: 1 <= i < |list| ==> list[i] == list[1..][i - 1];
      [if list[0].id == id then list[0].(read := true) else list[0]] + MarkAsRead(list[1..], id)
  }

  /** Marking one notification read never raises the unread count. */
  lemma {:induction false} MarkAsReadLowersCount(list: seq<Notification>, id: string)
    ensures UnreadCount(MarkAsRead(list, id)) <= UnreadCount(list)
  {
    if |list| > 0 {
      MarkAsReadLowersCount(list[1..], id);
      assert MarkAsRead(list, id)[1..] == MarkAsRead(list[1..], id);
    }
  }

  datatype MarkAllResult = MarkAllResult(list: seq<Notification>, storeIds: Option<seq<string>>)

  function Ids(list: seq<Notification>): (r: seq<string>)
    ensures |r| == |list|
    ensures forall i :: 0 <= i < |list| ==> r[i] == list[i].id
  {
    if |list| == 0 then [] else [list[0].id] + Ids(list[1..])
  }

  function ReadAll(list: seq<Notification>): (r: seq<Notification>)
    ensures |r| == |list|
    ensures forall i :: 0 <= i < |list| ==> r[i] == list[i].(read := true)
  {
    if |list| == 0 then [] else [list[0].(read := true)] + ReadAll(list[1..])
  }

  /** `markAllAsRead`: every entry becomes read with nothing else changed,
      and the ids of the list are sent to the store, unless the list is
      empty, in which case no update is issued. */
  function MarkAllAsRead(list: seq<Notification>): (r: MarkAllResult)
    ensures |r.list| == |list|
    ensures forall i :: 0 <= i < |list| ==> r.list[i] == list[i].(read := true)
    ensures r.storeIds.None? <==> |list| == 0
    ensures r.storeIds.Some? ==> r.storeIds.value == Ids(list)
  {
    MarkAllResult(ReadAll(list), if |list| == 0 then None else Some(Ids(list)))
  }

  /** After `markAllAsRead` nothing is unread. */
  lemma MarkAllClearsCount(list: seq<Notification>)
    ensures UnreadCount(MarkAllAsRead(list).list) == 0
  {
    var r := MarkAllAsRead(list).list;
    FilterKeepsNone(r, (n: Notification) => !n.read);
  }

  /** The row `addNotification` stores, with the id and time the database
      assigns: always unread, of kind `info` unless another kind is given,
      addressed exactly as requested. */
  function Stored(req: Request, id: string, createdAt: Timestamp): (n: Notification)
    ensures !n.read
    ensures req.kind.None? ==> n.kind == Some(Info)
    ensures req.kind.Some? ==> n.kind == req.kind
    ensures n.userId == req.userId && n.targetRole == req.targetRole
    ensures n.title == req.title && n.message == req.message
  {
    Notification(id, req.userId, req.targetRole, req.title, req.message, createdAt, false, Some(req.kind.GetOr(Info)))
  }
}
