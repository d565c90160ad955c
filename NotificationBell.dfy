/** src/components/NotificationBell.js: the user's notification list, its
    ordering, the unread count and badge, and the batch that marks the fetched
    unread notifications read when the dropdown opens. */
module NotificationBell {
  import opened Wrappers
  import opened Seqs
  import opened Store
  import FriendUtils

  /** One entry of the list: `{ id: doc.id, ...doc.data() }`. */
  datatype Item = Item(id: DocId, data: Notification)

  /** `it` is the user's notification `it.id`, among the ids below `n`. */
  predicate InInbox(m: map<DocId, Notification>, userId: string, n: nat, it: Item)
  {
    it.id < n && it.id in m && it.data == m[it.id] && it.data.userId == userId
  }

  /** The answer of `where('userId', '==', userId)` over the documents with
      ids below `n`, in document-id order (the order of a query without `orderBy`). */
  function Inbox(m: map<DocId, Notification>, userId: string, n: nat): (r: seq<Item>)
    ensures forall i, j :: 0 <= i < j < |r| ==> r[i].id < r[j].id
    ensures forall i :: 0 <= i < |r| ==> InInbox(m, userId, n, r[i])
    decreases n
  {
    if n == 0 then []
    else
      var rest := Inbox(m, userId, n - 1);
      if n - 1 in m && m[n - 1].userId == userId then rest + [Item(n - 1, m[n - 1])] else rest
  }

  /** Every notification of the user below `n` is in the answer. */
  lemma {:induction false} InboxComplete(m: map<DocId, Notification>, userId: string, n: nat, k: DocId)
    requires k in m && k < n && m[k].userId == userId
    ensures Item(k, m[k]) in Inbox(m, userId, n)
  {
    if k < n - 1 {
      InboxComplete(m, userId, n - 1, k);
    }
  }

  predicate Timed(it: Item)
  {
    it.data.createdAt.Some?
  }

  /** The sort comparator: equal when either `createdAt` is missing, otherwise
      negative exactly when `a` is the later one. */
  function CompareCreatedAt(a: Item, b: Item): (c: int)
    ensures !Timed(a) || !Timed(b) ==> c == 0
    ensures Timed(a) && Timed(b) ==> (c < 0 <==> a.data.createdAt.value > b.data.createdAt.value)
    ensures Timed(a) && Timed(b) ==> (c == 0 <==> a.data.createdAt.value == b.data.createdAt.value)
  {
    if a.data.createdAt.None? || b.data.createdAt.None? then 0
    else b.data.createdAt.value - a.data.createdAt.value
  }

  /** Swapping the arguments negates the comparison. */
  lemma CompareCreatedAtAntisymmetric(a: Item, b: Item)
    ensures CompareCreatedAt(a, b) == -CompareCreatedAt(b, a)
  {
  }

  predicate AllTimed(s: seq<Item>)
  {
    forall i :: 0 <= i < |s| ==> Timed(s[i])
  }

  /** The creation time of a timed entry. */
  function Time(it: Item): int
  {
    if it.data.createdAt.Some? then it.data.createdAt.value else 0
  }

  /** Newest first: every entry is at least as recent as every later one. */
  predicate NewestFirst(s: seq<Item>)
  {
    forall i, j :: 0 <= i < j < |s| ==> Time(s[i]) >= Time(s[j])
  }

  /** One step of a stable insertion sort driven by `CompareCreatedAt`: `x` goes
      before the first entry it does not compare after. */
  function InsertItem(x: Item, r: seq<Item>): (r': seq<Item>)
    ensures multiset(r') == multiset(r) + multiset{x}
  {
    if r == [] then [x]
    else if CompareCreatedAt(x, r[0]) <= 0 then [x] + r
    else
      assert r == [r[0]] + r[1..];
      [r[0]] + InsertItem(x, r[1..])
  }

  lemma AllTimedCons(y: Item, s: seq<Item>)
    requires Timed(y) && AllTimed(s)
    ensures AllTimed([y] + s)
  {
    forall i | 0 < i < |[y] + s| ensures Timed(([y] + s)[i]) {
      assert ([y] + s)[i] == s[i - 1];
    }
  }

  lemma NewestFirstCons(y: Item, s: seq<Item>)
    requires NewestFirst(s)
    requires forall z :: z in s ==> Time(y) >= Time(z)
    ensures NewestFirst([y] + s)
  {
    var t := [y] + s;
    forall i, j | 0 <= i < j < |t| ensures Time(t[i]) >= Time(t[j]) {
      assert t[j] == s[j - 1];
      if i > 0 {
        assert t[i] == s[i - 1];
      }
    }
  }

  lemma {:induction false} InsertItemNewestFirst(x: Item, r: seq<Item>)
    requires Timed(x) && AllTimed(r) && NewestFirst(r)
    ensures AllTimed(InsertItem(x, r)) && NewestFirst(InsertItem(x, r))
  {
    if r == [] {
      assert InsertItem(x, r) == [x];
    } else if CompareCreatedAt(x, r[0]) <= 0 {
      forall z | z in r ensures Time(x) >= Time(z) {
        var j :| 0 <= j < |r| && r[j] == z;
        assert Time(r[0]) >= Time(r[j]) || j == 0;
      }
      AllTimedCons(x, r);
      NewestFirstCons(x, r);
    } else {
      var tail := r[1..];
      assert AllTimed(tail) && NewestFirst(tail) by {
        assert forall i | 0 <= i < |tail| :: tail[i] == r[i + 1];
      }
      InsertItemNewestFirst(x, tail);
      var rest := InsertItem(x, tail);
      forall z | z in rest ensures Time(r[0]) >= Time(z) {
        assert z in multiset(rest);
        if z != x {
          var j :| 0 <= j < |tail| && tail[j] == z;
          assert r[j + 1] == z;
        }
      }
      AllTimedCons(r[0], rest);
      NewestFirstCons(r[0], rest);
    }
  }

  /** The list order: a stable insertion sort by `CompareCreatedAt`. */
  function SortByCreatedAt(s: seq<Item>): (r: seq<Item>)
    ensures multiset(r) == multiset(s)
  {
    if s == [] then []
    else
      assert s == [s[0]] + s[1..];
      InsertItem(s[0], SortByCreatedAt(s[1..]))
  }

  /** Newest first whenever every entry has a `createdAt`. */
  lemma {:induction false} SortNewestFirst(s: seq<Item>)
    requires AllTimed(s)
    ensures AllTimed(SortByCreatedAt(s)) && NewestFirst(SortByCreatedAt(s))
  {
    if s != [] {
      assert AllTimed(s[1..]) by {
        forall i | 0 <= i < |s[1..]| ensures Timed(s[1..][i]) {
          assert s[1..][i] == s[i + 1];
        }
      }
      SortNewestFirst(s[1..]);
      InsertItemNewestFirst(s[0], SortByCreatedAt(s[1..]));
    }
  }

  predicate IsUnread(it: Item)
  {
    !it.data.read
  }

  /** The number of unread entries. */
  function UnreadCount(items: seq<Item>): (c: nat)
    ensures c <= |items|
  {
    if items == [] then 0 else (if IsUnread(items[0]) then 1 else 0) + UnreadCount(items[1..])
  }

  /** The count is `notifs.filter(n => !n.read).length`. */
  lemma {:induction false} UnreadCountIsFilterLength(items: seq<Item>)
    ensures UnreadCount(items) == |Filter(items, IsUnread)|
  {
    if items != [] {
      UnreadCountIsFilterLength(items[1..]);
      assert items == [items[0]] + items[1..];
      FilterCons(items[0], items[1..], IsUnread);
    }
  }

  lemma {:induction false} UnreadCountSnoc(s: seq<Item>, x: Item)
    ensures UnreadCount(s + [x]) == UnreadCount(s) + (if IsUnread(x) then 1 else 0)
  {
    if s != [] {
      assert (s + [x])[1..] == s[1..] + [x];
      UnreadCountSnoc(s[1..], x);
    }
  }

  /** The count is 0 exactly when every entry is read. */
  lemma {:induction false} UnreadCountZero(items: seq<Item>)
    ensures UnreadCount(items) == 0 <==> forall i :: 0 <= i < |items| ==> items[i].data.read
  {
    if items != [] {
      UnreadCountZero(items[1..]);
      assert forall i :: 0 < i < |items| ==> items[i] == items[1..][i - 1];
    }
  }

  lemma {:induction false} InsertKeepsUnreadCount(x: Item, r: seq<Item>)
    ensures UnreadCount(InsertItem(x, r)) == UnreadCount([x] + r)
  {
    assert ([x] + r)[1..] == r;
    if r != [] && CompareCreatedAt(x, r[0]) > 0 {
      InsertKeepsUnreadCount(x, r[1..]);
      assert ([x] + r[1..])[1..] == r[1..];
    }
  }

  /** Sorting neither adds nor loses an unread notification. */
  lemma {:induction false} SortKeepsUnreadCount(s: seq<Item>)
    ensures UnreadCount(SortByCreatedAt(s)) == UnreadCount(s)
  {
    if s != [] {
      SortKeepsUnreadCount(s[1..]);
      InsertKeepsUnreadCount(s[0], SortByCreatedAt(s[1..]));
      assert ([s[0]] + SortByCreatedAt(s[1..]))[1..] == SortByCreatedAt(s[1..]);
    }
  }

  /** The user's unread notifications in the store among the ids below `n`. */
  function UnreadInStore(m: map<DocId, Notification>, userId: string, n: nat): set<DocId>
  {
    set k | k in m && k < n && m[k].userId == userId && !m[k].read
  }

  lemma UnreadInStoreStep(m: map<DocId, Notification>, userId: string, n: nat)
    requires n > 0
    ensures n - 1 !in UnreadInStore(m, userId, n - 1)
    ensures UnreadInStore(m, userId, n)
         == UnreadInStore(m, userId, n - 1) + (if n - 1 in m && m[n - 1].userId == userId && !m[n - 1].read then {n - 1} else {})
  {
  }

  lemma {:induction false} InboxUnreadCount(m: map<DocId, Notification>, userId: string, n: nat)
    ensures UnreadCount(Inbox(m, userId, n)) == |UnreadInStore(m, userId, n)|
  {
    if n > 0 {
      InboxUnreadCount(m, userId, n - 1);
      UnreadInStoreStep(m, userId, n);
      var rest := Inbox(m, userId, n - 1);
      if n - 1 in m && m[n - 1].userId == userId {
        UnreadCountSnoc(rest, Item(n - 1, m[n - 1]));
      }
    }
  }

  /** The badge count is the number of the user's unread notifications in the store. */
  lemma UnreadCountMatchesStore(s: DbState, userId: string)
    requires WellFormed(s)
    ensures UnreadCount(SortByCreatedAt(Inbox(s.notifications, userId, s.nextId)))
         == |set k | k in s.notifications && s.notifications[k].userId == userId && !s.notifications[k].read|
  {
    SortKeepsUnreadCount(Inbox(s.notifications, userId, s.nextId));
    InboxUnreadCount(s.notifications, userId, s.nextId);
    assert UnreadInStore(s.notifications, userId, s.nextId)
        == set k | k in s.notifications && s.notifications[k].userId == userId && !s.notifications[k].read;
  }

  /** The badge: hidden at 0, '9+' above 9, otherwise the single digit of the count. */
  function BadgeText(count: nat): (r: Option<string>)
    ensures r.None? <==> count == 0
    ensures r == Some("9+") <==> count > 9
    ensures 0 < count <= 9 ==> |r.value| == 1 && r.value[0] as int - '0' as int == count
  {
    if count == 0 then None
    else if count > 9 then Some("9+")
    else Some([('0' as int + count) as char])
  }

  /** Accept and Reject buttons are rendered for this notification: only for a
      friend request, and only while it is unread. */
  predicate OffersActions(n: Notification): (r: bool)
    ensures n.kind == FriendAcceptedType ==> !r
    ensures n.read ==> !r
    ensures n.kind == FriendRequestType && !n.read ==> r
  {
    n.kind == FriendRequestType && !n.read
  }

  /** Once a request is accepted or rejected, no notification of it offers the
      buttons any more. */
  lemma HandledRequestOffersNoActions(s: DbState, requestId: DocId, currentUserId: string, now: int)
    requires requestId in s.requests
    ensures forall k :: k in s.notifications && s.notifications[k].requestId == Some(requestId) ==>
      && !OffersActions(FriendUtils.AcceptOutcome(s, requestId, currentUserId, now).state.notifications[k])
      && !OffersActions(FriendUtils.RejectOutcome(s, requestId, now).state.notifications[k])
  {
  }

  /** The ids `markAllAsRead` puts in its batch: the fetched entries that are unread. */
  function UnreadIds(items: seq<Item>): set<DocId>
  {
    set i | 0 <= i < |items| && !items[i].data.read :: items[i].id
  }

  /** What `markAllAsRead` leaves in the store: one batch setting `read` on the
      fetched unread entries, all or nothing (an entry deleted since the fetch
      fails the batch), with the failure swallowed. */
  function MarkAllState(s: DbState, items: seq<Item>, storeFails: bool): (t: DbState)
    ensures t.requests == s.requests && t.friends == s.friends && t.chats == s.chats
    ensures t.messages == s.messages && t.nextId == s.nextId
    ensures t.notifications.Keys == s.notifications.Keys
    ensures ReadMonotone(s.notifications, t.notifications)
    ensures storeFails || !(UnreadIds(items) <= s.notifications.Keys) ==> t == s
    ensures !storeFails && UnreadIds(items) <= s.notifications.Keys ==>
      forall k :: k in s.notifications ==> t.notifications[k] == s.notifications[k].(read := s.notifications[k].read || k in UnreadIds(items))
    ensures WellFormed(s) ==> WellFormed(t)
  {
    var ids := UnreadIds(items);
    if !storeFails && ids <= s.notifications.Keys then s.(notifications := MarkRead(s.notifications, ids)) else s
  }

  /** Every fetched entry names a document that exists when fetched. */
  lemma FetchedIdsExist(s: DbState, userId: string)
    ensures UnreadIds(SortByCreatedAt(Inbox(s.notifications, userId, s.nextId))) <= s.notifications.Keys
  {
    var inbox := Inbox(s.notifications, userId, s.nextId);
    var items := SortByCreatedAt(inbox);
    forall k | k in UnreadIds(items) ensures k in s.notifications {
      var i :| 0 <= i < |items| && !items[i].data.read && items[i].id == k;
      assert items[i] in multiset(inbox);
      var j :| 0 <= j < |inbox| && inbox[j] == items[i];
      assert InInbox(s.notifications, userId, s.nextId, inbox[j]);
    }
  }

  /** When all of the user's notifications are read, the list shows none unread. */
  lemma AllReadListsNoneUnread(m: map<DocId, Notification>, userId: string, n: nat)
    requires forall k :: k in m && m[k].userId == userId ==> m[k].read
    ensures var after := SortByCreatedAt(Inbox(m, userId, n));
      && UnreadCount(after) == 0
      && forall i :: 0 <= i < |after| ==> !OffersActions(after[i].data)
  {
    var inbox := Inbox(m, userId, n);
    var after := SortByCreatedAt(inbox);
    forall i | 0 <= i < |after| ensures after[i].data.read {
      assert after[i] in multiset(inbox);
      var j :| 0 <= j < |inbox| && inbox[j] == after[i];
      assert InInbox(m, userId, n, inbox[j]);
    }
    UnreadCountZero(after);
  }

  /** Every unread notification of the user is among the fetched unread ids. */
  lemma UnreadIsFetched(s: DbState, userId: string, k: DocId)
    requires WellFormed(s)
    requires k in s.notifications && s.notifications[k].userId == userId && !s.notifications[k].read
    ensures k in UnreadIds(SortByCreatedAt(Inbox(s.notifications, userId, s.nextId)))
  {
    var items := SortByCreatedAt(Inbox(s.notifications, userId, s.nextId));
    var it := Item(k, s.notifications[k]);
    InboxComplete(s.notifications, userId, s.nextId, k);
    assert it in multiset(items);
    var i :| 0 <= i < |items| && items[i] == it;
  }

  /** Opening the dropdown on a fresh list marks every one of the user's
      notifications read, so the next snapshot has no badge and offers no
      Accept or Reject action. */
  lemma OpeningClearsInbox(s: DbState, userId: string)
    requires WellFormed(s)
    ensures var items := SortByCreatedAt(Inbox(s.notifications, userId, s.nextId));
      var t := MarkAllState(s, items, false);
      var after := SortByCreatedAt(Inbox(t.notifications, userId, t.nextId));
      && UnreadCount(after) == 0
      && BadgeText(UnreadCount(after)) == None
      && forall i :: 0 <= i < |after| ==> !OffersActions(after[i].data)
  {
    var inbox := Inbox(s.notifications, userId, s.nextId);
    var items := SortByCreatedAt(inbox);
    FetchedIdsExist(s, userId);
    var t := MarkAllState(s, items, false);
    forall k | k in t.notifications && t.notifications[k].userId == userId
      ensures t.notifications[k].read
    {
      if !s.notifications[k].read {
        UnreadIsFetched(s, userId, k);
      }
    }
    AllReadListsNoneUnread(t.notifications, userId, t.nextId);
  }

  /** The bell's React state: the fetched list, whether the dropdown is open and the unread count. */
  class Bell {
    const userId: string
    var notifications: seq<Item>
    var showDropdown: bool
    var unreadCount: nat

    /** `unreadCount` is always that of the list shown. */
    predicate Valid()
      reads this
    {
      unreadCount == UnreadCount(notifications)
    }

    constructor (userId: string)
      ensures this.userId == userId
      ensures notifications == [] && !showDropdown && unreadCount == 0
      ensures Valid()
    {
      this.userId := userId;
      notifications := [];
      showDropdown := false;
      unreadCount := 0;
    }

    /** The snapshot handler (installed only for a non-empty `userId`). */
    method OnSnapshot(db: Db)
      requires userId != ""
      modifies this
      ensures notifications == SortByCreatedAt(Inbox(db.notifications, userId, db.nextId))
      ensures unreadCount == UnreadCount(notifications)
      ensures showDropdown == old(showDropdown)
      ensures Valid()
    {
      notifications := SortByCreatedAt(Inbox(db.notifications, userId, db.nextId));
      unreadCount := |Filter(notifications, IsUnread)|;
      UnreadCountIsFilterLength(notifications);
    }

    /** `markAllAsRead`: one `batch.update(..., { read: true })` per fetched unread
        entry, then a single commit whose failure is caught and dropped. */
    method MarkAllAsRead(db: Db, storeFails: bool)
      requires db.Valid()
      modifies db
      ensures db.Valid()
      ensures db.State() == MarkAllState(old(db.State()), notifications, storeFails)
    {
      var unreadNotifs := Filter(notifications, IsUnread);
      var batch: set<DocId> := {};
      var i := 0;
      while i < |unreadNotifs|
        invariant 0 <= i <= |unreadNotifs|
        invariant batch == set j | 0 <= j < i :: unreadNotifs[j].id
      {
        batch := batch + {unreadNotifs[i].id};
        i := i + 1;
      }
      assert batch == UnreadIds(notifications) by {
        forall k | k in UnreadIds(notifications) ensures k in batch {
          var j :| 0 <= j < |notifications| && !notifications[j].data.read && notifications[j].id == k;
          assert IsUnread(notifications[j]);
          assert notifications[j] in unreadNotifs;
        }
        forall k | k in batch ensures k in UnreadIds(notifications) {
          var j :| 0 <= j < |unreadNotifs| && unreadNotifs[j].id == k;
          assert unreadNotifs[j] in notifications && IsUnread(unreadNotifs[j]);
        }
      }
      var _ := db.CommitReadBatch(batch, storeFails);
    }

    /** `handleToggleDropdown`: flips the dropdown and, only when it opens with
        unread entries, marks them read. */
    method ToggleDropdown(db: Db, storeFails: bool)
      requires db.Valid()
      modifies this, db
      ensures db.Valid()
      ensures showDropdown == !old(showDropdown)
      ensures notifications == old(notifications) && unreadCount == old(unreadCount)
      ensures db.State() == if showDropdown && unreadCount > 0 then MarkAllState(old(db.State()), notifications, storeFails)
                            else old(db.State())
    {
      var newState := !showDropdown;
      showDropdown := newState;
      if newState && unreadCount > 0 {
        MarkAllAsRead(db, storeFails);
      }
    }
  }
}
