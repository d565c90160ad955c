/** src/lib/friendUtils.js: the friend-request state machine, friendship
    records, per-viewer nicknames, unfriending and clearing a chat.

    Each operation has a pure transition over `DbState` (what the store holds
    afterwards and what the call answers) and a method over `Db` that performs
    the source's writes in order and is proved to reach that transition. */
module FriendUtils {
  import opened Wrappers
  import opened Store
  import opened ChatUtils
  import Strings

  /** The errors the functions throw: 'Friend request already sent',
      'Already friends', 'Request not found', 'Not friends', and the store's
      not-found error for an update of a missing document. */
  datatype FriendError = RequestAlreadySent | AlreadyFriends | RequestNotFound | NotFriends | DocumentNotFound

  datatype Outcome<T> = Outcome(result: Result<T, FriendError>, state: DbState)

  /** The four answers of `getFriendshipStatus`. */
  datatype FriendshipStatus = Friends | RequestSent | RequestReceived | NotFriendsStatus

  // ---------------------------------------------------------------- queries

  predicate IsPending(r: FriendRequest, from: string, to: string)
  {
    r.from == from && r.to == to && r.status == Pending
  }

  /** The query `from == from, to == to, status == 'pending'` is not empty. */
  predicate HasPendingRequest(requests: map<DocId, FriendRequest>, from: string, to: string)
  {
    exists id :: id in requests && IsPending(requests[id], from, to)
  }

  /** `checkExistingRequest`: a pending request in either direction. */
  predicate CheckExistingRequest(requests: map<DocId, FriendRequest>, a: string, b: string): (r: bool)
    ensures r <==> (exists id :: id in requests && requests[id].status == Pending
                     && ((requests[id].from == a && requests[id].to == b) || (requests[id].from == b && requests[id].to == a)))
  {
    HasPendingRequest(requests, a, b) || HasPendingRequest(requests, b, a)
  }

  /** `checkIfFriends`: the friendship document of the sorted pair exists. */
  predicate CheckIfFriends(friends: map<string, Friendship>, a: string, b: string): (r: bool)
    ensures r <==> GenerateChatId(b, a) in friends
    ensures !Strings.Less(b, a) ==> (r <==> a + "_" + b in friends)
    ensures !Strings.Less(a, b) ==> (r <==> b + "_" + a in friends)
  {
    GenerateChatIdCommutes(a, b);
    GenerateChatId(a, b) in friends
  }

  lemma CheckIfFriendsSymmetric(friends: map<string, Friendship>, a: string, b: string)
    ensures CheckIfFriends(friends, a, b) == CheckIfFriends(friends, b, a)
  {
    GenerateChatIdCommutes(a, b);
  }

  /** `getFriendshipStatus`: the first state that applies, in priority order. */
  function GetFriendshipStatus(s: DbState, current: string, other: string): (st: FriendshipStatus)
    ensures st == Friends <==> CheckIfFriends(s.friends, current, other)
    ensures st == RequestSent <==> !CheckIfFriends(s.friends, current, other) && HasPendingRequest(s.requests, current, other)
    ensures st == RequestReceived <==>
      !CheckIfFriends(s.friends, current, other) && !HasPendingRequest(s.requests, current, other)
      && HasPendingRequest(s.requests, other, current)
    ensures st == NotFriendsStatus <==>
      !CheckIfFriends(s.friends, current, other) && !CheckExistingRequest(s.requests, current, other)
  {
    if CheckIfFriends(s.friends, current, other) then Friends
    else if HasPendingRequest(s.requests, current, other) then RequestSent
    else if HasPendingRequest(s.requests, other, current) then RequestReceived
    else NotFriendsStatus
  }

  /** `getUserFriends`: the friendships listing `userId` among their users. */
  function GetUserFriends(friends: map<string, Friendship>, userId: string): (r: map<string, Friendship>)
    ensures forall id :: id in r <==> id in friends && userId in friends[id].users
    ensures forall id :: id in r ==> r[id] == friends[id]
  {
    map id | id in friends && userId in friends[id].users :: friends[id]
  }

  /** `getPendingRequests`: pending requests addressed to `userId`. */
  function GetPendingRequests(requests: map<DocId, FriendRequest>, userId: string): (r: map<DocId, FriendRequest>)
    ensures forall id :: id in r <==> id in requests && requests[id].to == userId && requests[id].status == Pending
    ensures forall id :: id in r ==> r[id] == requests[id]
  {
    map id | id in requests && requests[id].to == userId && requests[id].status == Pending :: requests[id]
  }

  /** `getSentRequests`: pending requests sent by `userId`. */
  function GetSentRequests(requests: map<DocId, FriendRequest>, userId: string): (r: map<DocId, FriendRequest>)
    ensures forall id :: id in r <==> id in requests && requests[id].from == userId && requests[id].status == Pending
    ensures forall id :: id in r ==> r[id] == requests[id]
  {
    map id | id in requests && requests[id].from == userId && requests[id].status == Pending :: requests[id]
  }

  /** A request is pending for its recipient exactly when it is pending from its sender. */
  lemma PendingAndSentAgree(requests: map<DocId, FriendRequest>, id: DocId, a: string, b: string)
    ensures (id in GetPendingRequests(requests, b) && GetPendingRequests(requests, b)[id].from == a)
        <==> (id in GetSentRequests(requests, a) && GetSentRequests(requests, a)[id].to == b)
    ensures (id in GetPendingRequests(requests, b) && GetPendingRequests(requests, b)[id].from == a)
        ==> HasPendingRequest(requests, a, b)
  {
  }

  /** Two requests are between the same two users, in either direction. */
  predicate SamePair(r1: FriendRequest, r2: FriendRequest)
  {
    (r1.from == r2.from && r1.to == r2.to) || (r1.from == r2.to && r1.to == r2.from)
  }

  /** At most one pending request per unordered pair: the uniqueness the duplicate
      check keeps up when operations run one at a time. */
  predicate PendingUnique(requests: map<DocId, FriendRequest>)
  {
    forall i, j ::
      (i in requests && j in requests && requests[i].status == Pending && requests[j].status == Pending
       && SamePair(requests[i], requests[j])) ==> i == j
  }

  /** With pending requests unique, the two users see the two sides of one request. */
  lemma StatusIsMirrored(s: DbState, a: string, b: string)
    requires PendingUnique(s.requests)
    requires a != b
    ensures GetFriendshipStatus(s, a, b) == Friends <==> GetFriendshipStatus(s, b, a) == Friends
    ensures GetFriendshipStatus(s, a, b) == RequestSent <==> GetFriendshipStatus(s, b, a) == RequestReceived
    ensures GetFriendshipStatus(s, a, b) == NotFriendsStatus <==> GetFriendshipStatus(s, b, a) == NotFriendsStatus
  {
    CheckIfFriendsSymmetric(s.friends, a, b);
    if HasPendingRequest(s.requests, a, b) && HasPendingRequest(s.requests, b, a) {
      var i :| i in s.requests && IsPending(s.requests[i], a, b);
      var j :| j in s.requests && IsPending(s.requests[j], b, a);
      assert SamePair(s.requests[i], s.requests[j]);
      assert false;
    }
  }

  // ---------------------------------------------------------- sendFriendRequest

  function NewRequest(from: string, to: string, fromData: UserData, toData: UserData, now: int): FriendRequest
  {
    FriendRequest(from, to, Pending, fromData, toData, now, None, None)
  }

  function RequestNotification(to: string, from: string, fromData: UserData, requestId: DocId, now: int): Notification
  {
    Notification(to, FriendRequestType, from, fromData.name, fromData.image, Some(requestId), false, Some(now))
  }

  /** `sendFriendRequest`: the duplicate check comes first, then the friendship
      check; a successful call adds the request, then its notification. */
  function SendOutcome(s: DbState, from: string, to: string, fromData: UserData, toData: UserData, now: int): (o: Outcome<DocId>)
    ensures CheckExistingRequest(s.requests, from, to) ==> o == Outcome(Err(RequestAlreadySent), s)
    ensures !CheckExistingRequest(s.requests, from, to) && CheckIfFriends(s.friends, from, to) ==>
      o == Outcome(Err(AlreadyFriends), s)
    ensures o.result.Ok? <==> !CheckExistingRequest(s.requests, from, to) && !CheckIfFriends(s.friends, from, to)
    ensures o.state.friends == s.friends && o.state.chats == s.chats && o.state.messages == s.messages
    ensures WellFormed(s) ==> ReadMonotone(s.notifications, o.state.notifications)
    ensures WellFormed(s) ==> WellFormed(o.state)
  {
    if CheckExistingRequest(s.requests, from, to) then Outcome(Err(RequestAlreadySent), s)
    else if CheckIfFriends(s.friends, from, to) then Outcome(Err(AlreadyFriends), s)
    else
      var requestId := s.nextId;
      var notificationId := s.nextId + 1;
      Outcome(Ok(requestId),
              s.(requests := s.requests[requestId := NewRequest(from, to, fromData, toData, now)],
                 notifications := s.notifications[notificationId := RequestNotification(to, from, fromData, requestId, now)],
                 nextId := s.nextId + 2))
  }

  /** A successful send adds exactly one pending request from `from` to `to` with
      both snapshots and exactly one unread 'friend_request' notification for `to`
      that names it, and returns the new request's id. */
  lemma SendAddsRequestAndNotification(s: DbState, from: string, to: string, fromData: UserData, toData: UserData, now: int)
    requires WellFormed(s)
    requires SendOutcome(s, from, to, fromData, toData, now).result.Ok?
    ensures var o := SendOutcome(s, from, to, fromData, toData, now);
      var id := o.result.value;
      && id !in s.requests
      && o.state.requests.Keys == s.requests.Keys + {id}
      && o.state.requests[id] == FriendRequest(from, to, Pending, fromData, toData, now, None, None)
      && (forall k :: k in s.requests ==> o.state.requests[k] == s.requests[k])
      && (exists n :: n !in s.notifications && o.state.notifications.Keys == s.notifications.Keys + {n}
            && o.state.notifications[n] == Notification(to, FriendRequestType, from, fromData.name, fromData.image, Some(id), false, Some(now))
            && (forall k :: k in s.notifications ==> o.state.notifications[k] == s.notifications[k]))
      && (forall k :: k in o.state.notifications && o.state.notifications[k].requestId == Some(id) ==> k !in s.notifications)
  {
    var o := SendOutcome(s, from, to, fromData, toData, now);
    assert o.state.notifications.Keys == s.notifications.Keys + {s.nextId + 1};
  }

  /** The sender now sees 'request_sent' and the recipient 'request_received'; the
      pending-uniqueness invariant is kept. */
  lemma SendUpdatesStatus(s: DbState, from: string, to: string, fromData: UserData, toData: UserData, now: int)
    requires WellFormed(s)
    requires from != to
    requires SendOutcome(s, from, to, fromData, toData, now).result.Ok?
    ensures var t := SendOutcome(s, from, to, fromData, toData, now).state;
      && GetFriendshipStatus(t, from, to) == RequestSent
      && GetFriendshipStatus(t, to, from) == RequestReceived
  {
    var t := SendOutcome(s, from, to, fromData, toData, now).state;
    assert IsPending(t.requests[s.nextId], from, to);
    CheckIfFriendsSymmetric(s.friends, from, to);
  }

  lemma SendKeepsPendingUnique(s: DbState, from: string, to: string, fromData: UserData, toData: UserData, now: int)
    requires WellFormed(s) && PendingUnique(s.requests)
    ensures PendingUnique(SendOutcome(s, from, to, fromData, toData, now).state.requests)
  {
    var o := SendOutcome(s, from, to, fromData, toData, now);
    if o.result.Ok? {
      var t := o.state.requests;
      forall i, j | i in t && j in t && t[i].status == Pending && t[j].status == Pending && SamePair(t[i], t[j])
        ensures i == j
      {
      }
    }
  }

  /** Sending again, in either direction, while the first request is pending fails
      as a duplicate and changes nothing. */
  lemma SendTwiceIsDuplicate(s: DbState, from: string, to: string, fromData: UserData, toData: UserData, now: int,
                             d1: UserData, d2: UserData, later: int)
    requires WellFormed(s)
    requires SendOutcome(s, from, to, fromData, toData, now).result.Ok?
    ensures var t := SendOutcome(s, from, to, fromData, toData, now).state;
      && SendOutcome(t, from, to, d1, d2, later) == Outcome(Err(RequestAlreadySent), t)
      && SendOutcome(t, to, from, d2, d1, later) == Outcome(Err(RequestAlreadySent), t)
  {
    var t := SendOutcome(s, from, to, fromData, toData, now).state;
    assert IsPending(t.requests[s.nextId], from, to);
  }

  /** Only pending requests block a new one: two stores with the same friendships
      and the same pending requests answer a send alike. */
  lemma OnlyPendingBlocks(s1: DbState, s2: DbState, from: string, to: string, fromData: UserData, toData: UserData, now: int)
    requires s1.friends == s2.friends
    requires forall id :: id in s1.requests && s1.requests[id].status == Pending <==> id in s2.requests && s2.requests[id].status == Pending
    requires forall id :: id in s1.requests && s1.requests[id].status == Pending ==> s1.requests[id] == s2.requests[id]
    ensures SendOutcome(s1, from, to, fromData, toData, now).result.Ok? == SendOutcome(s2, from, to, fromData, toData, now).result.Ok?
  {
    assert HasPendingRequest(s1.requests, from, to) == HasPendingRequest(s2.requests, from, to) by {
      if HasPendingRequest(s1.requests, from, to) {
        var k :| k in s1.requests && IsPending(s1.requests[k], from, to);
        assert k in s2.requests && IsPending(s2.requests[k], from, to);
      }
      if HasPendingRequest(s2.requests, from, to) {
        var k :| k in s2.requests && IsPending(s2.requests[k], from, to);
        assert k in s1.requests && IsPending(s1.requests[k], from, to);
      }
    }
    assert HasPendingRequest(s1.requests, to, from) == HasPendingRequest(s2.requests, to, from) by {
      if HasPendingRequest(s1.requests, to, from) {
        var k :| k in s1.requests && IsPending(s1.requests[k], to, from);
        assert k in s2.requests && IsPending(s2.requests[k], to, from);
      }
      if HasPendingRequest(s2.requests, to, from) {
        var k :| k in s2.requests && IsPending(s2.requests[k], to, from);
        assert k in s1.requests && IsPending(s1.requests[k], to, from);
      }
    }
  }

  method SendFriendRequest(db: Db, fromUserId: string, toUserId: string, fromUserData: UserData, toUserData: UserData, now: int)
    returns (r: Result<DocId, FriendError>)
    requires db.Valid()
    modifies db
    ensures db.Valid()
    ensures Outcome(r, db.State()) == SendOutcome(old(db.State()), fromUserId, toUserId, fromUserData, toUserData, now)
  {
    var existingRequest := CheckExistingRequest(db.requests, fromUserId, toUserId);
    if existingRequest {
      return Err(RequestAlreadySent);
    }
    var areFriends := CheckIfFriends(db.friends, fromUserId, toUserId);
    if areFriends {
      return Err(AlreadyFriends);
    }
    var requestId := db.AddRequest(NewRequest(fromUserId, toUserId, fromUserData, toUserData, now));
    var _ := db.AddNotification(RequestNotification(toUserId, fromUserId, fromUserData, requestId, now));
    r := Ok(requestId);
  }

  // ------------------------------------------------- accept and reject

  /** Marks read every notification whose `requestId` is the given request. */
  function MarkRequestNotificationsRead(m: map<DocId, Notification>, requestId: DocId): (r: map<DocId, Notification>)
    ensures ReadMonotone(m, r)
  {
    MarkRead(m, set k | k in m && m[k].requestId == Some(requestId))
  }

  /** The friendship document `acceptFriendRequest` writes with `setDoc`, replacing any earlier one. */
  function AcceptedFriendship(r: FriendRequest, now: int): Friendship
  {
    Friendship([r.from, r.to], map[r.from := r.fromUserData, r.to := r.toUserData], map[], now, None)
  }

  function AcceptedNotification(r: FriendRequest, currentUserId: string, now: int): Notification
  {
    Notification(r.from, FriendAcceptedType, currentUserId, r.toUserData.name, r.toUserData.image, None, false, Some(now))
  }

  /** `acceptFriendRequest`: neither the request's status nor the caller is checked. */
  function AcceptOutcome(s: DbState, requestId: DocId, currentUserId: string, now: int): (o: Outcome<()>)
    ensures requestId !in s.requests ==> o == Outcome(Err(RequestNotFound), s)
    ensures requestId in s.requests ==> o.result.Ok?
    ensures o.state.chats == s.chats && o.state.messages == s.messages
    ensures WellFormed(s) ==> ReadMonotone(s.notifications, o.state.notifications)
    ensures WellFormed(s) ==> WellFormed(o.state)
  {
    if requestId !in s.requests then Outcome(Err(RequestNotFound), s)
    else
      var r := s.requests[requestId];
      Outcome(Ok(()),
              s.(friends := s.friends[GenerateChatId(r.from, r.to) := AcceptedFriendship(r, now)],
                 requests := s.requests[requestId := r.(status := Accepted, acceptedAt := Some(now))],
                 notifications := MarkRequestNotificationsRead(s.notifications, requestId)[s.nextId := AcceptedNotification(r, currentUserId, now)],
                 nextId := s.nextId + 1))
  }

  /** What a successful accept does: the sorted-pair friendship with users
      [from, to], the request accepted, every notification of the request read,
      one new unread 'friend_accepted' notification for the sender, and
      'friends' seen from both sides. */
  lemma AcceptEffects(s: DbState, requestId: DocId, currentUserId: string, now: int)
    requires WellFormed(s)
    requires requestId in s.requests
    ensures var r := s.requests[requestId];
      var t := AcceptOutcome(s, requestId, currentUserId, now).state;
      && GenerateChatId(r.from, r.to) in t.friends
      && t.friends[GenerateChatId(r.from, r.to)].users == [r.from, r.to]
      && t.friends[GenerateChatId(r.from, r.to)].userDetails == map[r.from := r.fromUserData, r.to := r.toUserData]
      && t.friends[GenerateChatId(r.from, r.to)].nicknames == map[]
      && t.friends[GenerateChatId(r.from, r.to)].createdAt == now
      && t.friends[GenerateChatId(r.from, r.to)].updatedAt == None
      && (forall id :: id != GenerateChatId(r.from, r.to) ==> (id in t.friends <==> id in s.friends))
      && (forall id :: id in s.friends && id != GenerateChatId(r.from, r.to) ==> t.friends[id] == s.friends[id])
      && t.requests.Keys == s.requests.Keys
      && t.requests[requestId].status == Accepted
      && t.requests[requestId] == r.(status := Accepted, acceptedAt := Some(now))
      && (forall k :: k in s.requests && k != requestId ==> k in t.requests && t.requests[k] == s.requests[k])
      && (forall k :: k in s.notifications && s.notifications[k].requestId == Some(requestId) ==>
            t.notifications[k] == s.notifications[k].(read := true))
      && (forall k :: k in s.notifications && s.notifications[k].requestId != Some(requestId) ==> t.notifications[k] == s.notifications[k])
      && (exists n :: n !in s.notifications && t.notifications.Keys == s.notifications.Keys + {n}
            && t.notifications[n] == Notification(r.from, FriendAcceptedType, currentUserId, r.toUserData.name, r.toUserData.image, None, false, Some(now)))
      && GetFriendshipStatus(t, r.from, r.to) == Friends
      && GetFriendshipStatus(t, r.to, r.from) == Friends
  {
    var r := s.requests[requestId];
    var t := AcceptOutcome(s, requestId, currentUserId, now).state;
    CheckIfFriendsSymmetric(t.friends, r.from, r.to);
    assert t.notifications.Keys == s.notifications.Keys + {s.nextId};
  }

  lemma AcceptKeepsPendingUnique(s: DbState, requestId: DocId, currentUserId: string, now: int)
    requires PendingUnique(s.requests)
    ensures PendingUnique(AcceptOutcome(s, requestId, currentUserId, now).state.requests)
  {
  }

  method AcceptFriendRequest(db: Db, requestId: DocId, currentUserId: string, now: int) returns (r: Result<(), FriendError>)
    requires db.Valid()
    modifies db
    ensures db.Valid()
    ensures Outcome(r, db.State()) == AcceptOutcome(old(db.State()), requestId, currentUserId, now)
  {
    if requestId !in db.requests {
      return Err(RequestNotFound);
    }
    var requestData := db.requests[requestId];
    db.SetFriendship(GenerateChatId(requestData.from, requestData.to), AcceptedFriendship(requestData, now));
    var _ := db.UpdateRequest(requestId, requestData.(status := Accepted, acceptedAt := Some(now)));
    MarkNotificationsOfRequest(db, requestId);
    var _ := db.AddNotification(AcceptedNotification(requestData, currentUserId, now));
    r := Ok(());
  }

  /** The query `requestId == requestId` and the `updateDoc(..., { read: true })`
      issued for each document it returns. */
  method MarkNotificationsOfRequest(db: Db, requestId: DocId)
    requires db.Valid()
    modifies db
    ensures db.Valid()
    ensures db.State() == old(db.State()).(notifications := MarkRequestNotificationsRead(old(db.notifications), requestId))
  {
    ghost var before := db.notifications;
    var snapshot := set k | k in db.notifications && db.notifications[k].requestId == Some(requestId);
    var todo := snapshot;
    ghost var done: set<DocId> := {};
    while todo != {}
      invariant db.Valid()
      invariant todo <= snapshot && done == snapshot - todo
      invariant db.notifications == MarkRead(before, done)
      invariant db.requests == old(db.requests) && db.friends == old(db.friends) && db.chats == old(db.chats)
      invariant db.messages == old(db.messages) && db.nextId == old(db.nextId)
      decreases todo
    {
      var k :| k in todo;
      var _ := db.MarkNotificationRead(k);
      MarkReadStep(before, done, k);
      done := done + {k};
      todo := todo - {k};
    }
  }

  /** `rejectFriendRequest`: the update of a missing request fails in the store. */
  function RejectOutcome(s: DbState, requestId: DocId, now: int): (o: Outcome<()>)
    ensures requestId !in s.requests ==> o == Outcome(Err(DocumentNotFound), s)
    ensures requestId in s.requests ==> o.result.Ok?
    ensures o.state.friends == s.friends && o.state.chats == s.chats && o.state.messages == s.messages
    ensures ReadMonotone(s.notifications, o.state.notifications)
    ensures WellFormed(s) ==> WellFormed(o.state)
  {
    if requestId !in s.requests then Outcome(Err(DocumentNotFound), s)
    else
      var r := s.requests[requestId];
      Outcome(Ok(()),
              s.(requests := s.requests[requestId := r.(status := Rejected, rejectedAt := Some(now))],
                 notifications := MarkRequestNotificationsRead(s.notifications, requestId)))
  }

  /** A successful reject marks the request rejected and every notification of it read. */
  lemma RejectEffects(s: DbState, requestId: DocId, now: int)
    requires requestId in s.requests
    ensures var t := RejectOutcome(s, requestId, now).state;
      && t.requests[requestId] == s.requests[requestId].(status := Rejected, rejectedAt := Some(now))
      && t.requests.Keys == s.requests.Keys
      && (forall k :: k in s.requests && k != requestId ==> k in t.requests && t.requests[k] == s.requests[k])
      && t.notifications.Keys == s.notifications.Keys
      && (forall k :: k in s.notifications && s.notifications[k].requestId == Some(requestId) ==>
            t.notifications[k] == s.notifications[k].(read := true))
      && (forall k :: k in s.notifications && s.notifications[k].requestId != Some(requestId) ==> t.notifications[k] == s.notifications[k])
  {
  }

  lemma RejectKeepsPendingUnique(s: DbState, requestId: DocId, now: int)
    requires PendingUnique(s.requests)
    ensures PendingUnique(RejectOutcome(s, requestId, now).state.requests)
  {
  }

  method RejectFriendRequest(db: Db, requestId: DocId, now: int) returns (r: Result<(), FriendError>)
    requires db.Valid()
    modifies db
    ensures db.Valid()
    ensures Outcome(r, db.State()) == RejectOutcome(old(db.State()), requestId, now)
  {
    var ok := false;
    if requestId in db.requests {
      ok := db.UpdateRequest(requestId, db.requests[requestId].(status := Rejected, rejectedAt := Some(now)));
    }
    if !ok {
      return Err(DocumentNotFound);
    }
    MarkNotificationsOfRequest(db, requestId);
    r := Ok(());
  }

  /** A request sent and then accepted by its recipient: both sides see
      'friends', the sender has an unread 'friend_accepted' notification and the
      recipient's 'friend_request' notification is read. */
  lemma SendThenAccept(s: DbState, a: string, b: string, aData: UserData, bData: UserData, t1: int, t2: int)
    requires WellFormed(s)
    requires SendOutcome(s, a, b, aData, bData, t1).result.Ok?
    ensures var sent := SendOutcome(s, a, b, aData, bData, t1);
      var done := AcceptOutcome(sent.state, sent.result.value, b, t2);
      && done.result.Ok?
      && GetFriendshipStatus(done.state, a, b) == Friends
      && GetFriendshipStatus(done.state, b, a) == Friends
      && (exists n :: n in done.state.notifications && done.state.notifications[n].userId == a
            && done.state.notifications[n].kind == FriendAcceptedType && !done.state.notifications[n].read)
      && (forall n :: (n in done.state.notifications && done.state.notifications[n].userId == b
            && done.state.notifications[n].requestId == Some(sent.result.value)) ==> done.state.notifications[n].read)
      && (exists n :: n in done.state.notifications && done.state.notifications[n].userId == b
            && done.state.notifications[n].kind == FriendRequestType && done.state.notifications[n].requestId == Some(sent.result.value))
  {
    var sent := SendOutcome(s, a, b, aData, bData, t1);
    var id := sent.result.value;
    var mid := sent.state;
    assert id == s.nextId;
    assert mid.requests[id] == NewRequest(a, b, aData, bData, t1);
    var n := s.nextId + 1;
    assert mid.notifications[n] == RequestNotification(b, a, aData, id, t1);
    AcceptOfRequestFromTo(mid, id, a, b, n, t2);
  }

  /** Accepting the request `id` from `a` to `b`, whose 'friend_request' notification
      for `b` is `n`: the second half of SendThenAccept. */
  lemma AcceptOfRequestFromTo(mid: DbState, id: DocId, a: string, b: string, n: DocId, t2: int)
    requires WellFormed(mid)
    requires id in mid.requests && mid.requests[id].from == a && mid.requests[id].to == b
    requires n in mid.notifications && mid.notifications[n].userId == b
    requires mid.notifications[n].kind == FriendRequestType && mid.notifications[n].requestId == Some(id)
    ensures var done := AcceptOutcome(mid, id, b, t2);
      && done.result.Ok?
      && GetFriendshipStatus(done.state, a, b) == Friends
      && GetFriendshipStatus(done.state, b, a) == Friends
      && (exists k :: k in done.state.notifications && done.state.notifications[k].userId == a
            && done.state.notifications[k].kind == FriendAcceptedType && !done.state.notifications[k].read)
      && (forall k :: (k in done.state.notifications && done.state.notifications[k].userId == b
            && done.state.notifications[k].requestId == Some(id)) ==> done.state.notifications[k].read)
      && (exists k :: k in done.state.notifications && done.state.notifications[k].userId == b
            && done.state.notifications[k].kind == FriendRequestType && done.state.notifications[k].requestId == Some(id))
  {
    var done := AcceptOutcome(mid, id, b, t2);
    CheckIfFriendsSymmetric(done.state.friends, a, b);
    assert done.state.notifications[mid.nextId] == AcceptedNotification(mid.requests[id], b, t2);
    assert done.state.notifications[n] == mid.notifications[n].(read := true);
  }

  /** A request sent and then rejected leaves the pair 'not_friends' on both
      sides, and does not block a new request. */
  lemma SendThenReject(s: DbState, a: string, b: string, aData: UserData, bData: UserData, t1: int, t2: int, t3: int)
    requires WellFormed(s)
    requires SendOutcome(s, a, b, aData, bData, t1).result.Ok?
    ensures var sent := SendOutcome(s, a, b, aData, bData, t1);
      var done := RejectOutcome(sent.state, sent.result.value, t2);
      && done.result.Ok?
      && !CheckIfFriends(done.state.friends, a, b)
      && GetFriendshipStatus(done.state, a, b) == NotFriendsStatus
      && GetFriendshipStatus(done.state, b, a) == NotFriendsStatus
      && SendOutcome(done.state, a, b, aData, bData, t3).result.Ok?
  {
    var sent := SendOutcome(s, a, b, aData, bData, t1);
    var id := sent.result.value;
    var done := RejectOutcome(sent.state, id, t2);
    CheckIfFriendsSymmetric(s.friends, a, b);
    assert forall k :: k in done.state.requests && done.state.requests[k].status == Pending ==> k in s.requests && done.state.requests[k] == s.requests[k];
  }

  /** Accepting a request again rewrites the friendship with `setDoc`, which
      drops the nicknames either user had set. */
  lemma AcceptResetsNicknames(s: DbState, requestId: DocId, currentUserId: string, now: int, viewer: string)
    requires requestId in s.requests
    requires viewer == s.requests[requestId].from || viewer == s.requests[requestId].to
    ensures var r := s.requests[requestId];
      GetFriendNickname(AcceptOutcome(s, requestId, currentUserId, now).state, viewer, if viewer == r.from then r.to else r.from) == None
  {
    var r := s.requests[requestId];
    GenerateChatIdCommutes(r.from, r.to);
  }

  // ---------------------------------------------------------- removeFriend

  /** (x, y) is the pair (a, b) in one order or the other. */
  predicate Between(x: string, y: string, a: string, b: string)
  {
    (x == a && y == b) || (x == b && y == a)
  }

  function NotificationsBetween(m: map<DocId, Notification>, a: string, b: string): set<DocId>
  {
    set k | k in m && Between(m[k].userId, m[k].fromUserId, a, b)
  }

  function RequestsBetween(m: map<DocId, FriendRequest>, a: string, b: string): set<DocId>
  {
    set k | k in m && Between(m[k].from, m[k].to, a, b)
  }

  /** `removeFriend`: the pair's friendship, the notifications between them and
      the requests between them (whatever their status) are deleted; nothing else changes. */
  function RemoveFriendState(s: DbState, a: string, b: string): (t: DbState)
    ensures t.friends == s.friends - {GenerateChatId(a, b)}
    ensures forall k :: k in t.notifications <==> k in s.notifications && !Between(s.notifications[k].userId, s.notifications[k].fromUserId, a, b)
    ensures forall k :: k in t.notifications ==> t.notifications[k] == s.notifications[k]
    ensures forall k :: k in t.requests <==> k in s.requests && !Between(s.requests[k].from, s.requests[k].to, a, b)
    ensures forall k :: k in t.requests ==> t.requests[k] == s.requests[k]
    ensures t.chats == s.chats && t.messages == s.messages && t.nextId == s.nextId
    ensures WellFormed(s) ==> WellFormed(t)
  {
    s.(friends := s.friends - {GenerateChatId(a, b)},
       notifications := s.notifications - NotificationsBetween(s.notifications, a, b),
       requests := s.requests - RequestsBetween(s.requests, a, b))
  }

  /** Afterwards no friendship, notification or request refers to the pair, and
      both sides see 'not_friends'. */
  lemma RemoveFriendLeavesNothing(s: DbState, a: string, b: string)
    ensures var t := RemoveFriendState(s, a, b);
      && !CheckIfFriends(t.friends, a, b) && !CheckIfFriends(t.friends, b, a)
      && (forall k :: k in t.notifications ==> !Between(t.notifications[k].userId, t.notifications[k].fromUserId, a, b))
      && (forall k :: k in t.requests ==> !Between(t.requests[k].from, t.requests[k].to, a, b))
      && GetFriendshipStatus(t, a, b) == NotFriendsStatus
      && GetFriendshipStatus(t, b, a) == NotFriendsStatus
  {
    var t := RemoveFriendState(s, a, b);
    GenerateChatIdCommutes(a, b);
    assert !HasPendingRequest(t.requests, a, b);
    assert !HasPendingRequest(t.requests, b, a);
  }

  lemma RemoveFriendKeepsPendingUnique(s: DbState, a: string, b: string)
    requires PendingUnique(s.requests)
    ensures PendingUnique(RemoveFriendState(s, a, b).requests)
  {
  }

  /** `snapshot.docs.forEach(doc => batch.delete(doc.ref))`: adds each document of a query answer to the batch. */
  method AddDeletes(batch: set<DocId>, docs: set<DocId>) returns (batch': set<DocId>)
    ensures batch' == batch + docs
  {
    batch' := batch;
    var todo := docs;
    while todo != {}
      invariant todo <= docs
      invariant batch' == batch + (docs - todo)
      decreases todo
    {
      var d :| d in todo;
      batch' := batch' + {d};
      todo := todo - {d};
    }
  }

  /** The query `userId == to, fromUserId == from` on notifications. */
  function NotificationsFromTo(m: map<DocId, Notification>, to: string, from: string): set<DocId>
  {
    set k | k in m && m[k].userId == to && m[k].fromUserId == from
  }

  /** The query `from == from, to == to` on friend requests. */
  function RequestsFromTo(m: map<DocId, FriendRequest>, from: string, to: string): set<DocId>
  {
    set k | k in m && m[k].from == from && m[k].to == to
  }

  /** The two directed queries together find everything between the pair. */
  lemma BetweenIsBothQueries(s: DbState, a: string, b: string)
    ensures NotificationsFromTo(s.notifications, a, b) + NotificationsFromTo(s.notifications, b, a)
         == NotificationsBetween(s.notifications, a, b)
    ensures RequestsFromTo(s.requests, a, b) + RequestsFromTo(s.requests, b, a) == RequestsBetween(s.requests, a, b)
  {
  }

  /** The four queries of `removeFriend` and the batch of deletes built from their answers. */
  method RemovalBatch(s: DbState, currentUserId: string, friendUserId: string)
    returns (notificationDeletes: set<DocId>, requestDeletes: set<DocId>)
    ensures notificationDeletes == NotificationsBetween(s.notifications, currentUserId, friendUserId)
    ensures requestDeletes == RequestsBetween(s.requests, currentUserId, friendUserId)
  {
    var snapshot1 := NotificationsFromTo(s.notifications, currentUserId, friendUserId);
    var snapshot2 := NotificationsFromTo(s.notifications, friendUserId, currentUserId);
    notificationDeletes := AddDeletes({}, snapshot1);
    notificationDeletes := AddDeletes(notificationDeletes, snapshot2);
    var reqSnapshot1 := RequestsFromTo(s.requests, currentUserId, friendUserId);
    var reqSnapshot2 := RequestsFromTo(s.requests, friendUserId, currentUserId);
    requestDeletes := AddDeletes({}, reqSnapshot1);
    requestDeletes := AddDeletes(requestDeletes, reqSnapshot2);
    BetweenIsBothQueries(s, currentUserId, friendUserId);
  }

  /** `removeFriend`: the friendship delete, then one batch deleting the query answers. */
  method RemoveFriend(db: Db, currentUserId: string, friendUserId: string)
    requires db.Valid()
    modifies db
    ensures db.Valid()
    ensures db.State() == RemoveFriendState(old(db.State()), currentUserId, friendUserId)
  {
    db.DeleteFriendship(GenerateChatId(currentUserId, friendUserId));
    var notificationDeletes, requestDeletes := RemovalBatch(db.State(), currentUserId, friendUserId);
    db.CommitDeletes(notificationDeletes, requestDeletes);
  }

  /** After an accept, the friendship is in the `getUserFriends` answer of both users. */
  lemma AcceptListsFriendshipForBoth(s: DbState, requestId: DocId, currentUserId: string, now: int)
    requires requestId in s.requests
    ensures var r := s.requests[requestId];
      var t := AcceptOutcome(s, requestId, currentUserId, now).state;
      var id := GenerateChatId(r.from, r.to);
      && id in GetUserFriends(t.friends, r.from) && id in GetUserFriends(t.friends, r.to)
      && GetUserFriends(t.friends, r.from)[id] == GetUserFriends(t.friends, r.to)[id]
  {
  }

  /** After `removeFriend`, the friendship is in neither user's `getUserFriends`
      answer, and every user's list loses that friendship and nothing else. */
  lemma RemoveUnlistsFriendshipForBoth(s: DbState, a: string, b: string)
    ensures var t := RemoveFriendState(s, a, b);
      && GenerateChatId(a, b) !in GetUserFriends(t.friends, a)
      && GenerateChatId(a, b) !in GetUserFriends(t.friends, b)
      && forall u :: GetUserFriends(t.friends, u) == GetUserFriends(s.friends, u) - {GenerateChatId(a, b)}
  {
  }

  // ---------------------------------------------------------- nicknames

  /** `setFriendNickname`: updates only `nicknames[currentUserId]` (and `updatedAt`). */
  function SetNicknameOutcome(s: DbState, currentUserId: string, friendUserId: string, nickname: string, now: int): (o: Outcome<()>)
    ensures !CheckIfFriends(s.friends, currentUserId, friendUserId) ==> o == Outcome(Err(NotFriends), s)
    ensures CheckIfFriends(s.friends, currentUserId, friendUserId) ==> o.result.Ok?
    ensures o.state.requests == s.requests && o.state.notifications == s.notifications
    ensures o.state.chats == s.chats && o.state.messages == s.messages && o.state.nextId == s.nextId
    ensures o.state.friends.Keys == s.friends.Keys
    ensures forall id :: id in s.friends && id != GenerateChatId(currentUserId, friendUserId) ==> o.state.friends[id] == s.friends[id]
    ensures var id := GenerateChatId(currentUserId, friendUserId);
      CheckIfFriends(s.friends, currentUserId, friendUserId) ==>
        o.state.friends[id] == s.friends[id].(nicknames := s.friends[id].nicknames[currentUserId := nickname], updatedAt := Some(now))
  {
    var id := GenerateChatId(currentUserId, friendUserId);
    if id !in s.friends then Outcome(Err(NotFriends), s)
    else
      var f := s.friends[id];
      Outcome(Ok(()), s.(friends := s.friends[id := f.(nicknames := f.nicknames[currentUserId := nickname], updatedAt := Some(now))]))
  }

  /** `getFriendNickname`: null when not friends or when no non-empty nickname is set. */
  function GetFriendNickname(s: DbState, currentUserId: string, friendUserId: string): (r: Option<string>)
    ensures !CheckIfFriends(s.friends, currentUserId, friendUserId) ==> r == None
    ensures var id := GenerateChatId(currentUserId, friendUserId);
      CheckIfFriends(s.friends, currentUserId, friendUserId) ==>
        (r.Some? <==> currentUserId in s.friends[id].nicknames && s.friends[id].nicknames[currentUserId] != "")
        && (r.Some? ==> r.value == s.friends[id].nicknames[currentUserId])
    ensures r.Some? ==> r.value != ""
  {
    var id := GenerateChatId(currentUserId, friendUserId);
    if id !in s.friends then None
    else
      var nicknames := s.friends[id].nicknames;
      if currentUserId in nicknames && nicknames[currentUserId] != "" then Some(nicknames[currentUserId]) else None
  }

  /** The viewer reads back what they set (an empty nickname reads as null), and
      every other viewer's nickname, for any friend, is unchanged. */
  lemma SetThenGetNickname(s: DbState, viewer: string, friend: string, nickname: string, now: int, other: string, x: string)
    requires CheckIfFriends(s.friends, viewer, friend)
    requires other != viewer
    ensures var t := SetNicknameOutcome(s, viewer, friend, nickname, now).state;
      && GetFriendNickname(t, viewer, friend) == (if nickname == "" then None else Some(nickname))
      && GetFriendNickname(t, other, x) == GetFriendNickname(s, other, x)
  {
  }

  method SetFriendNickname(db: Db, currentUserId: string, friendUserId: string, nickname: string, now: int)
    returns (r: Result<(), FriendError>)
    requires db.Valid()
    modifies db
    ensures db.Valid()
    ensures Outcome(r, db.State()) == SetNicknameOutcome(old(db.State()), currentUserId, friendUserId, nickname, now)
  {
    var friendshipId := GenerateChatId(currentUserId, friendUserId);
    if friendshipId !in db.friends {
      return Err(NotFriends);
    }
    var f := db.friends[friendshipId];
    var _ := db.UpdateFriendship(friendshipId, f.(nicknames := f.nicknames[currentUserId := nickname], updatedAt := Some(now)));
    r := Ok(());
  }

  // ---------------------------------------------------------- clearChat

  /** `clearChat`: one batch deleting every message of the chat and setting
      `lastMessage` to null; the batch fails as a whole when the chat is missing. */
  function ClearChatOutcome(s: DbState, chatId: string, now: int): (o: Outcome<()>)
    ensures chatId !in s.chats ==> o == Outcome(Err(DocumentNotFound), s)
    ensures chatId in s.chats ==> o.result.Ok?
    ensures o.state.requests == s.requests && o.state.friends == s.friends
    ensures o.state.notifications == s.notifications && o.state.nextId == s.nextId
    ensures WellFormed(s) ==> WellFormed(o.state)
  {
    if chatId !in s.chats then Outcome(Err(DocumentNotFound), s)
    else
      Outcome(Ok(()), s.(chats := s.chats[chatId := s.chats[chatId].(lastMessage := None, lastMessageTime := Some(now))],
                         messages := s.messages[chatId := map[]]))
  }

  /** A cleared chat has no messages, a null `lastMessage` and the clear time as
      `lastMessageTime`; its participants, their details, its creation time and
      every other chat and its messages are unchanged. */
  lemma ClearChatEffects(s: DbState, chatId: string, now: int)
    requires chatId in s.chats
    ensures var t := ClearChatOutcome(s, chatId, now).state;
      && MessagesOf(t, chatId) == map[]
      && t.chats[chatId].lastMessage == None
      && t.chats[chatId].lastMessageTime == Some(now)
      && t.chats[chatId].participants == s.chats[chatId].participants
      && t.chats[chatId].participantDetails == s.chats[chatId].participantDetails
      && t.chats[chatId].createdAt == s.chats[chatId].createdAt
      && t.chats.Keys == s.chats.Keys
      && (forall c :: c in s.chats && c != chatId ==> t.chats[c] == s.chats[c])
      && (forall c :: c != chatId ==> MessagesOf(t, c) == MessagesOf(s, c))
  {
  }

  method ClearChat(db: Db, chatId: string, now: int) returns (r: Result<(), FriendError>)
    requires db.Valid()
    modifies db
    ensures db.Valid()
    ensures Outcome(r, db.State()) == ClearChatOutcome(old(db.State()), chatId, now)
  {
    var messagesSnapshot := MessagesOf(db.State(), chatId).Keys;
    var batch := AddDeletes({}, messagesSnapshot);
    var ok := false;
    if chatId in db.chats {
      ok := db.CommitClear(chatId, batch, db.chats[chatId].(lastMessage := None, lastMessageTime := Some(now)));
    }
    if !ok {
      return Err(DocumentNotFound);
    }
    assert MessagesOf(old(db.State()), chatId) - batch == map[];
    r := Ok(());
  }
}
