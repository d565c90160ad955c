/** The document store the social graph is kept in, as in-memory maps: the
    `friendRequests`, `friends`, `notifications` and `chats` collections and each
    chat's `messages` sub-collection. Store-generated document ids come from one
    counter; `serverTimestamp()` is an integer the caller passes in. */
module Store {
  import opened Wrappers

  type DocId = nat

  datatype RequestStatus = Pending | Accepted | Rejected

  /** The `{name, image}` snapshot of a user copied into requests and friendships. */
  datatype UserData = UserData(name: string, image: string)

  datatype FriendRequest = FriendRequest(
    from: string, to: string, status: RequestStatus,
    fromUserData: UserData, toUserData: UserData,
    createdAt: int, acceptedAt: Option<int>, rejectedAt: Option<int>)

  /** A friendship document, keyed by the sorted pair of its users. */
  datatype Friendship = Friendship(
    users: seq<string>, userDetails: map<string, UserData>,
    nicknames: map<string, string>, createdAt: int, updatedAt: Option<int>)

  /** `type` is 'friend_request' or 'friend_accepted'. */
  datatype NotificationType = FriendRequestType | FriendAcceptedType

  datatype Notification = Notification(
    userId: string, kind: NotificationType,
    fromUserId: string, fromUserName: string, fromUserImage: string,
    requestId: Option<DocId>, read: bool, createdAt: Option<int>)

  datatype Participant = Participant(id: string, name: string, image: string)

  datatype Chat = Chat(
    participants: seq<string>, participantDetails: map<string, Participant>,
    lastMessage: Option<string>, lastMessageTime: Option<int>, createdAt: int)

  datatype Message = Message(text: string, userId: string, userName: string, userImage: string, timestamp: int)

  /** The whole store as a value. */
  datatype DbState = DbState(
    requests: map<DocId, FriendRequest>,
    friends: map<string, Friendship>,
    notifications: map<DocId, Notification>,
    chats: map<string, Chat>,
    messages: map<string, map<DocId, Message>>,
    nextId: DocId)

  /** Every generated id in use, and every id a notification refers to, is below
      the counter, so the next `addDoc` gets a fresh id; every chat carries a
      `lastMessageTime` (each write of a chat in this core sets one). */
  predicate WellFormed(s: DbState)
  {
    && (forall c :: c in s.chats ==> s.chats[c].lastMessageTime.Some?)
    && (forall k :: k in s.requests ==> k < s.nextId)
    && (forall k :: k in s.notifications ==> k < s.nextId)
    && (forall k :: k in s.notifications && s.notifications[k].requestId.Some? ==>
          s.notifications[k].requestId.value < s.nextId)
    && (forall c, k :: c in s.messages && k in s.messages[c] ==> k < s.nextId)
  }

  /** The `chats/{chatId}/messages` sub-collection (empty when it was never written). */
  function MessagesOf(s: DbState, chatId: string): map<DocId, Message>
  {
    if chatId in s.messages then s.messages[chatId] else map[]
  }

  /** `read` only ever goes from false to true on a notification that stays. */
  predicate ReadMonotone(before: map<DocId, Notification>, after: map<DocId, Notification>)
  {
    forall k :: k in before && k in after && before[k].read ==> after[k].read
  }

  class Db {
    var requests: map<DocId, FriendRequest>
    var friends: map<string, Friendship>
    var notifications: map<DocId, Notification>
    var chats: map<string, Chat>
    var messages: map<string, map<DocId, Message>>
    var nextId: DocId

    function State(): DbState
      reads this
    {
      DbState(requests, friends, notifications, chats, messages, nextId)
    }

    predicate Valid()
      reads this
    {
      WellFormed(State())
    }

    constructor ()
      ensures Valid()
      ensures State() == DbState(map[], map[], map[], map[], map[], 0)
    {
      requests, friends, notifications, chats, messages, nextId := map[], map[], map[], map[], map[], 0;
    }

    /** `addDoc(collection(db, 'friendRequests'), r)`. */
    method AddRequest(r: FriendRequest) returns (id: DocId)
      requires Valid()
      modifies this
      ensures Valid()
      ensures id == old(nextId) && id !in old(requests)
      ensures State() == old(State()).(requests := old(requests)[id := r], nextId := id + 1)
    {
      id := nextId;
      requests := requests[id := r];
      nextId := nextId + 1;
    }

    /** `addDoc(collection(db, 'notifications'), n)`. */
    method AddNotification(n: Notification) returns (id: DocId)
      requires Valid()
      requires n.requestId.Some? ==> n.requestId.value < nextId
      modifies this
      ensures Valid()
      ensures id == old(nextId) && id !in old(notifications)
      ensures State() == old(State()).(notifications := old(notifications)[id := n], nextId := id + 1)
    {
      id := nextId;
      notifications := notifications[id := n];
      nextId := nextId + 1;
    }

    /** `addDoc(collection(db, 'chats', chatId, 'messages'), m)`; a sub-collection
        needs no parent document. */
    method AddMessage(chatId: string, m: Message) returns (id: DocId)
      requires Valid()
      modifies this
      ensures Valid()
      ensures id == old(nextId) && id !in MessagesOf(old(State()), chatId)
      ensures State() == old(State()).(messages := old(messages)[chatId := MessagesOf(old(State()), chatId)[id := m]],
                                       nextId := id + 1)
    {
      id := nextId;
      messages := messages[chatId := MessagesOf(State(), chatId)[id := m]];
      nextId := nextId + 1;
    }

    /** `setDoc(doc(db, 'friends', id), f)`: creates or replaces the whole document. */
    method SetFriendship(id: string, f: Friendship)
      requires Valid()
      modifies this
      ensures Valid()
      ensures State() == old(State()).(friends := old(friends)[id := f])
    {
      friends := friends[id := f];
    }

    /** `deleteDoc(doc(db, 'friends', id))`: deleting a missing document is not an error. */
    method DeleteFriendship(id: string)
      requires Valid()
      modifies this
      ensures Valid()
      ensures State() == old(State()).(friends := old(friends) - {id})
    {
      friends := friends - {id};
    }

    /** `setDoc(doc(db, 'chats', id), c)`. */
    method SetChat(id: string, c: Chat)
      requires Valid()
      requires c.lastMessageTime.Some?
      modifies this
      ensures Valid()
      ensures State() == old(State()).(chats := old(chats)[id := c])
    {
      chats := chats[id := c];
    }

    /** `updateDoc` on a friend request: fails, writing nothing, when the document is missing. */
    method UpdateRequest(id: DocId, r: FriendRequest) returns (ok: bool)
      requires Valid()
      modifies this
      ensures Valid()
      ensures ok == (id in old(requests))
      ensures State() == if ok then old(State()).(requests := old(requests)[id := r]) else old(State())
    {
      ok := id in requests;
      if ok {
        requests := requests[id := r];
      }
    }

    /** `updateDoc` on a friendship document. */
    method UpdateFriendship(id: string, f: Friendship) returns (ok: bool)
      requires Valid()
      modifies this
      ensures Valid()
      ensures ok == (id in old(friends))
      ensures State() == if ok then old(State()).(friends := old(friends)[id := f]) else old(State())
    {
      ok := id in friends;
      if ok {
        friends := friends[id := f];
      }
    }

    /** `updateDoc` on a chat document. */
    method UpdateChat(id: string, c: Chat) returns (ok: bool)
      requires Valid()
      requires c.lastMessageTime.Some?
      modifies this
      ensures Valid()
      ensures ok == (id in old(chats))
      ensures State() == if ok then old(State()).(chats := old(chats)[id := c]) else old(State())
    {
      ok := id in chats;
      if ok {
        chats := chats[id := c];
      }
    }

    /** `updateDoc(notifRef, { read: true })`. */
    method MarkNotificationRead(id: DocId) returns (ok: bool)
      requires Valid()
      modifies this
      ensures Valid()
      ensures ok == (id in old(notifications))
      ensures State() == if ok then old(State()).(notifications := old(notifications)[id := old(notifications)[id].(read := true)])
                         else old(State())
    {
      ok := id in notifications;
      if ok {
        notifications := notifications[id := notifications[id].(read := true)];
      }
    }

    /** Commits a write batch of deletes over notifications and friend requests. */
    method CommitDeletes(notificationIds: set<DocId>, requestIds: set<DocId>)
      requires Valid()
      modifies this
      ensures Valid()
      ensures State() == old(State()).(notifications := old(notifications) - notificationIds,
                                       requests := old(requests) - requestIds)
    {
      notifications := notifications - notificationIds;
      requests := requests - requestIds;
    }

    /** Commits a write batch that deletes messages of one chat and updates the chat
        document. All or nothing: an update of a missing chat fails the whole batch. */
    method CommitClear(chatId: string, messageIds: set<DocId>, c: Chat) returns (ok: bool)
      requires Valid()
      requires c.lastMessageTime.Some?
      modifies this
      ensures Valid()
      ensures ok == (chatId in old(chats))
      ensures State() == if ok then old(State()).(chats := old(chats)[chatId := c],
                                                  messages := old(messages)[chatId := MessagesOf(old(State()), chatId) - messageIds])
                         else old(State())
    {
      ok := chatId in chats;
      if ok {
        messages := messages[chatId := MessagesOf(State(), chatId) - messageIds];
        chats := chats[chatId := c];
      }
    }

    /** Commits a write batch of `{ read: true }` updates. All or nothing: the batch
        fails if one of the documents is gone, or if the store reports a failure. */
    method CommitReadBatch(ids: set<DocId>, storeFails: bool) returns (ok: bool)
      requires Valid()
      modifies this
      ensures Valid()
      ensures ok == (!storeFails && ids <= old(notifications).Keys)
      ensures State() == if ok then old(State()).(notifications := MarkRead(old(notifications), ids)) else old(State())
    {
      ok := !storeFails && ids <= notifications.Keys;
      if ok {
        notifications := MarkRead(notifications, ids);
      }
    }
  }

  /** The notifications after `{ read: true }` has been applied to those in `ids`. */
  function MarkRead(m: map<DocId, Notification>, ids: set<DocId>): (r: map<DocId, Notification>)
    ensures r.Keys == m.Keys
    ensures forall k :: k in m && k in ids ==> r[k] == m[k].(read := true)
    ensures forall k :: k in m && k !in ids ==> r[k] == m[k]
    ensures ReadMonotone(m, r)
  {
    map k | k in m :: if k in ids then m[k].(read := true) else m[k]
  }

  /** Marking one more notification read, one `updateDoc` at a time. */
  lemma MarkReadStep(m: map<DocId, Notification>, done: set<DocId>, k: DocId)
    requires k in m
    ensures MarkRead(m, done)[k := MarkRead(m, done)[k].(read := true)] == MarkRead(m, done + {k})
  {
  }
}
