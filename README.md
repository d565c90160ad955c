# Friend graph and chat core, in Dafny

A model of the social-graph layer of a chat application built on a document
store (Firestore), a realtime key-value store (Realtime Database) and an
identity provider (Clerk), with proofs about it.

- **Store** holds the document collections as in-memory maps. These are
  `friendRequests`, `friends`, `notifications`, `chats` and each chat's
  `messages`. The `Db` class holds them as fields; each primitive write
  (`addDoc`, `setDoc`, `updateDoc`, `deleteDoc`, a committed write batch) is a
  method that states the whole new state. Generated document ids come from one
  counter. `serverTimestamp()` is an integer the caller passes in.
- **FriendUtils** models `src/lib/friendUtils.js`. It covers the friend-request
  state machine (send, accept, reject), the status queries, unfriending,
  per-viewer nicknames and clearing a chat. Each store operation has two parts:
  - a pure transition over `DbState` that gives the call's answer and the new
    store, and the lemmas about it;
  - a method over `Db` that does the source's writes in the source's order and
    is proved to reach that transition.
- **ChatUtils** models `src/lib/chatUtils.js`: the sorted-pair id shared by
  chats and friendships, lazy chat creation and the per-user chat query.
- **NotificationBell** covers the notification list, its order, the unread
  count and badge, and the batch that marks the fetched unread notifications
  read when the dropdown opens.
- **Presence** and **UserStatus** cover the presence protocol and the
  `{ isOnline, lastSeen }` view of another user. The Realtime Database is a
  class holding:
  - the status records;
  - the deferred on-disconnect writes;
  - the value listeners;
  - a log of the effects that took place, in order.
- **ChatSidebar**, **PrivateMessageInput**, **UserList** and **UsersRoute** cover:
  - the chat list order and "other participant" choice;
  - the message send guard and its two writes;
  - the search filter and starting a chat;
  - the directory endpoint.
- **Wrappers**, **Seqs** and **Strings** are shared helpers: `Option`/`Result`,
  subsequences and filtering, and the JavaScript string operations used
  (`<` on strings, `trim`, ASCII `toLowerCase`, `includes`).

## Model

| member | source | states |
|---|---|---|
| ChatUtils.GenerateChatId | src/lib/chatUtils.js:5-7 | the id is the smaller user id, '_', then the larger one |
| ChatUtils.GenerateChatIdCommutes | src/lib/chatUtils.js:5-7 | the id does not depend on the order of the two users |
| ChatUtils.GenerateChatIdDeterminesPair | src/lib/chatUtils.js:5-7 | for user ids of one common length, equal ids mean the same unordered pair |
| ChatUtils.GenerateChatIdCollision | src/lib/chatUtils.js:5-7 | ids containing '_' can collide: ("a_b","c") and ("a","b_c") get one id |
| ChatUtils.GetOrCreateChatState | src/lib/chatUtils.js:10-40 | the pair's chat exists afterwards; an existing chat leaves the store unchanged; otherwise only that one chat is added |
| ChatUtils.NewChatShape | src/lib/chatUtils.js:17-37 | a created chat has participants [current, other] in call order, details keyed by each id, and no last message |
| ChatUtils.GetOrCreateChatIdempotent | src/lib/chatUtils.js:10-40 | a second call by either participant, with any snapshots, changes nothing and finds the same chat |
| ChatUtils.GetOrCreateChat | src/lib/chatUtils.js:10-40 | returns the pair's id, and the store becomes GetOrCreateChatState of the old one |
| ChatUtils.InsertByTime | src/lib/chatUtils.js:48 | the insertion step keeps a list descending by lastMessageTime and adds exactly the new entry |
| ChatUtils.InsertByTimeIds | src/lib/chatUtils.js:48 | insertion adds exactly the new id, and keeps ids distinct when the id was new |
| ChatUtils.UserChatIdsOfWellFormed | src/lib/chatUtils.js:45-49 | in a well-formed store the query answers exactly the chats the user takes part in |
| ChatUtils.GetUserChats | src/lib/chatUtils.js:43-56 | each of the user's chats with a lastMessageTime appears once, with its stored data, latest first |
| FriendUtils.CheckExistingRequest | src/lib/friendUtils.js:64-84 | true exactly when a pending request joins the two users, in either direction |
| FriendUtils.CheckIfFriends | src/lib/friendUtils.js:87-92 | true exactly when the friendship document named by the two ids in ascending order, joined by '_', exists; the argument order does not matter |
| FriendUtils.CheckIfFriendsSymmetric | src/lib/friendUtils.js:87-92 | asking about (a, b) or (b, a) gives the same answer |
| FriendUtils.GetFriendshipStatus | src/lib/friendUtils.js:218-241 | each of the four answers holds exactly when it is the first applicable one: friends, pending a→b, pending b→a, none |
| FriendUtils.GetUserFriends | src/lib/friendUtils.js:174-185 | exactly the friendships listing the user, with their stored data |
| FriendUtils.AcceptListsFriendshipForBoth | src/lib/friendUtils.js:106-114 | after an accept, the new friendship is in both users' friend lists, with the same data |
| FriendUtils.RemoveUnlistsFriendshipForBoth | src/lib/friendUtils.js:246-249 | after unfriending, the friendship is in neither user's friend list, and every user's list loses that friendship and nothing else |
| FriendUtils.GetPendingRequests | src/lib/friendUtils.js:188-200 | exactly the pending requests addressed to the user |
| FriendUtils.GetSentRequests | src/lib/friendUtils.js:203-215 | exactly the pending requests the user sent |
| FriendUtils.PendingAndSentAgree | src/lib/friendUtils.js:188-215 | a request pending for b from a is exactly one sent by a to b, and it makes "pending a→b" true |
| FriendUtils.StatusIsMirrored | src/lib/friendUtils.js:218-241 | with at most one pending request per pair, 'friends' and 'not_friends' are seen alike by both users, and 'request_sent' on one side is 'request_received' on the other |
| FriendUtils.SendOutcome | src/lib/friendUtils.js:18-61 | a pending request either way fails first as a duplicate, then an existing friendship fails; both change nothing; success exactly otherwise; friendships, chats and messages never change; read flags never go back |
| FriendUtils.SendAddsRequestAndNotification | src/lib/friendUtils.js:30-56 | success adds exactly one pending from→to request with both snapshots and exactly one unread 'friend_request' notification for the recipient naming it, and returns its id |
| FriendUtils.SendUpdatesStatus | src/lib/friendUtils.js:18-56 | after a send, the sender sees 'request_sent' and the recipient 'request_received' |
| FriendUtils.SendKeepsPendingUnique | src/lib/friendUtils.js:18-56 | sending keeps at most one pending request per unordered pair |
| FriendUtils.SendTwiceIsDuplicate | src/lib/friendUtils.js:20-23 | sending again, in either direction, while the first request is pending fails as a duplicate and changes nothing |
| FriendUtils.OnlyPendingBlocks | src/lib/friendUtils.js:64-84 | accepted or rejected requests do not affect whether a send succeeds |
| FriendUtils.SendFriendRequest | src/lib/friendUtils.js:18-61 | the check-then-write sequence answers and leaves the store as SendOutcome |
| FriendUtils.MarkRequestNotificationsRead | src/lib/friendUtils.js:121-128 | marking read never sets a read flag back to unread |
| FriendUtils.AcceptOutcome | src/lib/friendUtils.js:95-145 | a missing request fails with 'Request not found' and changes nothing; any present request, whatever its status or recipient, is accepted; chats and messages never change |
| FriendUtils.AcceptEffects | src/lib/friendUtils.js:106-140 | the sorted-pair friendship with users [from, to], both users' details, no nicknames and the accept time, replacing any earlier one; every other friendship unchanged; the same request ids, the request accepted with its time; every notification of the request read and the others unchanged; one new unread 'friend_accepted' for the sender; 'friends' from both sides |
| FriendUtils.AcceptKeepsPendingUnique | src/lib/friendUtils.js:116-119 | accepting keeps at most one pending request per pair |
| FriendUtils.MarkNotificationsOfRequest | src/lib/friendUtils.js:121-128 | the loop over the query answer marks read exactly the notifications naming the request |
| FriendUtils.AcceptFriendRequest | src/lib/friendUtils.js:95-145 | the write sequence answers and leaves the store as AcceptOutcome |
| FriendUtils.RejectOutcome | src/lib/friendUtils.js:148-171 | a missing request fails in the store and changes nothing; otherwise success; friendships, chats and messages never change |
| FriendUtils.RejectEffects | src/lib/friendUtils.js:150-165 | the request is rejected with its time; no request is added or removed and the others are unchanged; every notification of it is read and no other changes |
| FriendUtils.RejectKeepsPendingUnique | src/lib/friendUtils.js:150-155 | rejecting keeps at most one pending request per pair |
| FriendUtils.RejectFriendRequest | src/lib/friendUtils.js:148-171 | the write sequence answers and leaves the store as RejectOutcome |
| FriendUtils.SendThenAccept | src/lib/friendUtils.js:18-145 | after send then accept by the recipient, both see 'friends', the sender has an unread 'friend_accepted' and the recipient's 'friend_request' is read |
| FriendUtils.AcceptOfRequestFromTo | src/lib/friendUtils.js:95-140 | accepting a request from a to b makes both see 'friends', gives a an unread 'friend_accepted', and leaves the request's notifications for b read |
| FriendUtils.SendThenReject | src/lib/friendUtils.js:18-171 | after send then reject, both see 'not_friends' and a new request from the sender succeeds |
| FriendUtils.AcceptResetsNicknames | src/lib/friendUtils.js:106-114 | accepting rewrites the friendship with setDoc, so neither user has a nickname afterwards |
| FriendUtils.RemoveFriendState | src/lib/friendUtils.js:244-310 | the pair's friendship, every notification between the two in either direction and every request between them of any status are deleted; all else is unchanged |
| FriendUtils.RemoveFriendLeavesNothing | src/lib/friendUtils.js:244-310 | afterwards nothing refers to the pair and both users see 'not_friends' |
| FriendUtils.RemoveFriendKeepsPendingUnique | src/lib/friendUtils.js:277-303 | removing keeps at most one pending request per pair |
| FriendUtils.AddDeletes | src/lib/friendUtils.js:270-301 | the loop adds every document of a query answer to the batch |
| FriendUtils.BetweenIsBothQueries | src/lib/friendUtils.js:250-293 | the two directed queries on each collection together find exactly the records between the pair |
| FriendUtils.RemovalBatch | src/lib/friendUtils.js:250-301 | the batch deletes exactly the notifications and the requests between the pair |
| FriendUtils.RemoveFriend | src/lib/friendUtils.js:244-310 | the delete, the four queries and the batch commit leave the store as RemoveFriendState |
| FriendUtils.SetNicknameOutcome | src/lib/friendUtils.js:313-333 | no friendship fails with 'Not friends' and changes nothing; otherwise the pair's friendship gets the caller's nickname entry and the update time, and nothing else changes |
| FriendUtils.GetFriendNickname | src/lib/friendUtils.js:336-352 | null when not friends; for friends, the caller's own nickname entry when it is set and non-empty, otherwise null |
| FriendUtils.SetThenGetNickname | src/lib/friendUtils.js:313-352 | the viewer reads back what they set (empty reads as null), and every other viewer's nickname, for any friend, is unchanged |
| FriendUtils.SetFriendNickname | src/lib/friendUtils.js:313-333 | the check and update answer and leave the store as SetNicknameOutcome |
| FriendUtils.ClearChatOutcome | src/lib/friendUtils.js:355-378 | a missing chat fails the batch and changes nothing; otherwise success; requests, friendships and notifications never change |
| FriendUtils.ClearChatEffects | src/lib/friendUtils.js:355-378 | the chat has no messages, a null lastMessage and the clear time as lastMessageTime; its participants, their details, its creation time, every other chat and every other chat's messages are unchanged |
| FriendUtils.ClearChat | src/lib/friendUtils.js:355-378 | the query, the batch of deletes and the chat update leave the store as ClearChatOutcome |
| Store.MarkRead | src/lib/friendUtils.js:121-128 | exactly the given notifications become read; keys and the others are unchanged |
| NotificationBell.Inbox | src/components/NotificationBell.js:20-31 | the answer lists only the user's notifications, with their data, each once, in id order |
| NotificationBell.InboxComplete | src/components/NotificationBell.js:23-26 | every notification of the user is in the answer |
| NotificationBell.CompareCreatedAt | src/components/NotificationBell.js:32-35 | equal when either createdAt is missing; otherwise negative exactly when the first is later |
| NotificationBell.CompareCreatedAtAntisymmetric | src/components/NotificationBell.js:32-35 | swapping the arguments negates the comparison |
| NotificationBell.InsertItem | src/components/NotificationBell.js:32-35 | one insertion step adds exactly the new entry |
| NotificationBell.InsertItemNewestFirst | src/components/NotificationBell.js:32-35 | inserting a timed entry keeps a timed list newest first |
| NotificationBell.SortByCreatedAt | src/components/NotificationBell.js:28-35 | the sorted list is a permutation of the snapshot |
| NotificationBell.SortNewestFirst | src/components/NotificationBell.js:28-35 | when every entry has a createdAt, the list is newest first |
| NotificationBell.UnreadCount | src/components/NotificationBell.js:38 | the unread count never exceeds the number of entries |
| NotificationBell.UnreadCountIsFilterLength | src/components/NotificationBell.js:38 | the unread count is the length of the list filtered to unread entries |
| NotificationBell.UnreadCountZero | src/components/NotificationBell.js:38 | the count is 0 exactly when every entry is read |
| NotificationBell.SortKeepsUnreadCount | src/components/NotificationBell.js:28-38 | sorting neither adds nor loses an unread entry |
| NotificationBell.InboxUnreadCount | src/components/NotificationBell.js:20-38 | the unread count of the answer is the number of the user's unread notifications in the store |
| NotificationBell.UnreadCountMatchesStore | src/components/NotificationBell.js:20-38 | the badge count is the number of the user's unread notifications in the store |
| NotificationBell.BadgeText | src/components/NotificationBell.js:97-101 | no badge exactly at 0; '9+' exactly above 9; otherwise the single digit of the count |
| NotificationBell.MarkAllState | src/components/NotificationBell.js:53-67 | on success exactly the fetched unread entries become read; on failure, or when one is gone, nothing changes; nothing becomes unread and no other collection changes |
| NotificationBell.FetchedIdsExist | src/components/NotificationBell.js:20-39 | every fetched entry names an existing notification |
| NotificationBell.UnreadIsFetched | src/components/NotificationBell.js:20-56 | every unread notification of the user is among the ids the read batch covers |
| NotificationBell.OffersActions | src/components/NotificationBell.js:148-173 | Accept and Reject are offered only on a friend request, and exactly while it is unread |
| NotificationBell.HandledRequestOffersNoActions | src/components/NotificationBell.js:148-173 | after the request is accepted or rejected, none of its notifications offers Accept or Reject |
| NotificationBell.AllReadListsNoneUnread | src/components/NotificationBell.js:38-173 | when all of the user's notifications are read, the list has no unread entry and offers no Accept or Reject |
| NotificationBell.OpeningClearsInbox | src/components/NotificationBell.js:44-173 | opening on a fresh list reads every notification of the user, so the next snapshot has no badge and offers no action |
| NotificationBell.Bell.constructor | src/components/NotificationBell.js:16-18 | an empty closed list with count 0 |
| NotificationBell.Bell.OnSnapshot | src/components/NotificationBell.js:28-39 | the list becomes the sorted snapshot and the count its unread count |
| NotificationBell.Bell.MarkAllAsRead | src/components/NotificationBell.js:53-67 | the loop builds the batch of fetched unread ids; the store becomes MarkAllState, with a failure swallowed |
| NotificationBell.Bell.ToggleDropdown | src/components/NotificationBell.js:44-51 | the dropdown flips; the store changes, as MarkAllState, only when it opens with unread entries |
| Presence.StatusPath | src/hooks/usePresence.js:17 | the record path is '/status/' followed by the user id |
| Presence.ApplyDeferred | src/hooks/usePresence.js:41-43 | each deferred write replaces its record with the server time; the other records stay |
| Presence.RealtimeDb.SetOnDisconnect | src/hooks/usePresence.js:42-43 | registers the deferred write and logs it, or fails and changes nothing |
| Presence.RealtimeDb.Set | src/hooks/usePresence.js:45-46 | writes the record and logs it, or fails and changes nothing |
| Presence.RealtimeDb.AbruptDisconnect | src/hooks/usePresence.js:41-43 | the records become ApplyDeferred of the old ones and nothing remains deferred |
| Presence.OnlineGuardedAppend | src/hooks/usePresence.js:33-52 | appending a guarded sequence that does not start with an online write keeps the log guarded |
| Presence.ConnectedEffects | src/hooks/usePresence.js:33-52 | a false event does nothing; otherwise the offline registration comes first, online is written only after it, both at the user's path, and online is written exactly when neither step fails |
| Presence.TeardownEffects | src/hooks/usePresence.js:55-59 | unsubscribe first, then the offline write unless it fails |
| Presence.DeferredOfflineWins | src/hooks/usePresence.js:41-43 | once the offline record is registered, an abrupt disconnect leaves the user offline |
| Presence.PresenceTracker.Mount | src/hooks/usePresence.js:11-33 | subscribes exactly when signed in, with a user and a database; otherwise nothing is logged or written |
| Presence.PresenceTracker.OnConnected | src/hooks/usePresence.js:33-52 | each event appends ConnectedEffects, registers offline then writes online, and keeps every online write preceded by its registration |
| Presence.PresenceTracker.Teardown | src/hooks/usePresence.js:55-59 | appends TeardownEffects, writes the offline record, and keeps the log guarded |
| UserStatus.ToView | src/hooks/useUserStatus.js:26-35 | a present record is online exactly when its state is online and was last seen at last_changed; no record reads as offline, never seen |
| UserStatus.StatusWatcher.constructor | src/hooks/useUserStatus.js:7-9 | offline, never seen, loading, no listener |
| UserStatus.StatusWatcher.Mount | src/hooks/useUserStatus.js:12-43 | without a user id or a database, loading ends and no listener is registered; otherwise one listener on the user's path |
| UserStatus.StatusWatcher.OnValue | src/hooks/useUserStatus.js:22-37 | the view becomes ToView of the snapshot and loading ends |
| UserStatus.StatusWatcher.Deliver | src/hooks/useUserStatus.js:22-37 | the view becomes that of the record as stored now, and loading ends |
| UserStatus.StatusWatcher.OnError | src/hooks/useUserStatus.js:40-43 | loading ends and nothing else changes |
| UserStatus.StatusWatcher.Teardown | src/hooks/useUserStatus.js:45-48 | removes exactly the listener this watcher registered |
| UserStatus.AbruptDisconnectIsSeen | src/hooks/usePresence.js:33-52 | a watcher sees the user online at the connect time, then offline at the time of an abrupt disconnect |
| ChatSidebar.FirstOther | src/components/ChatSidebar.js:14 | the index of the first participant other than the viewer, or none when there is none |
| ChatSidebar.GetOtherUser | src/components/ChatSidebar.js:13-16 | the first participant other than the viewer, with that participant's stored name and image, each missing when not found |
| ChatSidebar.OtherUserOfNewChat | src/components/ChatSidebar.js:13-16 | in a chat made by getOrCreateChat, each user sees the other with the snapshot taken at creation |
| ChatSidebar.Subscription | src/components/ChatSidebar.js:74-82 | no subscription without a user id; otherwise exactly the chats listing the user |
| ChatSidebar.SubscriptionMatchesUserChats | src/components/ChatSidebar.js:79-82 | in a well-formed store the sidebar lists the same chats getUserChats answers |
| ChatSidebar.CompareAsWritten | src/components/ChatSidebar.js:90-94 | a chat with no time on the left compares after; one with a time before one without; otherwise later first |
| ChatSidebar.AsWrittenIsNotAntisymmetric | src/components/ChatSidebar.js:91 | two chats without a time each compare after the other |
| ChatSidebar.CompareChats | src/components/ChatSidebar.js:90-94 | later first, chats without a time last, and two chats without a time equal |
| ChatSidebar.CompareChatsAgrees | src/components/ChatSidebar.js:90-94 | the corrected comparator differs from the written one only on two chats without a time |
| ChatSidebar.CompareChatsConsistent | src/components/ChatSidebar.js:90-94 | the corrected comparator is antisymmetric and transitive |
| ChatSidebar.ChatOrderedMeaning | src/components/ChatSidebar.js:91-93 | in the list, a timed chat is preceded only by timed chats at least as recent |
| ChatSidebar.InsertChat | src/components/ChatSidebar.js:90 | one insertion step adds exactly the new entry |
| ChatSidebar.InsertChatOrdered | src/components/ChatSidebar.js:90-94 | insertion keeps the list in order |
| ChatSidebar.SortChats | src/components/ChatSidebar.js:90-96 | the displayed list is a permutation of the snapshot |
| ChatSidebar.SortChatsOrdered | src/components/ChatSidebar.js:90-96 | the displayed list is in order |
| ChatSidebar.SidebarListsUserChats | src/components/ChatSidebar.js:74-96 | the sidebar shows each of the user's chats exactly once, with its data, in order |
| ChatSidebar.IdsPermutation | src/components/ChatSidebar.js:90-96 | reordering keeps the set of chat ids |
| ChatSidebar.DistinctIdsPermutation | src/components/ChatSidebar.js:90-96 | reordering keeps the chat ids distinct |
| PrivateMessageInput.SendWrites | src/components/PrivateMessageInput.js:16-36 | success exactly when neither write fails and the chat exists; the message is stored with a fresh id unless the add fails; on success lastMessage and lastMessageTime become the text and time; other chats' messages and other collections never change |
| PrivateMessageInput.SentMessageIsLast | src/components/PrivateMessageInput.js:17-30 | the chat's lastMessage is the trimmed text of the newly stored message; the message carries the first write's server time and the chat's lastMessageTime the second's |
| PrivateMessageInput.MessageInput.Start | src/components/PrivateMessageInput.js:13-15 | a send starts exactly when the trimmed text is non-empty and none is in flight; the trimmed text is captured for the rest of the handler |
| PrivateMessageInput.MessageInput.Finish | src/components/PrivateMessageInput.js:16-39 | the two writes of the captured text as SendWrites; the field is cleared only on success; sending ends on every path |
| PrivateMessageInput.MessageInput.HandleSubmit | src/components/PrivateMessageInput.js:10-39 | a refused submit writes nothing and changes nothing; an accepted one performs SendWrites and ends with sending false |
| PrivateMessageInput.SubmitWhileSending | src/components/PrivateMessageInput.js:13 | a second submit while the first is in flight writes nothing |
| UserList.FilterUsers | src/components/UserList.js:51-54 | a user is kept exactly when the lower-cased query occurs in the lower-cased full name or user name |
| UserList.FilterUsersKeepsOrder | src/components/UserList.js:51-54 | the kept users are a subsequence of the directory, in its order |
| UserList.EmptyQueryKeepsAll | src/components/UserList.js:51-54 | an empty search shows everyone |
| UserList.DisplayName | src/components/UserList.js:36 | the full name, or the user name when it is empty |
| UserList.HandleStartChat | src/components/UserList.js:30-49 | with a signed-in user, creates or finds the pair's chat with both snapshots and navigates to exactly its id; without one, the throw is caught before any write and nothing happens |
| UserList.Body | src/app/api/users/route.js:9-34 | only the listing answer carries a users field, and it carries the listed users |
| UserList.UserListView.FetchUsers | src/components/UserList.js:18-28 | a JSON body replaces the list with its users or with none; a throw keeps the list; loading ends either way |
| UserList.LoadDirectory | src/components/UserList.js:14-28 | on a fresh page, loading ends, a failed or refused request shows nobody, the caller is never shown, and a listing is shown as sent |
| UsersRoute.DisplayUsername | src/app/api/users/route.js:24 | the user name, else the first name, else 'Anonymous'; never empty |
| UsersRoute.FullName | src/app/api/users/route.js:25 | 'Anonymous User' when `first + ' ' + last` is all white space; otherwise that string's middle block with only white space around it, neither starting nor ending in white space |
| UsersRoute.FirstEmail | src/app/api/users/route.js:27 | the first address, or '' when there is none |
| UsersRoute.Format | src/app/api/users/route.js:22-29 | id, image and creation time are copied; the user name, full name and email are the fallback chains of the route, and the first two are never empty |
| UsersRoute.Get | src/app/api/users/route.js:4-36 | a failure answers 500, no caller 401, and otherwise a listing without the caller in which every entry is Format of a fetched user other than the caller |
| UsersRoute.IdsAfterFilter | src/app/api/users/route.js:20-29 | the listed ids are the fetched ids with the caller's removed |
| UsersRoute.ListedIdsInOrder | src/app/api/users/route.js:20-29 | the listed ids are exactly the other fetched ids, in the fetched order |

## Left out

- Network, storage and identity-provider internals are replaced by the in-memory `Db` and `RealtimeDb` classes. `serverTimestamp()` is an integer parameter. A snapshot listener is "the handler receives the current snapshot"; real-time push delivery is not modelled.
- FriendUtils.SendOutcome, FriendUtils.AcceptOutcome: one `now` stands for every `serverTimestamp()` of the operation, although each separate write's server time is fixed when that write commits. No property proved about them depends on the times being equal. The message send takes two times, one per write.
- Concurrency is not modelled; every operation runs to completion alone. This covers:
  - the check-then-write races in sending a request and in creating a chat;
  - the unawaited `forEach(async …)` read-marking in accept and reject, taken as completed before the next write;
  - the unfriending friendship delete, which happens outside the batch and is taken as coming before it.
- Store failures are modelled only where they decide a path:
  - an update of a missing document (reject, clearing a chat, the chat update after a message);
  - a batch in which a document is gone;
  - explicit `addFails`/`updateFails`/`storeFails`/`fails` parameters for the message send, the read batch and the presence writes.

  Other store errors in `friendUtils.js` and `chatUtils.js` (network, permissions) are not modelled.
- Generated document ids are natural numbers from one counter, and a query without `orderBy` answers in id order. The store's real ids are random strings.
- Missing string values (`null`, `undefined`) are the empty string, and strings are sequences of characters rather than UTF-16 code units. `toLowerCase` is ASCII only. `trim` removes the white space and line terminator code points of the ECMAScript grammar.
- A `.` inside a user id, which would make `nicknames.${id}` a nested field path, is not modelled; it writes the map entry.
- ChatUtils.GetUserChats: an `orderBy` query also drops documents lacking the field, so chats without `lastMessageTime` are not answered. The store breaks ties between equal times by document id; the model leaves the order among chats with equal times open.
- NotificationBell.SortNewestFirst: the comparator returns 0 whenever one `createdAt` is missing, which is not a consistent comparator, so the engine's order is unspecified. The model fixes a stable insertion sort. Newest-first is proved only when every entry has a `createdAt`, and the permutation and unread count always.
- NotificationBell's `handleAccept`/`handleReject` are the accept and reject operations followed by an `alert` on error, so they have no member of their own. Rendering, the date display and `formatDistanceToNow` are left out.
- Presence.PresenceTracker.Mount takes `isSignedIn`, the user and whether the database is configured as inputs. UserStatus.StatusWatcher.Mount takes the last as `dbReady`. The log records only the effects that took place. `serverTimestamp()` in a deferred write resolves at the time the disconnect applies it.
- UsersRoute.Get takes the identity provider's user list and the `auth()` answer as inputs, so the list limit and order of `getUserList` are not modelled.
- UserList.LoadDirectory: a network failure is a parameter, and the server's answer is what UsersRoute.Get computes.
- ChatSidebar.SortChats: with two or more chats lacking a `lastMessageTime`, the comparator as written is inconsistent and the engine's order is unspecified, so the model sorts with the corrected comparator (see Findings). On every other input the two comparators agree (ChatSidebar.CompareChatsAgrees), so the displayed order is the same.
- View files, `MessageInput.js`/`ChatRoom.js` (their only logic is a blank-text guard matching the one here), `src/app/api/firebase-token/route.js` (commented out), and the UI side effects `alert`, `confirm`, `router.push` and `console.*` are not part of this model.

## Findings

| source | as written | input that shows it | evidently intended | confidence | as-written member | corrected member |
|---|---|---|---|---|---|---|
| src/components/ChatSidebar.js:90-94 | the comparator returns 1 when the left chat has no `lastMessageTime`, even if the right one has none either | two chats whose `lastMessageTime` is null: each compares after the other, so the comparator is not consistent and the sorted order is unspecified | return 0 when both times are missing, so chats without a time sort last in a defined, stable way | not executed | ChatSidebar.CompareAsWritten | ChatSidebar.CompareChats |
