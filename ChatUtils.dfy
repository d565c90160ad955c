/** src/lib/chatUtils.js: the deterministic pair id shared by chats and
    friendships, lazy chat creation and the per-user chat query. */
module ChatUtils {
  import opened Wrappers
  import opened Strings
  import opened Store

  /** `[a, b].sort()` with the default string order (a stable sort keeps equal ids in place). */
  function SortPair(a: string, b: string): seq<string>
  {
    if Less(b, a) then [b, a] else [a, b]
  }

  /** `parts.join(sep)`. */
  function Join(parts: seq<string>, sep: string): string
  {
    if |parts| == 0 then ""
    else if |parts| == 1 then parts[0]
    else parts[0] + sep + Join(parts[1..], sep)
  }

  /** `generateChatId`: the two ids in ascending order, joined by '_'. */
  function GenerateChatId(a: string, b: string): (id: string)
    ensures !Less(b, a) ==> id == a + "_" + b
    ensures !Less(a, b) ==> id == b + "_" + a
  {
    LessTotal(a, b);
    var sorted := SortPair(a, b);
    assert Join(sorted[1..], "_") == sorted[1];
    Join(sorted, "_")
  }

  /** The id does not depend on the order of the two users. */
  lemma GenerateChatIdCommutes(a: string, b: string)
    ensures GenerateChatId(a, b) == GenerateChatId(b, a)
  {
    LessTotal(a, b);
    LessAsymmetric(a, b);
  }

  /** For ids of one common length the id determines the unordered pair. */
  lemma GenerateChatIdDeterminesPair(a: string, b: string, c: string, d: string)
    requires |a| == |b| == |c| == |d|
    requires GenerateChatId(a, b) == GenerateChatId(c, d)
    ensures {a, b} == {c, d}
  {
    var x, y := if Less(b, a) then b else a, if Less(b, a) then a else b;
    var u, v := if Less(d, c) then d else c, if Less(d, c) then c else d;
    LessAsymmetric(a, b);
    LessAsymmetric(c, d);
    var id := x + "_" + y;
    assert id == u + "_" + v;
    assert x == id[..|x|] == u;
    assert y == id[|x| + 1..] == v;
  }

  /** Ids that contain '_' can collide: two different pairs share one id. */
  lemma GenerateChatIdCollision()
    ensures GenerateChatId("a_b", "c") == GenerateChatId("a", "b_c")
    ensures {"a_b", "c"} != {"a", "b_c"}
  {
    assert Less("a_b", "c");
    assert Less("a", "b_c");
    assert "a_b" !in {"a", "b_c"};
  }

  /** The chat document `getOrCreateChat` writes when none exists. */
  function NewChat(current: string, other: string, currentData: UserData, otherData: UserData, now: int): Chat
  {
    Chat([current, other],
         map[current := Participant(current, currentData.name, currentData.image),
             other := Participant(other, otherData.name, otherData.image)],
         None, Some(now), now)
  }

  /** The store after `getOrCreateChat`: the chat document is created only when it is absent. */
  function GetOrCreateChatState(s: DbState, current: string, other: string,
                                currentData: UserData, otherData: UserData, now: int): (t: DbState)
    ensures GenerateChatId(current, other) in t.chats
    ensures GenerateChatId(current, other) in s.chats ==> t == s
    ensures t.requests == s.requests && t.friends == s.friends && t.notifications == s.notifications
    ensures t.messages == s.messages && t.nextId == s.nextId
    ensures forall id :: id in s.chats ==> id in t.chats && t.chats[id] == s.chats[id]
    ensures forall id :: id in t.chats ==> id in s.chats || id == GenerateChatId(current, other)
    ensures WellFormed(s) ==> WellFormed(t)
  {
    var chatId := GenerateChatId(current, other);
    if chatId in s.chats then s
    else s.(chats := s.chats[chatId := NewChat(current, other, currentData, otherData, now)])
  }

  /** A created chat has the participants in call order, details keyed by each id and no last message. */
  lemma NewChatShape(s: DbState, current: string, other: string, currentData: UserData, otherData: UserData, now: int)
    requires GenerateChatId(current, other) !in s.chats
    ensures var c := GetOrCreateChatState(s, current, other, currentData, otherData, now).chats[GenerateChatId(current, other)];
      && c.participants == [current, other]
      && c.participantDetails.Keys == {current, other}
      && c.participantDetails[other] == Participant(other, otherData.name, otherData.image)
      && (current != other ==> c.participantDetails[current] == Participant(current, currentData.name, currentData.image))
      && c.lastMessage == None
  {
  }

  /** A second call, by either participant and with any snapshots, changes nothing
      and finds the same single chat. */
  lemma GetOrCreateChatIdempotent(s: DbState, a: string, b: string, aData: UserData, bData: UserData, now: int,
                                  a2: UserData, b2: UserData, later: int)
    ensures var t := GetOrCreateChatState(s, a, b, aData, bData, now);
      && GetOrCreateChatState(t, a, b, a2, b2, later) == t
      && GetOrCreateChatState(t, b, a, b2, a2, later) == t
      && GenerateChatId(b, a) == GenerateChatId(a, b) && GenerateChatId(a, b) in t.chats
  {
    GenerateChatIdCommutes(a, b);
  }

  /** `getOrCreateChat`: read the chat document, create it if absent, return its id. */
  method GetOrCreateChat(db: Db, currentUserId: string, otherUserId: string,
                         currentUserData: UserData, otherUserData: UserData, now: int) returns (chatId: string)
    requires db.Valid()
    modifies db
    ensures db.Valid()
    ensures chatId == GenerateChatId(currentUserId, otherUserId)
    ensures db.State() == GetOrCreateChatState(old(db.State()), currentUserId, otherUserId, currentUserData, otherUserData, now)
  {
    chatId := GenerateChatId(currentUserId, otherUserId);
    var chatExists := chatId in db.chats;
    if !chatExists {
      db.SetChat(chatId, NewChat(currentUserId, otherUserId, currentUserData, otherUserData, now));
    }
  }

  /** Order key of `orderBy('lastMessageTime', 'desc')`. */
  function LastTime(entry: (string, Chat)): int
  {
    match entry.1.lastMessageTime
    case Some(t) => t
    case None => 0
  }

  /** The chat ids `getUserChats` answers with. An `orderBy` also drops documents
      lacking the field, so those without `lastMessageTime` are excluded. */
  function UserChatIds(chats: map<string, Chat>, userId: string): set<string>
  {
    set id | id in chats && userId in chats[id].participants && chats[id].lastMessageTime.Some?
  }

  /** Every chat the core writes has a `lastMessageTime`, so in a well-formed store
      the query returns exactly the chats the user takes part in. */
  lemma UserChatIdsOfWellFormed(s: DbState, userId: string)
    requires WellFormed(s)
    ensures UserChatIds(s.chats, userId) == set id | id in s.chats && userId in s.chats[id].participants
  {
  }

  predicate DescendingByTime(r: seq<(string, Chat)>)
  {
    forall i, j :: 0 <= i < j < |r| ==> LastTime(r[i]) >= LastTime(r[j])
  }

  /** The document ids listed in a query answer. */
  function Ids(r: seq<(string, Chat)>): set<string>
  {
    set i | 0 <= i < |r| :: r[i].0
  }

  predicate DistinctIds(r: seq<(string, Chat)>)
  {
    forall i, j :: 0 <= i < j < |r| ==> r[i].0 != r[j].0
  }

  /** Inserts an entry into a descending list after every entry at least as recent. */
  function InsertByTime(r: seq<(string, Chat)>, x: (string, Chat)): (r': seq<(string, Chat)>)
    requires DescendingByTime(r)
    ensures |r'| == |r| + 1
    ensures forall e :: e in r' <==> e in r || e == x
    ensures DescendingByTime(r')
  {
    if |r| == 0 || LastTime(r[0]) < LastTime(x) then
      assert forall e :: e in r ==> LastTime(e) < LastTime(x) by {
        forall e | e in r ensures LastTime(e) < LastTime(x) {
          var i :| 0 <= i < |r| && r[i] == e;
        }
      }
      [x] + r
    else
      var tail := InsertByTime(r[1..], x);
      assert forall e :: e in tail ==> LastTime(r[0]) >= LastTime(e) by {
        forall e | e in tail ensures LastTime(r[0]) >= LastTime(e) {
          if e != x {
            var i :| 0 <= i < |r[1..]| && r[1..][i] == e;
          }
        }
      }
      [r[0]] + tail
  }

  lemma IdsCons(e: (string, Chat), r: seq<(string, Chat)>)
    ensures Ids([e] + r) == {e.0} + Ids(r)
  {
    var l := [e] + r;
    forall y | y in Ids(l) ensures y in {e.0} + Ids(r) {
      var i :| 0 <= i < |l| && l[i].0 == y;
      if i > 0 { assert r[i - 1].0 == y; }
    }
    forall y | y in Ids(r) ensures y in Ids(l) {
      var i :| 0 <= i < |r| && r[i].0 == y;
      assert l[i + 1].0 == y;
    }
    assert l[0].0 == e.0;
  }

  /** Insertion adds exactly the new id, and keeps ids distinct when it was new. */
  lemma {:induction false} InsertByTimeIds(r: seq<(string, Chat)>, x: (string, Chat))
    requires DescendingByTime(r)
    ensures Ids(InsertByTime(r, x)) == Ids(r) + {x.0}
    ensures DistinctIds(r) && x.0 !in Ids(r) ==> DistinctIds(InsertByTime(r, x))
  {
    if |r| == 0 || LastTime(r[0]) < LastTime(x) {
      IdsCons(x, r);
      if DistinctIds(r) && x.0 !in Ids(r) {
        forall j | 0 <= j < |r| ensures r[j].0 != x.0 {
          assert r[j].0 in Ids(r);
        }
      }
    } else {
      var tail := InsertByTime(r[1..], x);
      assert DescendingByTime(r[1..]);
      InsertByTimeIds(r[1..], x);
      assert r == [r[0]] + r[1..];
      IdsCons(r[0], r[1..]);
      IdsCons(r[0], tail);
      if DistinctIds(r) && x.0 !in Ids(r) {
        forall j | 0 <= j < |tail| ensures tail[j].0 != r[0].0 {
          assert tail[j].0 in Ids(tail);
        }
      }
    }
  }

  /** `getUserChats`: the user's chats, each once, latest `lastMessageTime` first. */
  method GetUserChats(db: Db, userId: string) returns (r: seq<(string, Chat)>)
    ensures forall e :: e in r ==> e.0 in db.chats && e.1 == db.chats[e.0]
    ensures Ids(r) == UserChatIds(db.chats, userId)
    ensures DistinctIds(r)
    ensures DescendingByTime(r)
  {
    var todo := db.chats.Keys;
    r := [];
    while todo != {}
      invariant todo <= db.chats.Keys
      invariant forall e :: e in r ==> e.0 in db.chats && e.1 == db.chats[e.0]
      invariant Ids(r) == UserChatIds(db.chats, userId) - todo
      invariant DistinctIds(r)
      invariant DescendingByTime(r)
      decreases todo
    {
      var id :| id in todo;
      var chat := db.chats[id];
      if userId in chat.participants && chat.lastMessageTime.Some? {
        InsertByTimeIds(r, (id, chat));
        r := InsertByTime(r, (id, chat));
      }
      todo := todo - {id};
    }
  }
}
