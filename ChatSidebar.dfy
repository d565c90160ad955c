/** src/components/ChatSidebar.js: the user's chat list subscription, its
    ordering, and picking the other participant of a chat. */
module ChatSidebar {
  import opened Wrappers
  import opened Store
  import opened ChatUtils

  /** `{ ...chat.participantDetails[otherUserId], id: otherUserId }`: each field
      is missing when the lookup finds nothing. */
  datatype OtherUser = OtherUser(id: Option<string>, name: Option<string>, image: Option<string>)

  /** The index `participants.find(id => id !== currentUserId)` stops at. */
  function FirstOther(participants: seq<string>, current: string): (r: Option<nat>)
    ensures r.Some? ==> r.value < |participants| && participants[r.value] != current
    ensures r.Some? ==> forall j :: 0 <= j < r.value ==> participants[j] == current
    ensures r.None? ==> forall j :: 0 <= j < |participants| ==> participants[j] == current
  {
    if participants == [] then None
    else if participants[0] != current then Some(0)
    else
      match FirstOther(participants[1..], current)
      case None => None
      case Some(i) => Some(i + 1)
  }

  /** `getOtherUser`: the first participant other than the viewer, with that
      participant's stored name and image. */
  function GetOtherUser(chat: Chat, current: string): (u: OtherUser)
    ensures u.id.None? <==> forall p :: p in chat.participants ==> p == current
    ensures u.id.Some? ==> u.id.value != current
    ensures u.id.Some? ==>
      exists i :: 0 <= i < |chat.participants| && chat.participants[i] == u.id.value && (forall j :: 0 <= j < i ==> chat.participants[j] == current)
    ensures u.id.Some? && u.id.value in chat.participantDetails ==>
      u.name == Some(chat.participantDetails[u.id.value].name) && u.image == Some(chat.participantDetails[u.id.value].image)
    ensures u.id.None? || u.id.value !in chat.participantDetails ==> u.name.None? && u.image.None?
  {
    match FirstOther(chat.participants, current)
    case None => OtherUser(None, None, None)
    case Some(i) =>
      var id := chat.participants[i];
      assert id in chat.participants;
      if id in chat.participantDetails then
        OtherUser(Some(id), Some(chat.participantDetails[id].name), Some(chat.participantDetails[id].image))
      else OtherUser(Some(id), None, None)
  }

  /** In a chat made by `getOrCreateChat`, each of the two users sees the other
      with the snapshot taken at creation. */
  lemma OtherUserOfNewChat(current: string, other: string, cd: UserData, od: UserData, now: int)
    requires current != other
    ensures GetOtherUser(NewChat(current, other, cd, od, now), current) == OtherUser(Some(other), Some(od.name), Some(od.image))
    ensures GetOtherUser(NewChat(current, other, cd, od, now), other) == OtherUser(Some(current), Some(cd.name), Some(cd.image))
  {
    var c := NewChat(current, other, cd, od, now);
    assert c.participants[1..] == [other];
    assert FirstOther(c.participants, current) == Some(1);
    assert FirstOther(c.participants, other) == Some(0);
  }

  /** The query `participants array-contains userId`; no subscription without a userId. */
  function Subscription(chats: map<string, Chat>, userId: string): (r: Option<set<string>>)
    ensures r.None? <==> userId == ""
    ensures r.Some? ==> forall id :: id in r.value <==> id in chats && userId in chats[id].participants
  {
    if userId == "" then None else Some(set id | id in chats && userId in chats[id].participants)
  }

  /** The sidebar lists the same chats `getUserChats` answers in a well-formed store. */
  lemma SubscriptionMatchesUserChats(s: DbState, userId: string)
    requires WellFormed(s) && userId != ""
    ensures Subscription(s.chats, userId) == Some(UserChatIds(s.chats, userId))
  {
    UserChatIdsOfWellFormed(s, userId);
  }

  /** The snapshot: each of the subscribed chats once, with its data. */
  predicate IsSnapshot(docs: seq<(string, Chat)>, chats: map<string, Chat>, ids: set<string>)
  {
    && DistinctIds(docs)
    && Ids(docs) == ids
    && (forall i :: 0 <= i < |docs| ==> docs[i].0 in chats && docs[i].1 == chats[docs[i].0])
  }

  predicate HasTime(e: (string, Chat))
  {
    e.1.lastMessageTime.Some?
  }

  /** The comparator as written: an entry without `lastMessageTime` on the left
      compares after, even when the right one has none either. */
  function CompareAsWritten(a: (string, Chat), b: (string, Chat)): (c: int)
    ensures !HasTime(a) ==> c == 1
    ensures HasTime(a) && !HasTime(b) ==> c == -1
    ensures HasTime(a) && HasTime(b) ==> (c < 0 <==> LastTime(a) > LastTime(b))
  {
    if a.1.lastMessageTime.None? then 1
    else if b.1.lastMessageTime.None? then -1
    else LastTime(b) - LastTime(a)
  }

  /** Two chats without a time each compare after the other, so the comparator
      is not consistent and the engine's resulting order is not specified. */
  lemma AsWrittenIsNotAntisymmetric()
    ensures exists a, b :: CompareAsWritten(a, b) > 0 && CompareAsWritten(b, a) > 0
  {
    var c := Chat([], map[], None, None, 0);
    assert CompareAsWritten(("a", c), ("b", c)) > 0 && CompareAsWritten(("b", c), ("a", c)) > 0;
  }

  /** The comparator with the evident intent: later first, chats without a time
      last, and two such chats equal. */
  function CompareChats(a: (string, Chat), b: (string, Chat)): (c: int)
    ensures !HasTime(a) && HasTime(b) ==> c > 0
    ensures HasTime(a) && !HasTime(b) ==> c < 0
    ensures !HasTime(a) && !HasTime(b) ==> c == 0
    ensures HasTime(a) && HasTime(b) ==> (c < 0 <==> LastTime(a) > LastTime(b)) && (c == 0 <==> LastTime(a) == LastTime(b))
  {
    if a.1.lastMessageTime.None? && b.1.lastMessageTime.None? then 0
    else CompareAsWritten(a, b)
  }

  /** The corrected comparator differs from the written one only on pairs of chats without a time. */
  lemma CompareChatsAgrees(a: (string, Chat), b: (string, Chat))
    ensures HasTime(a) || HasTime(b) ==> CompareChats(a, b) == CompareAsWritten(a, b)
  {
  }

  /** The corrected comparator is consistent: antisymmetric and transitive. */
  lemma CompareChatsConsistent(a: (string, Chat), b: (string, Chat), c: (string, Chat))
    ensures CompareChats(a, b) == -CompareChats(b, a)
    ensures CompareChats(a, b) <= 0 && CompareChats(b, c) <= 0 ==> CompareChats(a, c) <= 0
  {
  }

  /** In order: chats with a time, latest first, then the chats without one. */
  predicate ChatOrdered(r: seq<(string, Chat)>)
  {
    forall i, j :: 0 <= i < j < |r| ==> CompareChats(r[i], r[j]) <= 0
  }

  /** What the order means for any two listed chats. */
  lemma ChatOrderedMeaning(r: seq<(string, Chat)>, i: int, j: int)
    requires ChatOrdered(r) && 0 <= i < j < |r|
    ensures HasTime(r[j]) ==> HasTime(r[i]) && LastTime(r[i]) >= LastTime(r[j])
    ensures !HasTime(r[i]) ==> !HasTime(r[j])
  {
    assert CompareChats(r[i], r[j]) <= 0;
  }

  function InsertChat(x: (string, Chat), r: seq<(string, Chat)>): (r': seq<(string, Chat)>)
    ensures multiset(r') == multiset(r) + multiset{x}
  {
    if r == [] then [x]
    else if CompareChats(x, r[0]) <= 0 then [x] + r
    else
      assert r == [r[0]] + r[1..];
      [r[0]] + InsertChat(x, r[1..])
  }

  lemma ChatOrderedCons(y: (string, Chat), s: seq<(string, Chat)>)
    requires ChatOrdered(s)
    requires forall z :: z in s ==> CompareChats(y, z) <= 0
    ensures ChatOrdered([y] + s)
  {
    var t := [y] + s;
    forall i, j | 0 <= i < j < |t| ensures CompareChats(t[i], t[j]) <= 0 {
      assert t[j] == s[j - 1];
      if i > 0 {
        assert t[i] == s[i - 1];
      }
    }
  }

  lemma {:induction false} InsertChatOrdered(x: (string, Chat), r: seq<(string, Chat)>)
    requires ChatOrdered(r)
    ensures ChatOrdered(InsertChat(x, r))
  {
    if r == [] {
      assert InsertChat(x, r) == [x];
    } else if CompareChats(x, r[0]) <= 0 {
      forall z | z in r ensures CompareChats(x, z) <= 0 {
        var j :| 0 <= j < |r| && r[j] == z;
        if j > 0 {
          CompareChatsConsistent(x, r[0], z);
        }
      }
      ChatOrderedCons(x, r);
    } else {
      var tail := r[1..];
      assert ChatOrdered(tail) by {
        assert forall i | 0 <= i < |tail| :: tail[i] == r[i + 1];
      }
      InsertChatOrdered(x, tail);
      var rest := InsertChat(x, tail);
      forall z | z in rest ensures CompareChats(r[0], z) <= 0 {
        assert z in multiset(rest);
        if z == x {
          CompareChatsConsistent(x, r[0], x);
        } else {
          var j :| 0 <= j < |tail| && tail[j] == z;
          assert r[j + 1] == z;
        }
      }
      ChatOrderedCons(r[0], rest);
    }
  }

  /** The displayed list: a stable insertion sort by the corrected comparator. */
  function SortChats(docs: seq<(string, Chat)>): (r: seq<(string, Chat)>)
    ensures multiset(r) == multiset(docs)
    ensures |r| == |docs|
  {
    if docs == [] then []
    else
      assert docs == [docs[0]] + docs[1..];
      InsertChat(docs[0], SortChats(docs[1..]))
  }

  lemma {:induction false} SortChatsOrdered(docs: seq<(string, Chat)>)
    ensures ChatOrdered(SortChats(docs))
  {
    if docs != [] {
      SortChatsOrdered(docs[1..]);
      InsertChatOrdered(docs[0], SortChats(docs[1..]));
    }
  }

  /** The sidebar shows each of the user's chats exactly once, in order. */
  lemma SidebarListsUserChats(chats: map<string, Chat>, userId: string, docs: seq<(string, Chat)>)
    requires userId != ""
    requires IsSnapshot(docs, chats, Subscription(chats, userId).value)
    ensures var r := SortChats(docs);
      && ChatOrdered(r)
      && (forall id :: id in Ids(r) <==> id in chats && userId in chats[id].participants)
      && (forall i :: 0 <= i < |r| ==> r[i].1 == chats[r[i].0])
      && DistinctIds(r)
  {
    var r := SortChats(docs);
    SortChatsOrdered(docs);
    IdsPermutation(docs, r);
    DistinctIdsPermutation(docs, r);
    forall i | 0 <= i < |r| ensures r[i].1 == chats[r[i].0] {
      assert r[i] in multiset(docs);
    }
  }

  /** Reordering a list keeps its set of ids. */
  lemma IdsPermutation(a: seq<(string, Chat)>, b: seq<(string, Chat)>)
    requires multiset(a) == multiset(b)
    ensures Ids(a) == Ids(b)
  {
    forall id | id in Ids(a) ensures id in Ids(b) {
      var i :| 0 <= i < |a| && a[i].0 == id;
      assert a[i] in multiset(b);
      var j :| 0 <= j < |b| && b[j] == a[i];
    }
    forall id | id in Ids(b) ensures id in Ids(a) {
      var j :| 0 <= j < |b| && b[j].0 == id;
      assert b[j] in multiset(a);
      var i :| 0 <= i < |a| && a[i] == b[j];
    }
  }

  /** Reordering a list with distinct ids keeps them distinct. */
  lemma DistinctIdsPermutation(a: seq<(string, Chat)>, b: seq<(string, Chat)>)
    requires DistinctIds(a) && multiset(a) == multiset(b)
    ensures DistinctIds(b)
  {
    forall i, j | 0 <= i < j < |b| ensures b[i].0 != b[j].0 {
      if b[i].0 == b[j].0 {
        assert b[i] in multiset(a) && b[j] in multiset(a);
        var p :| 0 <= p < |a| && a[p] == b[i];
        var q :| 0 <= q < |a| && a[q] == b[j];
        assert p == q;
        RepeatedTwice(b, i, j);
        DistinctOnce(a, b[i]);
      }
    }
  }

  lemma RepeatedTwice<T>(b: seq<T>, i: int, j: int)
    requires 0 <= i < j < |b| && b[i] == b[j]
    ensures multiset(b)[b[i]] >= 2
  {
    assert b == b[..i] + [b[i]] + b[i + 1..];
    assert multiset(b) == multiset(b[..i]) + multiset{b[i]} + multiset(b[i + 1..]);
    assert b[i + 1..][j - i - 1] == b[j];
  }

  /** An entry of a list with distinct ids occurs once in it. */
  lemma {:induction false} DistinctOnce(docs: seq<(string, Chat)>, e: (string, Chat))
    requires DistinctIds(docs)
    ensures multiset(docs)[e] <= 1
  {
    if docs != [] {
      assert docs == [docs[0]] + docs[1..];
      assert DistinctIds(docs[1..]) by {
        forall i, j | 0 <= i < j < |docs[1..]| ensures docs[1..][i].0 != docs[1..][j].0 {
          assert docs[1..][i] == docs[i + 1] && docs[1..][j] == docs[j + 1];
        }
      }
      DistinctOnce(docs[1..], e);
      if docs[0] == e {
        assert e !in docs[1..] by {
          forall k | 0 <= k < |docs[1..]| ensures docs[1..][k] != e {
            assert docs[1..][k] == docs[k + 1];
          }
        }
      }
    }
  }
}
