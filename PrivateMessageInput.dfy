/** src/components/PrivateMessageInput.js: the send guard, the message write,
    the chat's `lastMessage` update and the `message`/`sending` state around them. */
module PrivateMessageInput {
  import opened Wrappers
  import opened Strings
  import opened Store

  datatype SendResult = SendResult(ok: bool, state: DbState)

  /** The two writes of one send: `addDoc` of the message, then `updateDoc` of the
      chat. `addFails` and `updateFails` stand for the store refusing a write;
      the update also fails when the chat document does not exist, after the
      message has been written. Each write takes its own `serverTimestamp()`:
      `msgTime` for the message, `chatTime` for the chat's `lastMessageTime`. */
  function SendWrites(s: DbState, chatId: string, text: string, userId: string, userName: string, userImage: string,
                      msgTime: int, chatTime: int, addFails: bool, updateFails: bool): (r: SendResult)
    ensures r.ok <==> !addFails && !updateFails && chatId in s.chats
    ensures addFails ==> r.state == s
    ensures !addFails ==>
      (MessagesOf(r.state, chatId) == MessagesOf(s, chatId)[s.nextId := Message(text, userId, userName, userImage, msgTime)]
       && r.state.nextId == s.nextId + 1)
    ensures !addFails && WellFormed(s) ==> s.nextId !in MessagesOf(s, chatId)
    ensures forall c :: c != chatId ==> MessagesOf(r.state, c) == MessagesOf(s, c)
    ensures r.ok ==> r.state.chats == s.chats[chatId := s.chats[chatId].(lastMessage := Some(text), lastMessageTime := Some(chatTime))]
    ensures !r.ok ==> r.state.chats == s.chats
    ensures r.state.requests == s.requests && r.state.friends == s.friends && r.state.notifications == s.notifications
    ensures WellFormed(s) ==> WellFormed(r.state)
  {
    if addFails then SendResult(false, s)
    else
      var id := s.nextId;
      var s1 := s.(messages := s.messages[chatId := MessagesOf(s, chatId)[id := Message(text, userId, userName, userImage, msgTime)]],
                   nextId := id + 1);
      assert WellFormed(s) ==> id !in MessagesOf(s, chatId);
      if chatId in s.chats && !updateFails then
        SendResult(true, s1.(chats := s.chats[chatId := s.chats[chatId].(lastMessage := Some(text), lastMessageTime := Some(chatTime))]))
      else SendResult(false, s1)
  }

  /** The message the chat shows last is the one just stored, with the same trimmed
      text; the message carries the first write's time and the chat the second's. */
  lemma SentMessageIsLast(s: DbState, chatId: string, typed: string, userId: string, userName: string, userImage: string,
                          msgTime: int, chatTime: int)
    requires WellFormed(s)
    requires chatId in s.chats
    ensures var r := SendWrites(s, chatId, Trim(typed), userId, userName, userImage, msgTime, chatTime, false, false);
      && r.ok
      && (exists id :: id in MessagesOf(r.state, chatId) && id !in MessagesOf(s, chatId)
            && MessagesOf(r.state, chatId)[id].text == Trim(typed)
            && r.state.chats[chatId].lastMessage == Some(MessagesOf(r.state, chatId)[id].text)
            && MessagesOf(r.state, chatId)[id].timestamp == msgTime
            && r.state.chats[chatId].lastMessageTime == Some(chatTime))
  {
    var r := SendWrites(s, chatId, Trim(typed), userId, userName, userImage, msgTime, chatTime, false, false);
    assert s.nextId in MessagesOf(r.state, chatId);
  }

  /** One mounted input box. */
  class MessageInput {
    const chatId: string
    const currentUserId: string
    const currentUserName: string
    const currentUserImage: string
    var message: string
    var sending: bool

    constructor (chatId: string, currentUserId: string, currentUserName: string, currentUserImage: string)
      ensures this.chatId == chatId && this.currentUserId == currentUserId
      ensures this.currentUserName == currentUserName && this.currentUserImage == currentUserImage
      ensures message == "" && !sending
    {
      this.chatId := chatId;
      this.currentUserId := currentUserId;
      this.currentUserName := currentUserName;
      this.currentUserImage := currentUserImage;
      message := "";
      sending := false;
    }

    /** The `onChange` of the text field. */
    method Type(text: string)
      modifies this
      ensures message == text && sending == old(sending)
    {
      message := text;
    }

    /** The synchronous part of `handleSubmit`: nothing when the trimmed text is
        empty or a send is in flight, otherwise `setSending(true)`; `text` is the
        trimmed text the rest of the handler sends, captured at submit. */
    method Start() returns (started: bool, text: string)
      modifies this
      ensures started <==> Trim(old(message)) != [] && !old(sending)
      ensures text == Trim(old(message))
      ensures message == old(message)
      ensures sending == (old(sending) || started)
    {
      text := Trim(message);
      if text == [] || sending {
        return false, text;
      }
      sending := true;
      started := true;
    }

    /** The part after the awaits: the two writes; the text is cleared only on
        success and `sending` is reset in every case. The text sent is the one
        captured by `Start`, whatever the field holds now. */
    method Finish(db: Db, text: string, msgTime: int, chatTime: int, addFails: bool, updateFails: bool) returns (ok: bool)
      requires db.Valid() && sending
      modifies this, db
      ensures db.Valid()
      ensures SendResult(ok, db.State()) == SendWrites(old(db.State()), chatId, text,
                                                      currentUserId, currentUserName, currentUserImage, msgTime, chatTime, addFails, updateFails)
      ensures message == if ok then "" else old(message)
      ensures !sending
    {
      ok := false;
      if !addFails {
        var _ := db.AddMessage(chatId, Message(text, currentUserId, currentUserName, currentUserImage, msgTime));
        if !updateFails && chatId in db.chats {
          var c := db.chats[chatId];
          ok := db.UpdateChat(chatId, c.(lastMessage := Some(text), lastMessageTime := Some(chatTime)));
        }
      }
      if ok {
        message := "";
      }
      sending := false;
    }

    /** `handleSubmit` run to completion. */
    method HandleSubmit(db: Db, msgTime: int, chatTime: int, addFails: bool, updateFails: bool) returns (started: bool, ok: bool)
      requires db.Valid()
      modifies this, db
      ensures db.Valid()
      ensures started <==> Trim(old(message)) != [] && !old(sending)
      ensures !started ==> !ok && db.State() == old(db.State()) && message == old(message) && sending == old(sending)
      ensures started ==> SendResult(ok, db.State()) == SendWrites(old(db.State()), chatId, Trim(old(message)),
                                                                  currentUserId, currentUserName, currentUserImage, msgTime, chatTime, addFails, updateFails)
      ensures started ==> message == (if ok then "" else old(message)) && !sending
    {
      var text;
      started, text := Start();
      ok := false;
      if started {
        ok := Finish(db, text, msgTime, chatTime, addFails, updateFails);
      }
    }
  }

  /** A second submit while the first is in flight writes nothing. */
  method SubmitWhileSending(db: Db, typed: string)
    requires db.Valid()
    requires Trim(typed) != []
    modifies db
    ensures db.State() == old(db.State())
  {
    var input := new MessageInput("c", "u", "n", "i");
    input.Type(typed);
    var first, _ := input.Start();
    assert first;
    var second, ok := input.HandleSubmit(db, 0, 0, false, false);
    assert !second;
  }
}
