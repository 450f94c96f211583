/**
 * `ChatsService`: chats between users, their messages, per-participant
 * unread counters and the set of users currently typing. Attachment
 * deletions in storage are a log of object keys; new ids and the clock are
 * parameters. Socket events are left out.
 */
module Chats {
  import opened Common
  import opened Documents
  import opened Sorting
  import opened Grouping
  import StorageUrl

  datatype Chat = Chat(
    participants: seq<string>,
    isGroupChat: bool,
    groupName: Option<string>,
    groupAvatar: Option<string>,
    admins: seq<string>,
    typingUsers: seq<string>,
    /** Unread messages per participant id. */
    unreadCount: map<string, int>,
    lastMessageId: Option<string>,
    markerId: Option<string>)

  /** `CreateChatDto`. */
  datatype ChatRequest = ChatRequest(
    participants: seq<string>,
    isGroupChat: Option<bool>,
    groupName: Option<string>,
    groupAvatar: Option<string>,
    markerId: Option<string>)

  datatype Message = Message(
    chatId: string,
    senderId: string,
    receiverId: string,
    text: string,
    mediaUrls: seq<string>,
    replyToMessageId: Option<string>,
    isRead: bool,
    readAt: Option<int>,
    isDeleted: bool,
    /** The storage URLs of the attached files. */
    attachments: seq<string>,
    createdAt: int)

  /** `CreateMessageDto`, with whatever attachments the request body carries. */
  datatype MessageRequest = MessageRequest(
    chatId: string,
    text: Option<string>,
    mediaUrls: Option<seq<string>>,
    replyToMessageId: Option<string>,
    attachments: seq<string>)

  // ---------------------------------------------------------------------------
  // Sets kept as lists
  // ---------------------------------------------------------------------------

  /** `$addToSet` (and the `includes`/`push` of `createChat`): appended when absent. */
  function AddToSet(s: seq<string>, x: string): (r: seq<string>)
    ensures x in r
    ensures forall y :: y in r <==> y in s || y == x
    ensures x in s ==> r == s
    ensures x !in s ==> r == s + [x]
  {
    if x in s then s else s + [x]
  }

  /** `$pull`: every occurrence removed, the rest kept in order. */
  function Pull(s: seq<string>, x: string): (r: seq<string>)
    ensures x !in r
    ensures forall y :: y != x ==> (y in r <==> y in s)
    ensures |r| <= |s|
    ensures x !in s ==> r == s
  {
    if s == [] then []
    else if s[0] == x then Pull(s[1..], x)
    else
      assert s == [s[0]] + s[1..];
      [s[0]] + Pull(s[1..], x)
  }

  /** Adding and then removing a user who was not typing leaves the list as it was. */
  lemma {:induction false} PullUndoesAdd(s: seq<string>, x: string)
    requires x !in s
    ensures Pull(AddToSet(s, x), x) == s
  {
    PullAppend(s, x);
  }

  lemma {:induction false} PullAppend(s: seq<string>, x: string)
    requires x !in s
    ensures Pull(s + [x], x) == s
  {
    if s == [] {
      assert [] + [x] == [x];
      assert [x][1..] == [];
    } else {
      PullAppend(s[1..], x);
      assert (s + [x])[1..] == s[1..] + [x];
      assert s == [s[0]] + s[1..];
    }
  }

  // ---------------------------------------------------------------------------
  // Chat creation
  // ---------------------------------------------------------------------------

  /**
   * The query of `findExistingChat`: not a group chat, holding every
   * requested participant, with as many participants as requested.
   */
  predicate SameMembers(c: Chat, participants: seq<string>) {
    && !c.isGroupChat
    && (forall p :: p in participants ==> p in c.participants)
    && |c.participants| == |participants|
  }

  /** `findExistingChat`: the first chat matching the query. */
  function FindExistingChat(s: seq<Doc<Chat>>, participants: seq<string>): (r: Option<Doc<Chat>>)
    ensures r.Some? ==> r.value in s && SameMembers(r.value.body, participants)
    ensures r.None? <==> forall d :: d in s ==> !SameMembers(d.body, participants)
  {
    if s == [] then None
    else if SameMembers(s[0].body, participants) then Some(s[0])
    else FindExistingChat(s[1..], participants)
  }

  /** The `reduce` of `createChat`: a zero counter for every participant. */
  function ZeroCounts(participants: seq<string>): (m: map<string, int>)
    ensures forall p :: p in m <==> p in participants
    ensures forall p :: p in m ==> m[p] == 0
  {
    map p | p in participants :: 0
  }

  /** The chat `createChat` saves. */
  function NewChat(request: ChatRequest, participants: seq<string>, userId: string): (c: Chat)
    ensures c.participants == participants && c.isGroupChat == (request.isGroupChat == Some(true))
    ensures c.admins == (if c.isGroupChat then [userId] else [])
    ensures forall p :: p in c.unreadCount <==> p in participants
    ensures forall p :: p in c.unreadCount ==> c.unreadCount[p] == 0
    ensures c.typingUsers == [] && c.lastMessageId == None
  {
    var group := request.isGroupChat == Some(true);
    Chat(participants, group, request.groupName, request.groupAvatar, if group then [userId] else [], [],
      ZeroCounts(participants), None, request.markerId)
  }

  // ---------------------------------------------------------------------------
  // Messages
  // ---------------------------------------------------------------------------

  /** `participants.find(id => id !== userId) || ''`. */
  function Receiver(participants: seq<string>, userId: string): (r: string)
    ensures (forall p :: p in participants ==> p == userId) ==> r == ""
    ensures (exists p :: p in participants && p != userId) ==> r != userId && r in participants
    ensures r != "" ==> r in participants && r != userId
  {
    if participants == [] then ""
    else if participants[0] != userId then
      assert participants[0] in participants;
      participants[0]
    else
      assert forall p :: p in participants ==> p == participants[0] || p in participants[1..];
      assert forall p :: p in participants[1..] ==> p in participants;
      Receiver(participants[1..], userId)
  }

  /** `$inc` of one counter: an absent counter counts from 0. */
  function Incremented(m: map<string, int>, k: string): (r: map<string, int>)
    ensures k in r && r[k] == (if k in m then m[k] else 0) + 1
    ensures forall j :: j != k ==> (j in r <==> j in m) && (j in m ==> r[j] == m[j])
  {
    m[k := (if k in m then m[k] else 0) + 1]
  }

  /** The message `addMessage` saves. */
  function NewMessage(request: MessageRequest, senderId: string, receiverId: string, now: int): Message {
    Message(request.chatId, senderId, receiverId, OrEmpty(request.text),
      if request.mediaUrls.Some? then request.mediaUrls.value else [],
      request.replyToMessageId, false, None, false, request.attachments, now)
  }

  /** The message schema's required strings; the store refuses to save a message with an empty one. */
  predicate SaveRejects(m: Message) {
    m.chatId == "" || m.senderId == "" || m.receiverId == ""
  }

  /** The chat after a message: the receiver has one more unread message and the message is the last one. */
  function Delivered(c: Chat, messageId: string, receiverId: string): (r: Chat)
    ensures r.lastMessageId == Some(messageId)
    ensures receiverId in r.unreadCount
    ensures r.unreadCount[receiverId] == (if receiverId in c.unreadCount then c.unreadCount[receiverId] else 0) + 1
    ensures forall j :: j != receiverId ==>
      ((j in r.unreadCount <==> j in c.unreadCount) && (j in c.unreadCount ==> r.unreadCount[j] == c.unreadCount[j]))
    ensures r.participants == c.participants && r.typingUsers == c.typingUsers && r.admins == c.admins
  {
    c.(lastMessageId := Some(messageId), unreadCount := Incremented(c.unreadCount, receiverId))
  }

  function ChatOf(m: Message): string {
    m.chatId
  }

  predicate NewerFirst(a: Message, b: Message) {
    a.createdAt >= b.createdAt
  }

  /** The storage keys of a message's attachments, in order. */
  function AttachmentKeys(attachments: seq<string>): (keys: seq<string>)
    ensures |keys| == |attachments|
    ensures forall i :: 0 <= i < |attachments| ==> keys[i] == StorageUrl.ExtractKeyFromUrl(attachments[i])
  {
    seq(|attachments|, i requires 0 <= i < |attachments| => StorageUrl.ExtractKeyFromUrl(attachments[i]))
  }

  // ---------------------------------------------------------------------------
  // The collections
  // ---------------------------------------------------------------------------

  /** Every message belongs to a stored chat. */
  predicate Linked(messages: seq<Doc<Message>>, chats: seq<Doc<Chat>>) {
    forall i :: 0 <= i < |messages| ==> HasId(chats, messages[i].body.chatId)
  }

  predicate AllObjectIds<T>(s: seq<Doc<T>>) {
    forall i :: 0 <= i < |s| ==> IsObjectId(s[i].id)
  }

  lemma SameIdsKeepLinks(messages: seq<Doc<Message>>, chats: seq<Doc<Chat>>, chats': seq<Doc<Chat>>)
    requires Linked(messages, chats) && |chats'| == |chats|
    requires forall i :: 0 <= i < |chats| ==> chats'[i].id == chats[i].id
    ensures Linked(messages, chats')
  {
    forall i | 0 <= i < |messages| ensures HasId(chats', messages[i].body.chatId) {
      var k :| 0 <= k < |chats| && chats[k].id == messages[i].body.chatId;
      assert chats'[k].id == chats[k].id;
    }
  }

  /** A new message for a stored chat, appended after the chat is updated in place, keeps every message linked. */
  lemma AppendKeepsLinks(messages: seq<Doc<Message>>, chats: seq<Doc<Chat>>, chatId: string, c: Chat, m: Doc<Message>)
    requires Linked(messages, chats) && HasId(chats, chatId) && m.body.chatId == chatId
    ensures Linked(messages + [m], SetBody(chats, chatId, c))
  {
    var chats' := SetBody(chats, chatId, c);
    SameIdsKeepLinks(messages, chats, chats');
    forall k | 0 <= k < |messages + [m]| ensures HasId(chats', (messages + [m])[k].body.chatId) {
      if k < |messages| {
        assert (messages + [m])[k] == messages[k];
      } else {
        var j :| 0 <= j < |chats| && chats[j].id == chatId;
        assert chats'[j].id == chats[j].id;
      }
    }
  }

  lemma SetBodyKeepsLinks(messages: seq<Doc<Message>>, id: string, body: Message, chats: seq<Doc<Chat>>)
    requires UniqueIds(messages) && Linked(messages, chats) && HasId(chats, body.chatId)
    ensures Linked(SetBody(messages, id, body), chats)
  {
    var r := SetBody(messages, id, body);
    forall i | 0 <= i < |r| ensures HasId(chats, r[i].body.chatId) {
      if messages[i].id != id {
        assert r[i] == messages[i];
      } else if HasId(messages, id) {
        var j :| 0 <= j < |r| && r[j].id == id && r[j].body == body;
        assert r[j].id == messages[j].id;
        assert i == j;
      }
    }
  }

  class ChatStore {
    var chats: seq<Doc<Chat>>
    var messages: seq<Doc<Message>>
    /** Every storage object key deleted, oldest first. */
    var deletedFiles: seq<string>

    ghost predicate Valid()
      reads this
    {
      && UniqueIds(chats) && AllObjectIds(chats)
      && UniqueIds(messages) && AllObjectIds(messages)
      && Linked(messages, chats)
    }

    constructor()
      ensures Valid() && chats == [] && messages == [] && deletedFiles == []
    {
      chats := [];
      messages := [];
      deletedFiles := [];
    }

    /** `getChat` (and the lookup of `addMessage`): a malformed id fails the cast; an unknown one is NotFound. */
    function GetChat(chatId: string): (r: Outcome<Chat>)
      reads this
      ensures !IsObjectId(chatId) ==> r == Err(InvalidId)
      ensures IsObjectId(chatId) ==> (r.Ok? <==> HasId(chats, chatId))
      ensures IsObjectId(chatId) && !HasId(chats, chatId) ==> r == Err(NotFound)
      ensures r.Ok? ==> Get(chats, chatId) == Some(r.value)
    {
      if !IsObjectId(chatId) then Err(InvalidId)
      else match Get(chats, chatId)
        case None => Err(NotFound)
        case Some(c) => Ok(c)
    }

    /** The message lookup of `markMessageAsRead` and `deleteMessage`. */
    function GetMessage(messageId: string): (r: Outcome<Message>)
      reads this
      ensures !IsObjectId(messageId) ==> r == Err(InvalidId)
      ensures IsObjectId(messageId) ==> (r.Ok? <==> HasId(messages, messageId))
      ensures IsObjectId(messageId) && !HasId(messages, messageId) ==> r == Err(NotFound)
      ensures r.Ok? ==> Get(messages, messageId) == Some(r.value)
    {
      if !IsObjectId(messageId) then Err(InvalidId)
      else match Get(messages, messageId)
        case None => Err(NotFound)
        case Some(m) => Ok(m)
    }

    /** `getMessages`: the chat's messages, newest first. */
    function GetMessages(chatId: string): (r: seq<Message>)
      reads this
      ensures forall m :: m in r <==> m in Bodies(messages) && m.chatId == chatId
      ensures multiset(r) == multiset(WithKey(Bodies(messages), ChatOf, chatId))
      ensures Sorted(r, NewerFirst)
    {
      assert TotalPreorder(NewerFirst);
      var inChat := WithKey(Bodies(messages), ChatOf, chatId);
      var r := SortBy(inChat, NewerFirst);
      forall m ensures m in r <==> m in inChat {
        SortedMembers(inChat, NewerFirst, m);
      }
      r
    }

    /**
     * `createChat`: the creator joins the participants if absent. A
     * non-group chat with the same participants is returned as it is (even
     * for a group request); otherwise a new chat is saved.
     */
    method CreateChat(userId: string, request: ChatRequest, newId: string) returns (r: Doc<Chat>)
      requires Valid() && IsObjectId(newId) && !HasId(chats, newId)
      modifies this
      ensures Valid() && messages == old(messages) && deletedFiles == old(deletedFiles)
      ensures userId in r.body.participants
      ensures var participants := AddToSet(request.participants, userId);
        var existing := FindExistingChat(old(chats), participants);
        && (existing.Some? ==> r == existing.value && chats == old(chats))
        && (existing.None? ==> r == Doc(newId, NewChat(request, participants, userId)) && chats == old(chats) + [r])
    {
      var participants := AddToSet(request.participants, userId);
      var existing := FindExistingChat(chats, participants);
      if existing.Some? {
        return existing.value;
      }
      r := Doc(newId, NewChat(request, participants, userId));
      forall k | 0 <= k < |messages| ensures HasId(chats + [r], messages[k].body.chatId) {
        var j :| 0 <= j < |chats| && chats[j].id == messages[k].body.chatId;
        assert (chats + [r])[j] == chats[j];
      }
      chats := chats + [r];
    }

    /**
     * `addMessage`: the chat must exist and the sender take part in it. The
     * receiver is the first other participant (or ''). Saving fails when a
     * required string of the message is empty (a chat whose only participant
     * is the sender), and then nothing changes. Otherwise the message is
     * saved, the receiver's unread count goes up by one and the chat's last
     * message is the new one.
     */
    method AddMessage(userId: string, request: MessageRequest, newId: string, now: int) returns (r: Outcome<Doc<Message>>)
      requires Valid() && IsObjectId(newId) && !HasId(messages, newId)
      modifies this
      ensures Valid() && deletedFiles == old(deletedFiles)
      ensures old(GetChat(request.chatId)).Err? ==> r == Err(old(GetChat(request.chatId)).error) && unchanged(this)
      ensures old(GetChat(request.chatId)).Ok? && userId !in old(GetChat(request.chatId)).value.participants ==>
        r == Err(Unauthorized) && unchanged(this)
      ensures old(GetChat(request.chatId)).Ok? && userId in old(GetChat(request.chatId)).value.participants ==>
        var c := old(GetChat(request.chatId)).value;
        var receiverId := Receiver(c.participants, userId);
        SaveRejects(NewMessage(request, userId, receiverId, now)) ==> r == Err(Failure) && unchanged(this)
      ensures old(GetChat(request.chatId)).Ok? && userId in old(GetChat(request.chatId)).value.participants ==>
        var c := old(GetChat(request.chatId)).value;
        var receiverId := Receiver(c.participants, userId);
        !SaveRejects(NewMessage(request, userId, receiverId, now)) ==>
        && r == Ok(Doc(newId, NewMessage(request, userId, receiverId, now)))
        && messages == old(messages) + [r.value]
        && chats == SetBody(old(chats), request.chatId, Delivered(c, newId, receiverId))
    {
      var found := GetChat(request.chatId);
      if found.Err? {
        return Err(found.error);
      }
      var c := found.value;
      if userId !in c.participants {
        return Err(Unauthorized);
      }
      var receiverId := Receiver(c.participants, userId);
      var m := Doc(newId, NewMessage(request, userId, receiverId, now));
      if SaveRejects(m.body) {
        return Err(Failure);
      }
      var chats' := SetBody(chats, request.chatId, Delivered(c, newId, receiverId));
      AppendKeepsLinks(messages, chats, request.chatId, Delivered(c, newId, receiverId), m);
      messages := messages + [m];
      chats := chats';
      r := Ok(m);
    }

    /**
     * `markMessageAsRead`: the message must exist; it is marked read at
     * `now`, and the reader's unread count in its chat drops to 0.
     */
    method MarkMessageAsRead(userId: string, messageId: string, now: int) returns (r: Outcome<()>)
      requires Valid()
      modifies this
      ensures Valid() && deletedFiles == old(deletedFiles)
      ensures old(GetMessage(messageId)).Err? ==> r == Err(old(GetMessage(messageId)).error) && unchanged(this)
      ensures old(GetMessage(messageId)).Ok? ==>
        var m := old(GetMessage(messageId)).value;
        var c := Get(old(chats), m.chatId).value;
        && r == Ok(())
        && messages == SetBody(old(messages), messageId, m.(isRead := true, readAt := Some(now)))
        && chats == SetBody(old(chats), m.chatId, c.(unreadCount := c.unreadCount[userId := 0]))
    {
      var found := GetMessage(messageId);
      if found.Err? {
        return Err(found.error);
      }
      var m := found.value;
      assert HasId(chats, m.chatId) by {
        var i :| 0 <= i < |messages| && messages[i].id == messageId && messages[i].body == m;
      }
      var c := Get(chats, m.chatId).value;
      SetBodyKeepsLinks(messages, messageId, m.(isRead := true, readAt := Some(now)), chats);
      messages := SetBody(messages, messageId, m.(isRead := true, readAt := Some(now)));
      var chats' := SetBody(chats, m.chatId, c.(unreadCount := c.unreadCount[userId := 0]));
      SameIdsKeepLinks(messages, chats, chats');
      chats := chats';
      r := Ok(());
    }

    /**
     * `updateTypingStatus`: adds the user to, or pulls the user from, the
     * chat's typing users; an unknown chat is left alone without an error.
     */
    method UpdateTypingStatus(chatId: string, userId: string, isTyping: bool) returns (r: Outcome<()>)
      requires Valid()
      modifies this
      ensures Valid() && messages == old(messages) && deletedFiles == old(deletedFiles)
      ensures !IsObjectId(chatId) ==> r == Err(InvalidId) && chats == old(chats)
      ensures IsObjectId(chatId) && !HasId(old(chats), chatId) ==> r == Ok(()) && chats == old(chats)
      ensures IsObjectId(chatId) && HasId(old(chats), chatId) ==>
        var c := Get(old(chats), chatId).value;
        && r == Ok(())
        && chats == SetBody(old(chats), chatId,
                            c.(typingUsers := if isTyping then AddToSet(c.typingUsers, userId) else Pull(c.typingUsers, userId)))
    {
      if !IsObjectId(chatId) {
        return Err(InvalidId);
      }
      var found := Get(chats, chatId);
      if found.None? {
        return Ok(());
      }
      var c := found.value;
      var typing := if isTyping then AddToSet(c.typingUsers, userId) else Pull(c.typingUsers, userId);
      var chats' := SetBody(chats, chatId, c.(typingUsers := typing));
      SameIdsKeepLinks(messages, chats, chats');
      chats := chats';
      r := Ok(());
    }

    /**
     * `deleteMessage`: the message must exist and the caller be its sender.
     * Its attachments are deleted from storage and the message is only
     * flagged as deleted; it stays in the collection.
     */
    method DeleteMessage(userId: string, messageId: string) returns (r: Outcome<()>)
      requires Valid()
      modifies this
      ensures Valid() && chats == old(chats)
      ensures old(GetMessage(messageId)).Err? ==> r == Err(old(GetMessage(messageId)).error) && unchanged(this)
      ensures old(GetMessage(messageId)).Ok? && old(GetMessage(messageId)).value.senderId != userId ==>
        r == Err(Unauthorized) && unchanged(this)
      ensures old(GetMessage(messageId)).Ok? && old(GetMessage(messageId)).value.senderId == userId ==>
        var m := old(GetMessage(messageId)).value;
        && r == Ok(())
        && |messages| == |old(messages)|
        && messages == SetBody(old(messages), messageId, m.(isDeleted := true))
        && deletedFiles == old(deletedFiles) + AttachmentKeys(m.attachments)
    {
      var found := GetMessage(messageId);
      if found.Err? {
        return Err(found.error);
      }
      var m := found.value;
      if m.senderId != userId {
        return Err(Unauthorized);
      }
      assert HasId(chats, m.chatId) by {
        var i :| 0 <= i < |messages| && messages[i].id == messageId && messages[i].body == m;
      }
      deletedFiles := deletedFiles + AttachmentKeys(m.attachments);
      SetBodyKeepsLinks(messages, messageId, m.(isDeleted := true), chats);
      messages := SetBody(messages, messageId, m.(isDeleted := true));
      r := Ok(());
    }
  }

  /** Typing twice is typing once, and stopping twice is stopping once. */
  lemma TypingIdempotent(c: Chat, userId: string)
    ensures AddToSet(AddToSet(c.typingUsers, userId), userId) == AddToSet(c.typingUsers, userId)
    ensures Pull(Pull(c.typingUsers, userId), userId) == Pull(c.typingUsers, userId)
  {
  }
}
