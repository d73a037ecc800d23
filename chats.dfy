/**
 * Messaging (controller/user.js): single chats between two users, chat
 * rooms with an admin, and the unread counter and chat lists each user
 * keeps in `messages`.
 *
 * Every lookup is a parameter that is `null` when nothing was found. A
 * room's members are user ids. `users` is the directory the
 * `messageChatroom` loop looks its members up in; `newId` is the id the
 * database gives a new chat or room.
 */
module Chats {
  import opened Seqs
  import opened Model

  /**
   * A new message in a room, seen from one member: the unread counter
   * rises by one and the room's id stands first in the member's rooms,
   * exactly once, the other rooms kept as they were.
   */
  function RoomMessaged(m: Messages, chatId: Id): (r: Messages)
    ensures r.count == m.count + 1 && r.singleChats == m.singleChats
    ensures |r.chatrooms| > 0 && r.chatrooms[0] == chatId && chatId !in r.chatrooms[1..]
    ensures forall y :: y != chatId ==> Occurrences(r.chatrooms, y) == Occurrences(m.chatrooms, y)
  {
    var rooms := MoveToFront(m.chatrooms, chatId);
    assert rooms[1..] == Pull(m.chatrooms, chatId);
    assert forall y :: y != chatId ==> Occurrences(rooms, y) == Occurrences(m.chatrooms, y) by {
      forall y | y != chatId ensures Occurrences(rooms, y) == Occurrences(m.chatrooms, y) {
        PullKeepsOthers(m.chatrooms, chatId, y);
      }
    }
    Messages(m.count + 1, m.singleChats, rooms)
  }

  /** Two messages in the same room leave the member's rooms as one does; only the counter differs. */
  lemma RoomMessagedTwice(m: Messages, chatId: Id)
    ensures RoomMessaged(RoomMessaged(m, chatId), chatId) ==
      RoomMessaged(m, chatId).(count := m.count + 2)
  {
    MoveToFrontIdempotent(m.chatrooms, chatId);
  }

  /**
   * `sendMessage`. `existing` is the single chat both users are in, if
   * any: the message joins it. Otherwise a new chat with the two of them
   * and this first message goes to the front of both users' single chats.
   * Either way only the recipient's unread counter rises.
   */
  method SendMessage(user: User?, friend: User?, existing: Chat?, userId: Id, friendId: Id, message: string, newId: Id)
    returns (r: Outcome, chat: Chat?)
    requires user != null ==> user.id == userId
    requires friend != null ==> friend.id == friendId
    requires user != null && friend != null ==> user != friend
    requires existing != null ==> userId in existing.users && friendId in existing.users
    modifies user, friend, existing
    ensures user == null || friend == null ==> r == Fail(Abort("No user found"))
    ensures user != null && friend != null ==> r == Ok
    ensures r.Fail? ==>
      chat == null && OnlyChanged(user, {}) && OnlyChanged(friend, {}) && (existing == null || unchanged(existing))
    ensures r.Ok? ==> user != null && friend != null && chat != null
    ensures r.Ok? && existing != null ==>
      chat == existing && existing.users == old(existing.users) &&
      existing.messages == old(existing.messages) + [ChatMessage(userId, message)] &&
      user.messages == old(user.messages) &&
      friend.messages == old(friend.messages).(count := old(friend.messages.count) + 1)
    ensures r.Ok? && existing == null ==>
      fresh(chat) && chat.id == newId && chat.users == [friendId, userId] &&
      chat.messages == [ChatMessage(userId, message)] &&
      user.messages == old(user.messages).(singleChats := [newId] + old(user.messages.singleChats)) &&
      friend.messages == Messages(old(friend.messages.count) + 1, [newId] + old(friend.messages.singleChats),
        old(friend.messages.chatrooms))
    ensures OnlyChanged(user, {MessagesPart}) && OnlyChanged(friend, {MessagesPart})
  {
    chat := null;
    if user == null || friend == null {
      r := Fail(Abort("No user found"));
      return;
    }
    if existing != null {
      existing.messages := existing.messages + [ChatMessage(userId, message)];
      friend.messages := friend.messages.(count := friend.messages.count + 1);
      chat := existing;
    } else {
      chat := new Chat(newId, [friendId, userId]);
      chat.messages := [ChatMessage(userId, message)];
      user.messages := user.messages.(singleChats := [newId] + user.messages.singleChats);
      friend.messages := friend.messages.(singleChats := [newId] + friend.messages.singleChats);
      friend.messages := friend.messages.(count := friend.messages.count + 1);
    }
    r := Ok;
  }

  /**
   * `messageChatroom`. Both of its checks hand an undefined variable to the
   * error helper, so a missing room or a sender outside the room ends in a
   * ReferenceError. Otherwise every member but the sender, as found in the
   * directory, gets `RoomMessaged`, and the message joins the room.
   */
  method MessageChatroom(chat: ChatRoom?, users: map<Id, User>, userId: Id, message: string) returns (r: Outcome)
    requires Directory(users)
    requires chat != null ==> chat.Valid()
    modifies chat, set k | k in users :: users[k]
    ensures chat == null || userId !in old(chat.users) ==> r == Fail(Crash)
    ensures chat != null && userId in old(chat.users) ==> r == Ok
    ensures r.Fail? ==> (chat == null || unchanged(chat)) && forall k :: k in users ==> unchanged(users[k])
    ensures r.Ok? ==>
      chat != null && userId in chat.users && chat.users == old(chat.users) &&
      chat.messages == old(chat.messages) + [ChatMessage(userId, message)]
    ensures r.Ok? ==> forall k :: k in users ==>
      users[k].messages ==
        (if k in chat.users && k != userId then RoomMessaged(old(users[k].messages), chat.id) else old(users[k].messages))
    ensures forall k :: k in users ==> OnlyChanged(users[k], {MessagesPart})
  {
    if chat == null || userId !in chat.users {
      return Fail(Crash);
    }
    NotifyMembers(chat.users, users, userId, chat.id);
    chat.messages := chat.messages + [ChatMessage(userId, message)];
    r := Ok;
  }

  /** The loop of `messageChatroom` over the room's members, each looked up in the directory. */
  method NotifyMembers(members: seq<Id>, users: map<Id, User>, userId: Id, chatId: Id)
    requires Directory(users) && NoDup(members)
    modifies set k | k in users :: users[k]
    ensures forall k :: k in users ==>
      users[k].messages ==
        (if k in members && k != userId then RoomMessaged(old(users[k].messages), chatId) else old(users[k].messages))
    ensures forall k :: k in users ==> OnlyChanged(users[k], {MessagesPart})
  {
    var i := 0;
    while i < |members|
      invariant 0 <= i <= |members|
      invariant forall k :: k in users ==>
        users[k].messages ==
          (if k in members[..i] && k != userId then RoomMessaged(old(users[k].messages), chatId)
           else old(users[k].messages))
      invariant forall k :: k in users ==> OnlyChanged(users[k], {MessagesPart})
    {
      var member := members[i];
      assert member !in members[..i];
      assert members[..i + 1] == members[..i] + [member];
      if member in users && member != userId {
        NotifyMember(users[member], chatId);
      }
      i := i + 1;
    }
    assert members[..i] == members;
  }

  /** One member's side of a room message. */
  method NotifyMember(u: User, chatId: Id)
    modifies u
    ensures u.messages == RoomMessaged(old(u.messages), chatId)
    ensures OnlyChanged(u, {MessagesPart})
  {
    u.messages := RoomMessaged(u.messages, chatId);
  }

  /** `clearFriendRequestCount`: the pending-request counter goes to 0. */
  method ClearFriendRequestCount(user: User?) returns (r: Outcome)
    modifies user
    ensures user == null ==> r == Fail(Abort("user not found"))
    ensures user != null ==> r == Ok && user.requests == old(user.requests).(count := 0)
    ensures OnlyChanged(user, {RequestsPart})
  {
    if user == null {
      return Fail(Abort("user not found"));
    }
    user.requests := user.requests.(count := 0);
    r := Ok;
  }

  /** The authorization of `getSingleChat`: only a member of the chat may read it. */
  function GetSingleChat(chat: Chat?, userId: Id): (r: Result<Chat>)
    reads chat
    ensures chat == null ==> r == Failure(Abort("no chat found"))
    ensures chat != null && userId !in chat.users ==> r == Failure(Abort("not authorized"))
    ensures r.Success? <==> chat != null && userId in chat.users
    ensures r.Success? ==> r.value == chat
  {
    if chat == null then Failure(Abort("no chat found"))
    else if userId !in chat.users then Failure(Abort("not authorized"))
    else Success(chat)
  }

  /**
   * `addFriendToChatroom`: only the admin may add, only one of the admin's
   * friends, and only one who is not yet a member. The friend joins the
   * end of the members and gets the room at the front of their rooms, with
   * one more unread message.
   */
  method AddFriendToChatroom(chat: ChatRoom?, user: User?, friend: User?, userId: Id, chatId: Id, friendId: Id)
    returns (r: Outcome)
    requires chat != null ==> chat.id == chatId
    requires user != null ==> user.id == userId
    requires friend != null ==> friend.id == friendId
    modifies chat, friend
    ensures chat == null ==> r == Fail(Abort("chat room does not exist"))
    ensures chat != null && chat.admin != userId ==> r == Fail(Abort("only admin can add new members"))
    ensures chat != null && chat.admin == userId && user == null ==> r == Fail(Abort("No user found"))
    ensures chat != null && chat.admin == userId && user != null && friendId !in old(user.friends) ==>
      r == Fail(Abort("friend not found"))
    ensures (chat != null && chat.admin == userId && user != null && friendId in old(user.friends) &&
             friendId in old(chat.users)) ==>
      r == Fail(Abort("this user is already in the chatroom"))
    ensures (chat != null && chat.admin == userId && user != null && friendId in old(user.friends) &&
             friendId !in old(chat.users) && friend == null) ==>
      r == Fail(Abort("No user found"))
    ensures (chat != null && chat.admin == userId && user != null && friendId in old(user.friends) &&
             friendId !in old(chat.users) && friend != null) ==> r == Ok
    ensures r.Fail? ==> (chat == null || unchanged(chat)) && OnlyChanged(friend, {})
    ensures r.Ok? ==>
      chat != null && user != null && friend != null && chat.admin == userId &&
      friendId in old(user.friends) && friendId !in old(chat.users) &&
      chat.users == old(chat.users) + [friendId] &&
      friend.messages ==
        Messages(old(friend.messages.count) + 1, old(friend.messages.singleChats), [chatId] + old(friend.messages.chatrooms))
    ensures chat != null ==> chat.messages == old(chat.messages)
    ensures chat != null && old(chat.Valid()) ==> chat.Valid()
    ensures OnlyChanged(friend, {MessagesPart})
  {
    if chat == null {
      return Fail(Abort("chat room does not exist"));
    }
    if chat.admin != userId {
      return Fail(Abort("only admin can add new members"));
    }
    if user == null {
      return Fail(Abort("No user found"));
    }
    if friendId !in user.friends {
      return Fail(Abort("friend not found"));
    }
    if friendId in chat.users {
      return Fail(Abort("this user is already in the chatroom"));
    }
    if friend == null {
      return Fail(Abort("No user found"));
    }
    if NoDup(chat.users) {
      SnocNoDup(chat.users, friendId);
    }
    chat.users := chat.users + [friendId];
    friend.messages := Messages(friend.messages.count + 1, friend.messages.singleChats, [chatId] + friend.messages.chatrooms);
    r := Ok;
  }

  /**
   * `removeFriendFromChatroom`: a missing room crashes on its first field
   * read; then only the admin may remove, only a friend, only a member.
   * The friend leaves the members and the room leaves the friend's rooms.
   */
  method RemoveFriendFromChatroom(chat: ChatRoom?, user: User?, friend: User?, userId: Id, chatId: Id, friendId: Id)
    returns (r: Outcome)
    requires chat != null ==> chat.id == chatId
    requires user != null ==> user.id == userId
    requires friend != null ==> friend.id == friendId
    modifies chat, friend
    ensures chat == null ==> r == Fail(Crash)
    ensures chat != null && chat.admin != userId ==> r == Fail(Abort("only admin can remove members"))
    ensures chat != null && chat.admin == userId && user == null ==> r == Fail(Abort("No user found"))
    ensures chat != null && chat.admin == userId && user != null && friendId !in old(user.friends) ==>
      r == Fail(Abort("friend not found"))
    ensures (chat != null && chat.admin == userId && user != null && friendId in old(user.friends) &&
             friendId !in old(chat.users)) ==>
      r == Fail(Abort("user not currently in chat"))
    ensures (chat != null && chat.admin == userId && user != null && friendId in old(user.friends) &&
             friendId in old(chat.users) && friend == null) ==>
      r == Fail(Abort("No user found"))
    ensures (chat != null && chat.admin == userId && user != null && friendId in old(user.friends) &&
             friendId in old(chat.users) && friend != null) ==> r == Ok
    ensures r.Fail? ==> (chat == null || unchanged(chat)) && OnlyChanged(friend, {})
    ensures r.Ok? ==>
      chat != null && user != null && friend != null && chat.admin == userId &&
      friendId in old(user.friends) && friendId in old(chat.users) &&
      chat.users == Pull(old(chat.users), friendId) && friendId !in chat.users &&
      friend.messages == old(friend.messages).(chatrooms := Pull(old(friend.messages.chatrooms), chatId))
    ensures chat != null ==> chat.messages == old(chat.messages)
    ensures chat != null && old(chat.Valid()) ==> chat.Valid()
    ensures OnlyChanged(friend, {MessagesPart})
  {
    if chat == null {
      return Fail(Crash);
    }
    if chat.admin != userId {
      return Fail(Abort("only admin can remove members"));
    }
    if user == null {
      return Fail(Abort("No user found"));
    }
    if friendId !in user.friends {
      return Fail(Abort("friend not found"));
    }
    if friendId !in chat.users {
      return Fail(Abort("user not currently in chat"));
    }
    if friend == null {
      return Fail(Abort("No user found"));
    }
    PullKeepsNoDupIf(chat.users, friendId);
    chat.users := Pull(chat.users, friendId);
    friend.messages := friend.messages.(chatrooms := Pull(friend.messages.chatrooms, chatId));
    r := Ok;
  }

  /** Removing the friend just added gives back the room's members and the friend's rooms. */
  lemma RemoveUndoesAdd(members: seq<Id>, rooms: seq<Id>, friendId: Id, chatId: Id)
    requires friendId !in members && chatId !in rooms
    ensures Pull(members + [friendId], friendId) == members
    ensures Pull([chatId] + rooms, chatId) == rooms
  {
    PullAfterPush(members, friendId);
    PullAfterUnshift(rooms, chatId);
  }

  /**
   * `leaveChatroom`: a member leaves the room and the room leaves the
   * member's rooms; a room left with no member is deleted. A missing room
   * crashes on its first field read.
   */
  method LeaveChatroom(user: User?, chat: ChatRoom?, userId: Id, chatId: Id) returns (r: Outcome, deleted: bool)
    requires user != null ==> user.id == userId
    requires chat != null ==> chat.id == chatId
    modifies user, chat
    ensures user == null ==> r == Fail(Abort("No user found"))
    ensures user != null && chat == null ==> r == Fail(Crash)
    ensures user != null && chat != null && userId !in old(chat.users) ==> r == Fail(Abort("not authorized"))
    ensures user != null && chat != null && userId in old(chat.users) ==> r == Ok
    ensures r.Fail? ==> !deleted && OnlyChanged(user, {}) && (chat == null || unchanged(chat))
    ensures r.Ok? ==>
      user != null && chat != null && userId in old(chat.users) &&
      chat.users == Pull(old(chat.users), userId) && userId !in chat.users &&
      user.messages == old(user.messages).(chatrooms := Pull(old(user.messages.chatrooms), chatId)) &&
      (deleted <==> chat.users == [])
    ensures r.Ok? && old(chat.Valid()) ==> chat.Valid() && (deleted <==> old(chat.users) == [userId])
    ensures chat != null ==> chat.messages == old(chat.messages)
    ensures OnlyChanged(user, {MessagesPart})
  {
    deleted := false;
    if user == null {
      r := Fail(Abort("No user found"));
      return;
    }
    if chat == null {
      r := Fail(Crash);
      return;
    }
    if userId !in chat.users {
      r := Fail(Abort("not authorized"));
      return;
    }
    if NoDup(chat.users) {
      PullKeepsNoDup(chat.users, userId);
      PullMemberOnce(chat.users, userId);
      if |chat.users| == 1 {
        assert chat.users == [userId];
      }
    }
    chat.users := Pull(chat.users, userId);
    user.messages := user.messages.(chatrooms := Pull(user.messages.chatrooms, chatId));
    deleted := |chat.users| == 0;
    r := Ok;
  }

  /**
   * `createChatroom`: a title no room has yet gives a new room whose admin
   * and only member is the caller; its id joins the end of the caller's
   * rooms. `existing` is the room that already has this title, if any.
   */
  method CreateChatroom(user: User?, existing: ChatRoom?, userId: Id, title: string, newId: Id)
    returns (r: Outcome, room: ChatRoom?)
    requires user != null ==> user.id == userId
    requires existing != null ==> existing.title == title
    modifies user
    ensures user == null ==> r == Fail(Abort("not authorized"))
    ensures user != null && existing != null ==> r == Fail(Abort("chat room exist already"))
    ensures user != null && existing == null ==> r == Ok
    ensures r.Fail? ==> room == null && OnlyChanged(user, {})
    ensures r.Ok? ==>
      user != null && existing == null && room != null && fresh(room) &&
      room.id == newId && room.title == title && room.admin == userId &&
      room.users == [userId] && room.messages == [] && room.Valid() &&
      user.messages == old(user.messages).(chatrooms := old(user.messages.chatrooms) + [newId])
    ensures OnlyChanged(user, {MessagesPart})
  {
    room := null;
    if user == null {
      r := Fail(Abort("not authorized"));
      return;
    }
    if existing != null {
      r := Fail(Abort("chat room exist already"));
      return;
    }
    room := new ChatRoom(newId, title, userId, [userId]);
    user.messages := user.messages.(chatrooms := user.messages.chatrooms + [newId]);
    r := Ok;
  }
}
