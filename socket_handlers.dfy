/** The real-time coordinator: the authentication middleware and the per-socket event handlers.
    Only `chat:join` and `message:send` check the caller against the membership rows; the other
    handlers check nothing. Most handlers change the durable store or the socket's room set; the
    typing handlers only relay. Every handler appends what it emits to an outbox log. The durable store is a `Store`
    object, the emitter an `Io` object, the socket a `Connection` object. */
module SocketHandlers {
  import opened Wrappers
  import opened Sequences
  import opened SocketTables

  /** Where an emitted event goes. */
  datatype Target =
    | ToSelf                          // socket.emit: this socket only
    | ToRoom(room: string)            // io.to(room).emit: every socket in the room, this one included
    | ToRoomExceptSelf(room: string)  // socket.to(room).emit: the room without this socket
    | ToAllExceptSelf                 // socket.broadcast.emit: every other socket

  datatype Event =
    | Error(message: string)
    | ChatJoined(chatId: ChatId)
    | ChatLeft(chatId: ChatId)
    | MessageNew(msg: Message)
    | MessageReactions(messageId: MessageId, reactions: seq<Reaction>)
    | MessageRead(messageId: MessageId, readBy: UserId, readAt: Timestamp)
    | TypingStart(userId: UserId, username: string, chatId: ChatId)
    | TypingStop(userId: UserId, username: string, chatId: ChatId)
    | UserStatus(userId: UserId, status: Status, lastSeen: Timestamp)

  /** One entry of the outbox: which socket emitted what, to whom. */
  datatype Emit = Emit(from: SocketId, target: Target, event: Event)

  const NotAuthorizedToJoin := "Not authorized to join this chat"
  const NotAuthorizedToSend := "Not authorized to send messages to this chat"
  const ChatNotFound := "Chat not found"

  /** The durable store: one field per table. */
  class Store {
    var users: map<UserId, User>
    var chats: map<ChatId, Chat>
    var members: seq<ChatMember>
    var messages: seq<Message>
    var reactions: seq<Reaction>
    var receipts: seq<ReadReceipt>
    var nextMessageId: MessageId

    /** The table constraints: reaction triples and receipt keys are unique, message ids are
        distinct and below the id counter. */
    ghost predicate Valid()
      reads this
    {
      && NoDuplicates(reactions)
      && UniqueReceiptKeys(receipts)
      && (forall m | m in messages :: m.id < nextMessageId)
      && (forall i, j :: 0 <= i < j < |messages| ==> messages[i].id != messages[j].id)
    }

    /** A store holding users, chats and memberships, created by the rest of the system. */
    constructor (users: map<UserId, User>, chats: map<ChatId, Chat>, members: seq<ChatMember>)
      ensures Valid()
      ensures this.users == users && this.chats == chats && this.members == members
      ensures messages == [] && reactions == [] && receipts == [] && nextMessageId == 0
    {
      this.users := users;
      this.chats := chats;
      this.members := members;
      messages := [];
      reactions := [];
      receipts := [];
      nextMessageId := 0;
    }
  }

  /** The emitter: everything emitted, in order. */
  class Io {
    var outbox: seq<Emit>

    constructor ()
      ensures outbox == []
    {
      outbox := [];
    }
  }

  /** One socket: the identity the middleware attached, the rooms it has joined, whether the
      `connection` handler got as far as registering the event handlers, and whether the socket is
      closed, refused by the middleware or disconnected. A closed socket never runs a handler again. */
  class Connection {
    const id: SocketId
    var identity: Option<Identity>
    var rooms: set<string>
    var listening: bool
    var closed: bool

    constructor (id: SocketId)
      ensures this.id == id && identity == None && rooms == {} && !listening && !closed
    {
      this.id := id;
      identity := None;
      rooms := {};
      listening := false;
      closed := false;
    }

    /** The `io.use` middleware. It attaches an identity only when a non-empty token verifies to an
        existing, email-verified user; otherwise it fails, the socket stays anonymous and is refused. */
    method Authenticate(store: Store, token: Option<string>, verify: string -> Option<UserId>)
      returns (outcome: Result<Identity, string>)
      requires identity.None? && !closed
      modifies this`identity, this`closed
      ensures outcome == ResolveIdentity(token, verify, store.users)
      ensures identity == if outcome.Ok? then Some(outcome.value) else None
      ensures closed == outcome.Err?
    {
      if token.None? || token.value == "" {
        closed := true;
        return Err(TokenRequired);
      }
      var decoded := verify(token.value);
      if decoded.None? {
        closed := true;
        return Err(AuthenticationFailed);
      }
      var u := decoded.value;
      if u !in store.users || !store.users[u].isEmailVerified {
        closed := true;
        return Err(InvalidUser);
      }
      identity := Some(Identity(u, store.users[u].username));
      outcome := Ok(identity.value);
    }

    /** The `connection` handler: mark the user ONLINE, join the user room and one room per
        membership row, and tell every other socket. When the user row has disappeared the status
        update throws and the handler stops: no room is joined, nothing is emitted, and no event
        handler is registered, so `listening` stays false. */
    method Connect(store: Store, io: Io, now: Timestamp) returns (attached: bool)
      requires identity.Some? && !listening && !closed
      modifies this`rooms, this`listening, store`users, io`outbox
      ensures old(store.Valid()) ==> store.Valid()
      ensures listening == attached
      ensures var u := identity.value.userId;
        && attached == (u in old(store.users))
        && (attached ==>
              && store.users == old(store.users)[u := old(store.users)[u].(status := Online, lastSeen := now)]
              && rooms == old(rooms) + ConnectRooms(u, store.members)
              && io.outbox == old(io.outbox) + [Emit(id, ToAllExceptSelf, UserStatus(u, Online, now))])
        && (!attached ==> store.users == old(store.users) && rooms == old(rooms) && io.outbox == old(io.outbox))
      ensures RoomsAuthorized(old(rooms), identity.value.userId, store.members) ==>
                RoomsAuthorized(rooms, identity.value.userId, store.members)
    {
      var u := identity.value.userId;
      if u !in store.users {
        return false;
      }
      store.users := store.users[u := store.users[u].(status := Online, lastSeen := now)];
      rooms := rooms + {UserRoom(u)};
      var userChats := MembershipsOf(store.members, u);
      JoinChatRooms(userChats);
      ConnectRoomsFromMemberships(u, store.members);
      io.outbox := io.outbox + [Emit(id, ToAllExceptSelf, UserStatus(u, Online, now))];
      listening := true;
      attached := true;
    }

    /** The `forEach` over the user's membership rows: join one chat room per row. */
    method JoinChatRooms(userChats: seq<ChatMember>)
      modifies this`rooms
      ensures rooms == old(rooms) + ChatRoomsOf(userChats)
    {
      var i := 0;
      while i < |userChats|
        invariant 0 <= i <= |userChats|
        invariant rooms == old(rooms) + ChatRoomsOf(userChats[..i])
      {
        assert userChats[..i + 1] == userChats[..i] + [userChats[i]];
        rooms := rooms + {ChatRoom(userChats[i].chatId)};
        i := i + 1;
      }
      assert userChats[..|userChats|] == userChats;
    }

    /** `chat:join`: join the chat's room only when a membership row exists right now. */
    method JoinChat(store: Store, io: Io, chatId: ChatId)
      requires identity.Some? && listening
      modifies this`rooms, io`outbox
      ensures var u := identity.value.userId;
        if IsMember(store.members, chatId, u) then
          && rooms == old(rooms) + {ChatRoom(chatId)}
          && io.outbox == old(io.outbox) + [Emit(id, ToSelf, ChatJoined(chatId))]
        else
          && rooms == old(rooms)
          && io.outbox == old(io.outbox) + [Emit(id, ToSelf, Error(NotAuthorizedToJoin))]
      ensures RoomsAuthorized(old(rooms), identity.value.userId, store.members) ==>
                RoomsAuthorized(rooms, identity.value.userId, store.members)
    {
      var u := identity.value.userId;
      if !IsMember(store.members, chatId, u) {
        io.outbox := io.outbox + [Emit(id, ToSelf, Error(NotAuthorizedToJoin))];
        return;
      }
      rooms := rooms + {ChatRoom(chatId)};
      io.outbox := io.outbox + [Emit(id, ToSelf, ChatJoined(chatId))];
    }

    /** `chat:leave`: leave the chat's room, with no membership check and no change to the store. */
    method LeaveChat(io: Io, chatId: ChatId)
      requires identity.Some? && listening
      modifies this`rooms, io`outbox
      ensures rooms == old(rooms) - {ChatRoom(chatId)}
      ensures UserRoom(identity.value.userId) in old(rooms) ==> UserRoom(identity.value.userId) in rooms
      ensures io.outbox == old(io.outbox) + [Emit(id, ToSelf, ChatLeft(chatId))]
    {
      RoomKindsDiffer(identity.value.userId, chatId);
      rooms := rooms - {ChatRoom(chatId)};
      io.outbox := io.outbox + [Emit(id, ToSelf, ChatLeft(chatId))];
    }

    /** `message:send`. A sender without a membership row, or a chat that does not exist, gets an
        error and nothing is stored or broadcast. Otherwise exactly one message is stored, sent by
        this user and of type TEXT unless another is given, the chat's `lastMessageAt` becomes
        `now`, the message goes to the chat's room, and `offline` is the list of other members
        whose status is OFFLINE. */
    method SendMessage(
      store: Store, io: Io, chatId: ChatId, content: string,
      messageType: Option<string>, replyToId: Option<MessageId>, now: Timestamp)
      returns (offline: seq<ChatMember>)
      requires identity.Some? && listening && store.Valid()
      modifies store`messages, store`nextMessageId, store`chats, io`outbox
      ensures store.Valid()
      ensures var u := identity.value.userId;
        if !IsMember(store.members, chatId, u) then
          && store.messages == old(store.messages) && store.chats == old(store.chats)
          && store.nextMessageId == old(store.nextMessageId)
          && io.outbox == old(io.outbox) + [Emit(id, ToSelf, Error(NotAuthorizedToSend))]
          && offline == []
        else if chatId !in old(store.chats) then
          && store.messages == old(store.messages) && store.chats == old(store.chats)
          && store.nextMessageId == old(store.nextMessageId)
          && io.outbox == old(io.outbox) + [Emit(id, ToSelf, Error(ChatNotFound))]
          && offline == []
        else
          var kind := if messageType.Some? then messageType.value else DefaultMessageType;
          var msg := Message(old(store.nextMessageId), chatId, u, content, kind, replyToId, now);
          && store.messages == old(store.messages) + [msg]
          && store.chats == old(store.chats)[chatId := old(store.chats)[chatId].(lastMessageAt := Some(now))]
          && io.outbox == old(io.outbox) + [Emit(id, ToRoom(ChatRoom(chatId)), MessageNew(msg))]
          && offline == OfflineMembers(MembersOfChat(store.members, chatId), store.users, u)
      ensures forall m | m in offline :: m.userId != identity.value.userId
    {
      var u := identity.value.userId;
      var kind := if messageType.Some? then messageType.value else DefaultMessageType;
      if !IsMember(store.members, chatId, u) {
        io.outbox := io.outbox + [Emit(id, ToSelf, Error(NotAuthorizedToSend))];
        return [];
      }
      if chatId !in store.chats {
        io.outbox := io.outbox + [Emit(id, ToSelf, Error(ChatNotFound))];
        return [];
      }
      var chatMembers := MembersOfChat(store.members, chatId);
      var msg := Message(store.nextMessageId, chatId, u, content, kind, replyToId, now);
      store.messages := store.messages + [msg];
      store.nextMessageId := store.nextMessageId + 1;
      store.chats := store.chats[chatId := store.chats[chatId].(lastMessageAt := Some(now))];
      io.outbox := io.outbox + [Emit(id, ToRoom(ChatRoom(chatId)), MessageNew(msg))];
      offline := OfflineMembers(chatMembers, store.users, u);
    }

    /** `typing:start`: relayed to the rest of the chat's room; nothing is checked or stored. */
    method StartTyping(io: Io, chatId: ChatId)
      requires identity.Some? && listening
      modifies io`outbox
      ensures var who := identity.value;
        io.outbox == old(io.outbox) + [Emit(id, ToRoomExceptSelf(ChatRoom(chatId)), TypingStart(who.userId, who.username, chatId))]
    {
      var who := identity.value;
      io.outbox := io.outbox + [Emit(id, ToRoomExceptSelf(ChatRoom(chatId)), TypingStart(who.userId, who.username, chatId))];
    }

    /** `typing:stop`: as `typing:start`. */
    method StopTyping(io: Io, chatId: ChatId)
      requires identity.Some? && listening
      modifies io`outbox
      ensures var who := identity.value;
        io.outbox == old(io.outbox) + [Emit(id, ToRoomExceptSelf(ChatRoom(chatId)), TypingStop(who.userId, who.username, chatId))]
    {
      var who := identity.value;
      io.outbox := io.outbox + [Emit(id, ToRoomExceptSelf(ChatRoom(chatId)), TypingStop(who.userId, who.username, chatId))];
    }

    /** `message:react`: delete this user's reaction with this emoji if it exists, create it
        otherwise, then send the message's full reaction list to the message's chat room (nothing is
        sent when the message does not exist). */
    method React(store: Store, io: Io, messageId: MessageId, emoji: string)
      requires identity.Some? && listening && store.Valid()
      modifies store`reactions, io`outbox
      ensures store.Valid()
      ensures var r := Reaction(messageId, identity.value.userId, emoji);
        && store.reactions == ToggleReaction(old(store.reactions), r)
        && (r in store.reactions <==> r !in old(store.reactions))
      ensures match FindMessage(store.messages, messageId)
        case Some(msg) =>
          io.outbox == old(io.outbox) +
            [Emit(id, ToRoom(ChatRoom(msg.chatId)), MessageReactions(messageId, ReactionsOf(store.reactions, messageId)))]
        case None => io.outbox == old(io.outbox)
    {
      var r := Reaction(messageId, identity.value.userId, emoji);
      ToggleFlips(store.reactions, r);
      var existing := FindReaction(store.reactions, r);
      if existing.Some? {
        store.reactions := RemoveAt(store.reactions, existing.value);
      } else {
        store.reactions := store.reactions + [r];
      }
      var reactions := ReactionsOf(store.reactions, messageId);
      var message := FindMessage(store.messages, messageId);
      if message.Some? {
        io.outbox := io.outbox + [Emit(id, ToRoom(ChatRoom(message.value.chatId)), MessageReactions(messageId, reactions))];
      }
    }

    /** `message:read`: upsert this user's receipt for the message with `readAt = now`, then notify
        the message's sender in the sender's private room only. */
    method MarkRead(store: Store, io: Io, messageId: MessageId, now: Timestamp)
      requires identity.Some? && listening && store.Valid()
      modifies store`receipts, io`outbox
      ensures store.Valid()
      ensures store.receipts == UpsertReceipt(old(store.receipts), messageId, identity.value.userId, now)
      ensures |ReceiptRows(store.receipts, messageId, identity.value.userId)| == 1
      ensures match FindMessage(store.messages, messageId)
        case Some(msg) =>
          io.outbox == old(io.outbox) + [Emit(id, ToRoom(UserRoom(msg.senderId)), MessageRead(messageId, identity.value.userId, now))]
        case None => io.outbox == old(io.outbox)
    {
      var u := identity.value.userId;
      UpsertLeavesOneRow(store.receipts, messageId, u, now);
      var existing := FindReceipt(store.receipts, messageId, u);
      if existing.Some? {
        var i := existing.value;
        store.receipts := store.receipts[i := store.receipts[i].(readAt := now)];
      } else {
        store.receipts := store.receipts + [ReadReceipt(messageId, u, now)];
      }
      var message := FindMessage(store.messages, messageId);
      if message.Some? {
        io.outbox := io.outbox + [Emit(id, ToRoom(UserRoom(message.value.senderId)), MessageRead(messageId, u, now))];
      }
    }

    /** `status:update`: store the status the client asks for and tell every other socket. A missing
        user row makes the update throw; the error is swallowed and nothing is emitted. */
    method UpdateStatus(store: Store, io: Io, status: Status, now: Timestamp)
      requires identity.Some? && listening
      modifies store`users, io`outbox
      ensures old(store.Valid()) ==> store.Valid()
      ensures var u := identity.value.userId;
        if u in old(store.users) then
          && store.users == old(store.users)[u := old(store.users)[u].(status := status, lastSeen := now)]
          && io.outbox == old(io.outbox) + [Emit(id, ToAllExceptSelf, UserStatus(u, status, now))]
        else
          store.users == old(store.users) && io.outbox == old(io.outbox)
    {
      var u := identity.value.userId;
      if u in store.users {
        store.users := store.users[u := store.users[u].(status := status, lastSeen := now)];
        io.outbox := io.outbox + [Emit(id, ToAllExceptSelf, UserStatus(u, status, now))];
      }
    }

    /** `disconnect`: the transport has already taken the socket out of every room; the handler marks
        the user OFFLINE, whatever other sockets the user still has, and tells every other socket. */
    method Disconnect(store: Store, io: Io, now: Timestamp)
      requires identity.Some? && listening
      modifies this`rooms, this`listening, this`closed, store`users, io`outbox
      ensures old(store.Valid()) ==> store.Valid()
      ensures rooms == {} && !listening && closed
      ensures var u := identity.value.userId;
        if u in old(store.users) then
          && store.users == old(store.users)[u := old(store.users)[u].(status := Offline, lastSeen := now)]
          && io.outbox == old(io.outbox) + [Emit(id, ToAllExceptSelf, UserStatus(u, Offline, now))]
        else
          store.users == old(store.users) && io.outbox == old(io.outbox)
    {
      rooms := {};
      listening := false;
      closed := true;
      var u := identity.value.userId;
      if u in store.users {
        store.users := store.users[u := store.users[u].(status := Offline, lastSeen := now)];
        io.outbox := io.outbox + [Emit(id, ToAllExceptSelf, UserStatus(u, Offline, now))];
      }
    }
  }
}
