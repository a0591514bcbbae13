/** Verified scenarios of the handlers on a small store: what callers can conclude from the handlers'
    contracts alone. */
module SocketScenarios {
  import opened Wrappers
  import opened SocketTables
  import opened SocketHandlers

  /** Stands for `jwt.verify`: two tokens are valid. */
  function Verify(token: string): Option<UserId>
  {
    if token == "token-a" then Some("a") else if token == "token-c" then Some("c") else None
  }

  function Users(): map<UserId, User>
  {
    map["a" := User("alice", true, Offline, 0),
        "b" := User("bob", true, Offline, 0),
        "c" := User("carol", true, Offline, 0)]
  }

  /** Users a and b share chat "dm"; c is not a member. */
  function DirectMembers(): seq<ChatMember>
  {
    [ChatMember("dm", "a"), ChatMember("dm", "b")]
  }

  /** a connects: ONLINE, in a's private room and in the chat room. */
  method ConnectMember()
  {
    var store := new Store(Users(), map["dm" := Chat(None, None)], DirectMembers());
    var io := new Io();
    var alice := new Connection("socket-1");
    var who := alice.Authenticate(store, Some("token-a"), Verify);
    assert who == Ok(Identity("a", "alice"));
    var attached := alice.Connect(store, io, 1);
    assert attached && store.users["a"].status == Online;
    ConnectRoomsExact("a", store.members);
    assert ChatRoom("dm") in alice.rooms && UserRoom("a") in alice.rooms;
  }

  /** An empty token is refused and the socket closed. */
  method RefuseEmptyToken()
  {
    var store := new Store(Users(), map["dm" := Chat(None, None)], DirectMembers());
    var anonymous := new Connection("socket-0");
    var refused := anonymous.Authenticate(store, Some(""), Verify);
    assert refused == Err(TokenRequired) && anonymous.identity.None? && anonymous.closed;
  }

  /** A socket presenting `token` passes the middleware and connects; what the scenarios rely on. */
  method SignIn(store: Store, io: Io, c: Connection, token: string, now: Timestamp)
    requires c.identity.None? && !c.listening && !c.closed && store.Valid()
    requires Verify(token).Some? && Verify(token).value in store.users
    requires store.users[Verify(token).value].isEmailVerified
    modifies c`identity, c`rooms, c`listening, c`closed, store`users, io`outbox
    ensures store.Valid()
    ensures var u := Verify(token).value;
      && c.identity == Some(Identity(u, old(store.users)[u].username)) && c.listening && !c.closed
      && UserRoom(u) in c.rooms
      && store.users == old(store.users)[u := old(store.users)[u].(status := Online, lastSeen := now)]
  {
    var outcome := c.Authenticate(store, Some(token), Verify);
    var attached := c.Connect(store, io, now);
  }

  /** The common opening: a signed in on socket-1 over a fresh store, nothing sent yet. */
  method AliceSignedIn() returns (store: Store, io: Io, alice: Connection)
    ensures fresh(store) && fresh(io) && fresh(alice)
    ensures store.Valid() && store.messages == [] && store.nextMessageId == 0 && store.reactions == []
    ensures store.receipts == [] && store.members == DirectMembers() && store.chats == map["dm" := Chat(None, None)]
    ensures store.users == Users()["a" := User("alice", true, Online, 1)]
    ensures alice.identity == Some(Identity("a", "alice")) && alice.listening && alice.id == "socket-1"
  {
    store := new Store(Users(), map["dm" := Chat(None, None)], DirectMembers());
    io := new Io();
    alice := new Connection("socket-1");
    SignIn(store, io, alice, "token-a", 1);
  }

  /** a says "hi": one message, sent by a, of type TEXT, broadcast to the chat room; b is offline. */
  method SendByMember()
  {
    var store, io, alice := AliceSignedIn();
    assert IsMember(store.members, "dm", "a") && "dm" in store.chats;
    var before := io.outbox;
    var offline := alice.SendMessage(store, io, "dm", "hi", None, None, 2);
    var hi := Message(0, "dm", "a", "hi", "TEXT", None, 2);
    assert store.messages == [hi];
    assert store.chats["dm"].lastMessageAt == Some(2);
    assert io.outbox == before + [Emit("socket-1", ToRoom(ChatRoom("dm")), MessageNew(hi))];
    assert store.users["b"] == User("bob", true, Offline, 0);
    BobIsOffline(store.users);
    assert ChatMember("dm", "b") in offline;
  }

  /** With b stored as OFFLINE, a's message to "dm" would notify b. */
  lemma BobIsOffline(users: map<UserId, User>)
    requires "b" in users && users["b"].status == Offline
    ensures ChatMember("dm", "b") in OfflineMembers(MembersOfChat(DirectMembers(), "dm"), users, "a")
  {
    assert ChatMember("dm", "b") in MembersOfChat(DirectMembers(), "dm");
    assert "b" != "a";
  }

  /** c signed in on socket-3 over a fresh store, in which c is a member of no chat. */
  method CarolSignedIn() returns (store: Store, io: Io, carol: Connection)
    ensures fresh(store) && fresh(io) && fresh(carol)
    ensures store.Valid() && store.messages == [] && store.members == DirectMembers()
    ensures carol.identity == Some(Identity("c", "carol")) && carol.listening && carol.id == "socket-3"
  {
    store := new Store(Users(), map["dm" := Chat(None, None)], DirectMembers());
    io := new Io();
    carol := new Connection("socket-3");
    SignIn(store, io, carol, "token-c", 3);
  }

  /** c is not a member of "dm": an error to c, no message and no broadcast. */
  method SendByStranger()
  {
    var store, io, carol := CarolSignedIn();
    assert !IsMember(store.members, "dm", "c");
    var before := io.outbox;
    var offline := carol.SendMessage(store, io, "dm", "hi", None, None, 4);
    assert store.messages == [];
    assert io.outbox == before + [Emit("socket-3", ToSelf, Error(NotAuthorizedToSend))];
  }

  /** c reacts twice to a's message: the first toggle adds the row and sends the message's reactions
      to its chat room, the second removes the row again. */
  method ReactTwice()
  {
    var store, io, alice, carol := HiSentCarolIn();
    var hi := Message(0, "dm", "a", "hi", "TEXT", None, 2);
    assert FindMessage(store.messages, 0) == Some(hi);
    var before := io.outbox;
    carol.React(store, io, 0, "+1");
    assert store.reactions == [Reaction(0, "c", "+1")];
    assert ReactionsOf(store.reactions, 0) == [Reaction(0, "c", "+1")];
    assert io.outbox == before + [Emit("socket-3", ToRoom(ChatRoom("dm")), MessageReactions(0, [Reaction(0, "c", "+1")]))];
    carol.React(store, io, 0, "+1");
    ToggleTwiceRestores([], Reaction(0, "c", "+1"));
    assert store.reactions == [];
  }

  /** c reads a's message twice (the handler checks no membership): one receipt row remains, and
      each notification goes to a's private room only. */
  method ReadByOther()
  {
    var store, io, alice, carol := HiSentCarolIn();
    var hi := Message(0, "dm", "a", "hi", "TEXT", None, 2);
    assert FindMessage(store.messages, 0) == Some(hi);
    carol.MarkRead(store, io, 0, 5);
    assert FindMessage(store.messages, 0) == Some(hi);
    var before := io.outbox;
    carol.MarkRead(store, io, 0, 7);
    assert io.outbox == before + [Emit("socket-3", ToRoom(UserRoom("a")), MessageRead(0, "c", 7))];
    assert |ReceiptRows(store.receipts, 0, "c")| == 1;
  }

  /** The opening of the receipt scenario: a and c signed in, nothing sent yet. */
  method BothSignedIn() returns (store: Store, io: Io, alice: Connection, carol: Connection)
    ensures fresh(store) && fresh(io) && fresh(alice) && fresh(carol)
    ensures store.Valid() && store.messages == [] && store.reactions == [] && store.nextMessageId == 0
    ensures store.members == DirectMembers() && store.chats == map["dm" := Chat(None, None)]
    ensures alice.identity == Some(Identity("a", "alice")) && alice.listening && alice.id == "socket-1"
    ensures carol.identity == Some(Identity("c", "carol")) && carol.listening && carol.id == "socket-3"
  {
    store, io, alice := AliceSignedIn();
    carol := new Connection("socket-3");
    assert Verify("token-c") == Some("c");
    SignIn(store, io, carol, "token-c", 3);
  }

  /** The receipt scenario after a has sent "hi" to "dm". */
  method HiSentCarolIn() returns (store: Store, io: Io, alice: Connection, carol: Connection)
    ensures fresh(store) && fresh(io) && fresh(carol)
    ensures store.Valid() && store.messages == [Message(0, "dm", "a", "hi", "TEXT", None, 2)]
    ensures store.reactions == []
    ensures carol.identity == Some(Identity("c", "carol")) && carol.listening && carol.id == "socket-3"
  {
    store, io, alice, carol := BothSignedIn();
    assert IsMember(store.members, "dm", "a") && "dm" in store.chats;
    var offline := alice.SendMessage(store, io, "dm", "hi", None, None, 2);
  }

  /** Presence as the handlers implement it: one of two sockets of the same user disconnects and the
      user is stored as OFFLINE although the other socket is still connected. */
  method TwoSocketsOneUser()
  {
    var store := new Store(Users(), map[], []);
    var io := new Io();
    var first := new Connection("socket-1");
    var second := new Connection("socket-2");
    SignIn(store, io, first, "token-a", 1);
    SignIn(store, io, second, "token-a", 2);
    assert UserRoom("a") in second.rooms;
    first.Disconnect(store, io, 3);
    assert UserRoom("a") in second.rooms;
    assert store.users["a"].status == Offline;
    assert first.closed && !second.closed;
  }
}
