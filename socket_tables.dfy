/** The durable rows of the messaging server and the pure decisions its socket handlers take over them:
    who may connect, which rooms a connection belongs to, the reaction toggle, the read-receipt upsert,
    and the offline-member filter. The handlers that apply these to the live store are in SocketHandlers. */
module SocketTables {
  import opened Wrappers
  import opened Sequences

  type UserId = string
  type ChatId = string
  type SocketId = string
  /** Message ids are generated by the store; a counter stands for the generated unique ids. */
  type MessageId = nat
  /** The value of `new Date()`, as a natural-number clock reading supplied by the caller. */
  type Timestamp = nat

  datatype Status = Online | Away | Busy | Offline

  /** A user row, keyed by its id in the store's user table. */
  datatype User = User(username: string, isEmailVerified: bool, status: Status, lastSeen: Timestamp)

  /** A chat row, keyed by its id in the store's chat table. */
  datatype Chat = Chat(name: Option<string>, lastMessageAt: Option<Timestamp>)

  /** A membership row; the pair (chatId, userId) is what authorizes a user for a chat. */
  datatype ChatMember = ChatMember(chatId: ChatId, userId: UserId)

  datatype Message = Message(
    id: MessageId,
    chatId: ChatId,
    senderId: UserId,
    content: string,
    messageType: string,
    replyToId: Option<MessageId>,
    createdAt: Timestamp)

  /** A reaction row. The triple is unique in the table, so the triple is the row. */
  datatype Reaction = Reaction(messageId: MessageId, userId: UserId, emoji: string)

  /** A read receipt; (messageId, userId) is unique in the table. */
  datatype ReadReceipt = ReadReceipt(messageId: MessageId, userId: UserId, readAt: Timestamp)

  /** What the authentication middleware attaches to an accepted socket. */
  datatype Identity = Identity(userId: UserId, username: string)

  const DefaultMessageType := "TEXT"

  const TokenRequired := "Authentication token required"
  const InvalidUser := "Invalid user"
  const AuthenticationFailed := "Authentication failed"

  // ---------------------------------------------------------------------------------------------
  // Rooms

  function UserRoom(u: UserId): string { "user:" + u }

  function ChatRoom(c: ChatId): string { "chat:" + c }

  /** A private user room is never a chat room, so leaving a chat never leaves the user room. */
  lemma RoomKindsDiffer(u: UserId, c: ChatId)
    ensures UserRoom(u) != ChatRoom(c)
  {
    assert UserRoom(u)[0] == 'u' && ChatRoom(c)[0] == 'c';
  }

  /** Distinct chats have distinct rooms. */
  lemma ChatRoomInjective(a: ChatId, b: ChatId)
    ensures ChatRoom(a) == ChatRoom(b) ==> a == b
  {
    if ChatRoom(a) == ChatRoom(b) {
      assert a == ChatRoom(a)[5..];
      assert b == ChatRoom(b)[5..];
    }
  }

  /** Distinct users have distinct private rooms. */
  lemma UserRoomInjective(a: UserId, b: UserId)
    ensures UserRoom(a) == UserRoom(b) ==> a == b
  {
    if UserRoom(a) == UserRoom(b) {
      assert a == UserRoom(a)[5..];
      assert b == UserRoom(b)[5..];
    }
  }

  // ---------------------------------------------------------------------------------------------
  // Authentication

  /** The connection middleware's decision. `verify` stands for `jwt.verify` followed by reading the
      token's user id: None when the token is malformed, expired or signed with another secret.
      JavaScript's `!token` rejects an absent token and the empty string alike. */
  function ResolveIdentity(token: Option<string>, verify: string -> Option<UserId>, users: map<UserId, User>)
    : (r: Result<Identity, string>)
    ensures r.Ok? <==>
              && token.Some? && token.value != ""
              && verify(token.value).Some?
              && verify(token.value).value in users
              && users[verify(token.value).value].isEmailVerified
    ensures r.Ok? ==> var u := verify(token.value).value; r.value == Identity(u, users[u].username)
    ensures r == Err(TokenRequired) <==> token.None? || token.value == ""
    ensures r == Err(AuthenticationFailed) <==> token.Some? && token.value != "" && verify(token.value).None?
    ensures r == Err(InvalidUser) <==>
              && token.Some? && token.value != ""
              && verify(token.value).Some?
              && (verify(token.value).value !in users || !users[verify(token.value).value].isEmailVerified)
  {
    if token.None? || token.value == "" then Err(TokenRequired)
    else
      match verify(token.value)
      case None => Err(AuthenticationFailed)
      case Some(u) =>
        if u !in users || !users[u].isEmailVerified then Err(InvalidUser)
        else Ok(Identity(u, users[u].username))
  }

  // ---------------------------------------------------------------------------------------------
  // Memberships and rooms

  predicate IsMember(members: seq<ChatMember>, chatId: ChatId, u: UserId)
  {
    ChatMember(chatId, u) in members
  }

  /** `chatMember.findMany({ where: { userId } })`: the user's memberships in table order. */
  function MembershipsOf(members: seq<ChatMember>, u: UserId): (r: seq<ChatMember>)
    ensures forall m :: m in r <==> m in members && m.userId == u
  {
    Filter(members, (m: ChatMember) => m.userId == u)
  }

  /** The member rows of one chat, as loaded with the chat. */
  function MembersOfChat(members: seq<ChatMember>, chatId: ChatId): (r: seq<ChatMember>)
    ensures forall m :: m in r <==> m in members && m.chatId == chatId
  {
    Filter(members, (m: ChatMember) => m.chatId == chatId)
  }

  /** The chat rooms named by a list of membership rows. */
  function ChatRoomsOf(ms: seq<ChatMember>): set<string>
  {
    set m | m in ms :: ChatRoom(m.chatId)
  }

  /** The rooms a freshly connected socket must be in: its user's private room and one room per
      membership row of that user. */
  function ConnectRooms(u: UserId, members: seq<ChatMember>): (r: set<string>)
    ensures UserRoom(u) in r
    ensures forall c | IsMember(members, c, u) :: ChatRoom(c) in r
  {
    {UserRoom(u)} + set m | m in members && m.userId == u :: ChatRoom(m.chatId)
  }

  /** Every room of the connection is the user's own room or a room of a chat the user is a member of. */
  predicate RoomsAuthorized(rooms: set<string>, u: UserId, members: seq<ChatMember>)
  {
    forall r | r in rooms :: r == UserRoom(u) || exists m | m in members :: m.userId == u && r == ChatRoom(m.chatId)
  }

  /** The connect-time room set is exactly the user room plus the rooms of the user's memberships,
      and it is authorized. */
  lemma ConnectRoomsExact(u: UserId, members: seq<ChatMember>)
    ensures UserRoom(u) in ConnectRooms(u, members)
    ensures forall c :: ChatRoom(c) in ConnectRooms(u, members) <==> IsMember(members, c, u)
    ensures RoomsAuthorized(ConnectRooms(u, members), u, members)
  {
    forall c ensures ChatRoom(c) in ConnectRooms(u, members) <==> IsMember(members, c, u) {
      RoomKindsDiffer(u, c);
      if ChatRoom(c) in ConnectRooms(u, members) {
        var m :| m in members && m.userId == u && ChatRoom(m.chatId) == ChatRoom(c);
        ChatRoomInjective(m.chatId, c);
        assert m == ChatMember(c, u);
      } else {
        assert ChatMember(c, u) !in members;
      }
    }
  }

  /** Joining the user room and then the rooms of the user's membership rows, one by one, yields the
      connect-time room set, which is authorized. */
  lemma ConnectRoomsFromMemberships(u: UserId, members: seq<ChatMember>)
    ensures {UserRoom(u)} + ChatRoomsOf(MembershipsOf(members, u)) == ConnectRooms(u, members)
    ensures RoomsAuthorized(ConnectRooms(u, members), u, members)
  {
    ConnectRoomsExact(u, members);
    var mine := MembershipsOf(members, u);
    assert ChatRoomsOf(mine) == set m | m in members && m.userId == u :: ChatRoom(m.chatId);
  }

  // ---------------------------------------------------------------------------------------------
  // Reactions

  /** `messageReaction.findFirst`: the position of the first row equal to `r`, if any. */
  function FindReaction(rs: seq<Reaction>, r: Reaction): (i: Option<nat>)
    ensures i.Some? ==> i.value < |rs| && rs[i.value] == r && r !in rs[..i.value]
    ensures i.None? <==> r !in rs
  {
    if rs == [] then None
    else if rs[0] == r then Some(0)
    else
      match FindReaction(rs[1..], r)
      case None => None
      case Some(k) =>
        assert rs[..k + 1] == [rs[0]] + rs[1..][..k];
        Some(k + 1)
  }

  /** The table without the row at position `i`. */
  function RemoveAt<T>(s: seq<T>, i: nat): seq<T>
    requires i < |s|
  {
    s[..i] + s[i + 1..]
  }

  /** The toggle: delete the caller's (message, emoji) reaction if it exists, create it otherwise. */
  function ToggleReaction(rs: seq<Reaction>, r: Reaction): (t: seq<Reaction>)
    ensures r !in rs ==> t == rs + [r]
    ensures r in rs ==> |t| == |rs| - 1
    ensures multiset(t) == if r in rs then multiset(rs) - multiset{r} else multiset(rs) + multiset{r}
  {
    match FindReaction(rs, r)
    case Some(i) =>
      assert rs == rs[..i] + [rs[i]] + rs[i + 1..];
      RemoveAt(rs, i)
    case None => rs + [r]
  }

  /** `messageReaction.findMany({ where: { messageId } })`. */
  function ReactionsOf(rs: seq<Reaction>, messageId: MessageId): (r: seq<Reaction>)
    ensures forall x :: x in r <==> x in rs && x.messageId == messageId
  {
    Filter(rs, (x: Reaction) => x.messageId == messageId)
  }

  /** A toggle flips exactly the one row it names: the table keeps the uniqueness of its triples,
      gains the row when it was absent and loses it when it was present, and every other row
      keeps its multiplicity. */
  lemma ToggleFlips(rs: seq<Reaction>, r: Reaction)
    requires NoDuplicates(rs)
    ensures NoDuplicates(ToggleReaction(rs, r))
    ensures r in ToggleReaction(rs, r) <==> r !in rs
    ensures multiset(ToggleReaction(rs, r)) ==
              if r in rs then multiset(rs) - multiset{r} else multiset(rs) + multiset{r}
    ensures r !in rs ==> ToggleReaction(rs, r) == rs + [r]
  {
    match FindReaction(rs, r)
    case None =>
      AppendNoDuplicates(rs, r);
    case Some(i) =>
      RemoveAtNoDuplicates(rs, i);
      NoDuplicatesCountsOne(rs, r);
      assert multiset(ToggleReaction(rs, r))[r] == 0;
  }

  /** Deleting a row of a table of distinct rows leaves its rows distinct. */
  lemma RemoveAtNoDuplicates<T>(s: seq<T>, i: nat)
    requires NoDuplicates(s) && i < |s|
    ensures NoDuplicates(RemoveAt(s, i))
  {
    var t := RemoveAt(s, i);
    forall a, b | 0 <= a < b < |t| ensures t[a] != t[b] {
      var a' := if a < i then a else a + 1;
      var b' := if b < i then b else b + 1;
      assert t[a] == s[a'] && t[b] == s[b'];
    }
  }

  /** Reacting twice with the same arguments is the identity on the reaction set: every row has its
      old multiplicity again, and when the first call created the row the table is restored exactly. */
  lemma {:induction false} ToggleTwiceRestores(rs: seq<Reaction>, r: Reaction)
    requires NoDuplicates(rs)
    ensures multiset(ToggleReaction(ToggleReaction(rs, r), r)) == multiset(rs)
    ensures r !in rs ==> ToggleReaction(ToggleReaction(rs, r), r) == rs
  {
    ToggleFlips(rs, r);
    var once := ToggleReaction(rs, r);
    ToggleFlips(once, r);
    if r in rs {
      assert multiset(rs)[r] == 1 by { NoDuplicatesCountsOne(rs, r); }
      assert multiset(rs) - multiset{r} + multiset{r} == multiset(rs);
    } else {
      assert multiset(rs) + multiset{r} - multiset{r} == multiset(rs);
      assert once == rs + [r];
      assert once[|rs|] == r;
      var i := FindReaction(once, r).value;
      assert i == |rs|;
      assert RemoveAt(once, i) == rs;
    }
  }

  lemma {:induction false} NoDuplicatesCountsOne<T>(s: seq<T>, x: T)
    requires NoDuplicates(s) && x in s
    ensures multiset(s)[x] == 1
  {
    if s[0] == x {
      assert s == [s[0]] + s[1..];
      assert x !in s[1..] by {
        forall k | 0 <= k < |s[1..]| ensures s[1..][k] != x {
          assert s[1..][k] == s[k + 1];
        }
      }
    } else {
      assert s == [s[0]] + s[1..];
      assert NoDuplicates(s[1..]) by {
        forall a, b | 0 <= a < b < |s[1..]| ensures s[1..][a] != s[1..][b] {
          assert s[1..][a] == s[a + 1] && s[1..][b] == s[b + 1];
        }
      }
      NoDuplicatesCountsOne(s[1..], x);
    }
  }

  // ---------------------------------------------------------------------------------------------
  // Read receipts

  predicate HasKey(rc: ReadReceipt, messageId: MessageId, u: UserId)
  {
    rc.messageId == messageId && rc.userId == u
  }

  /** The unique constraint on (messageId, userId). */
  predicate UniqueReceiptKeys(rcs: seq<ReadReceipt>)
  {
    forall i, j :: 0 <= i < j < |rcs| ==>
      rcs[i].messageId != rcs[j].messageId || rcs[i].userId != rcs[j].userId
  }

  /** The positions of the rows holding the receipt of `u` for `messageId`. */
  function ReceiptRows(rcs: seq<ReadReceipt>, messageId: MessageId, u: UserId): set<nat>
  {
    set i: nat | i < |rcs| && HasKey(rcs[i], messageId, u)
  }

  /** Lookup by the composite unique key: the first position holding it. */
  function FindReceipt(rcs: seq<ReadReceipt>, messageId: MessageId, u: UserId): (i: Option<nat>)
    ensures i.Some? ==> i.value < |rcs| && HasKey(rcs[i.value], messageId, u)
    ensures i.Some? ==> forall k :: 0 <= k < i.value ==> !HasKey(rcs[k], messageId, u)
    ensures i.None? <==> forall k :: 0 <= k < |rcs| ==> !HasKey(rcs[k], messageId, u)
  {
    if rcs == [] then None
    else if HasKey(rcs[0], messageId, u) then Some(0)
    else
      match FindReceipt(rcs[1..], messageId, u)
      case None => None
      case Some(k) => Some(k + 1)
  }

  /** `messageReadReceipt.upsert`: overwrite `readAt` of the existing row, or create the row. */
  function UpsertReceipt(rcs: seq<ReadReceipt>, messageId: MessageId, u: UserId, now: Timestamp)
    : (r: seq<ReadReceipt>)
    ensures ReadReceipt(messageId, u, now) in r
    ensures |rcs| <= |r| <= |rcs| + 1
    ensures (forall k | 0 <= k < |rcs| :: !HasKey(rcs[k], messageId, u)) ==> r == rcs + [ReadReceipt(messageId, u, now)]
    ensures forall k | 0 <= k < |rcs| && !HasKey(rcs[k], messageId, u) :: r[k] == rcs[k]
    ensures forall k | 0 <= k < |r| && !HasKey(r[k], messageId, u) :: k < |rcs| && r[k] == rcs[k]
    ensures (exists k | 0 <= k < |rcs| :: HasKey(rcs[k], messageId, u)) ==> |r| == |rcs|
  {
    match FindReceipt(rcs, messageId, u)
    case Some(i) =>
      assert rcs[i := rcs[i].(readAt := now)][i] == ReadReceipt(messageId, u, now);
      rcs[i := rcs[i].(readAt := now)]
    case None => rcs + [ReadReceipt(messageId, u, now)]
  }

  /** After an upsert exactly one row holds the key, it carries the new `readAt`, the table keeps its
      unique constraint, and every row for another key is where and what it was. */
  lemma UpsertLeavesOneRow(rcs: seq<ReadReceipt>, messageId: MessageId, u: UserId, now: Timestamp)
    requires UniqueReceiptKeys(rcs)
    ensures var after := UpsertReceipt(rcs, messageId, u, now);
      && UniqueReceiptKeys(after)
      && |ReceiptRows(after, messageId, u)| == 1
      && (forall i | i in ReceiptRows(after, messageId, u) :: after[i].readAt == now)
      && |rcs| <= |after| <= |rcs| + 1
      && (forall k :: 0 <= k < |rcs| && !HasKey(rcs[k], messageId, u) ==> after[k] == rcs[k])
      && (forall k :: 0 <= k < |after| && !HasKey(after[k], messageId, u) ==> k < |rcs| && after[k] == rcs[k])
  {
    var after := UpsertReceipt(rcs, messageId, u, now);
    match FindReceipt(rcs, messageId, u) {
      case Some(i) =>
        assert forall k :: 0 <= k < |rcs| && k != i ==> after[k] == rcs[k];
        assert ReceiptRows(after, messageId, u) == {i};
      case None =>
        assert forall k :: 0 <= k < |rcs| ==> after[k] == rcs[k];
        assert ReceiptRows(after, messageId, u) == {|rcs|};
    }
  }

  /** The lookup finds the first position holding the key. */
  lemma FindReceiptIsFirst(rcs: seq<ReadReceipt>, messageId: MessageId, u: UserId, i: nat)
    requires i < |rcs| && HasKey(rcs[i], messageId, u)
    requires forall k :: 0 <= k < i ==> !HasKey(rcs[k], messageId, u)
    ensures FindReceipt(rcs, messageId, u) == Some(i)
  {
  }

  /** Marking a message read twice is the same as marking it read once with the later time:
      the last write wins and nothing else differs. */
  lemma UpsertTwiceLastWins(rcs: seq<ReadReceipt>, messageId: MessageId, u: UserId, t1: Timestamp, t2: Timestamp)
    ensures UpsertReceipt(UpsertReceipt(rcs, messageId, u, t1), messageId, u, t2) == UpsertReceipt(rcs, messageId, u, t2)
  {
    var once := UpsertReceipt(rcs, messageId, u, t1);
    match FindReceipt(rcs, messageId, u) {
      case Some(i) =>
        FindReceiptIsFirst(once, messageId, u, i);
      case None =>
        assert forall k :: 0 <= k < |rcs| ==> once[k] == rcs[k];
        FindReceiptIsFirst(once, messageId, u, |rcs|);
        assert once[|rcs| := once[|rcs|].(readAt := t2)] == rcs + [ReadReceipt(messageId, u, t2)];
    }
  }

  // ---------------------------------------------------------------------------------------------
  // Messages

  /** `message.findUnique({ where: { id } })`. */
  function FindMessage(msgs: seq<Message>, id: MessageId): (r: Option<Message>)
    ensures r.Some? ==> r.value in msgs && r.value.id == id
    ensures r.None? <==> forall m | m in msgs :: m.id != id
  {
    if msgs == [] then None
    else if msgs[0].id == id then Some(msgs[0])
    else FindMessage(msgs[1..], id)
  }

  /** The chat members other than the sender whose stored status is OFFLINE: the recipients the
      (unimplemented) push notification would target. */
  function OfflineMembers(chatMembers: seq<ChatMember>, users: map<UserId, User>, sender: UserId)
    : (r: seq<ChatMember>)
    ensures forall m :: m in r <==>
      m in chatMembers && m.userId != sender && m.userId in users && users[m.userId].status == Offline
    ensures forall m | m in r :: m.userId != sender
  {
    Filter(chatMembers, (m: ChatMember) => m.userId != sender && m.userId in users && users[m.userId].status == Offline)
  }
}
