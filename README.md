# Real-time chat coordinator and client reducers, modelled in Dafny

This project models two parts of a chat application.

**The server's socket coordinator.** Most socket events change durable or room state. `typing:start` and `typing:stop` only relay. Every handler appends what it emits to the outbox: to the socket, a room or every other socket. `message:react` and `message:read` emit nothing when the message does not exist. Only `chat:join` and `message:send` check the caller against the membership rows; the other handlers check nothing beyond the identity the middleware attached. The durable store is modelled as the class `Store`, with these tables:

- users with status, last-seen time and e-mail verification;
- chats with `lastMessageAt`;
- membership rows `(chatId, userId)`;
- messages;
- reactions `(messageId, userId, emoji)`;
- read receipts keyed by `(messageId, userId)`.

A live socket is the class `Connection`, holding the identity the authentication middleware attached, the set of rooms it has joined, whether the `connection` handler registered the event handlers (`listening`), and whether the socket is `closed`. The event methods require `listening`, since the server registers no handler for a socket whose `connection` handler stopped early. A socket the middleware refuses, or one that has disconnected, is closed. `Authenticate` and `Connect` require an open socket, so a closed socket never runs a handler again. Rooms are named `user:<id>` and `chat:<id>`. Everything the handlers emit is appended to `Io.outbox`: which socket sent it, to whom (the socket itself, a room, a room except the sender, or every other socket) and which event.

**The client's Redux state for chats and authentication.** The reducers update their state in place. Here they are methods of the classes `ChatSlice.ChatState` and `AuthSlice.AuthState`. Each method's field-level `modifies` frame states which fields the reducer may change. Every other field is unchanged by construction.

Files:

- `wrappers.dfy`: `Option` and `Result`.
- `sequences.dfy`: a generic `Filter` (JavaScript's `Array.prototype.filter`) with lemmas about membership, multiplicities, order and duplicates.
- `socket_tables.dfy`: the row types and the pure decisions the handlers take:
  - identity resolution;
  - connect-time rooms;
  - the reaction toggle;
  - the receipt upsert;
  - the offline-member filter.
- `socket_handlers.dfy`: `Store`, `Io` and `Connection`, with one method per socket event.
- `socket_scenarios.dfy`: small verified scenarios of the handlers, for example a member sending, a stranger refused and a double reaction.
- `chat_slice.dfy` and `auth_slice.dfy`: the two reducer slices.
- `slice_scenarios.dfy`: verified scenarios of the reducers.

Environment: `jwt.verify` is a parameter `verify: string -> Option<UserId>`. `new Date()` is a parameter `now`. The store's generated message ids are a counter.

Presence follows the code. A user with several live sockets would be expected to stay ONLINE until the last one closes, but the `disconnect` handler (backend/src/socket/socketHandlers.ts:363-376) marks the user OFFLINE unconditionally. `Connection.Disconnect` models the handler as written, and `SocketScenarios.TwoSocketsOneUser` shows the result: the user is OFFLINE while a second socket is still in the user's room.

## Model

| member | source | states |
|---|---|---|
| SocketTables.ResolveIdentity | backend/src/socket/socketHandlers.ts:13-43 | A socket is accepted exactly when the token is present and non-empty, verifies to a user id, and that user exists with a verified e-mail. The attached identity is that user's id and username. A missing or empty token fails with "Authentication token required", a token that does not verify with "Authentication failed", and a missing or unverified user with "Invalid user" |
| SocketHandlers.Connection.Authenticate | backend/src/socket/socketHandlers.ts:13-43 | The middleware's outcome is `ResolveIdentity`. An identity is attached only on success, and the socket is closed exactly when it is refused |
| SocketTables.RoomKindsDiffer | backend/src/socket/socketHandlers.ts:61 | A user room name is never a chat room name, so leaving a chat never leaves the private room |
| SocketTables.ChatRoomInjective | backend/src/socket/socketHandlers.ts:70 | Distinct chats have distinct room names |
| SocketTables.UserRoomInjective | backend/src/socket/socketHandlers.ts:61 | Distinct users have distinct private rooms |
| SocketTables.MembershipsOf | backend/src/socket/socketHandlers.ts:64-67 | Returns exactly the membership rows of this user |
| SocketTables.MembersOfChat | backend/src/socket/socketHandlers.ts:137-144 | Returns exactly the membership rows loaded with the chat |
| SocketTables.ConnectRooms | backend/src/socket/socketHandlers.ts:60-71 | The rooms a connected socket must be in: the user's private room and the room of every chat the user has a membership row for |
| SocketTables.ConnectRoomsExact | backend/src/socket/socketHandlers.ts:60-71 | The connect-time room set contains the user room. It contains `chat:c` if and only if the user has a membership row for `c`. Every room in it is authorized |
| SocketTables.ConnectRoomsFromMemberships | backend/src/socket/socketHandlers.ts:61-71 | Joining the user room and then one room per membership row gives exactly that room set |
| SocketHandlers.Connection.JoinChatRooms | backend/src/socket/socketHandlers.ts:69-71 | The `forEach` loop adds exactly one chat room per given membership row |
| SocketHandlers.Connection.Connect | backend/src/socket/socketHandlers.ts:45-78 | When the user row exists: the user becomes ONLINE with `lastSeen = now`, the rooms grow by exactly the connect-time room set, and `user:status` ONLINE goes to every other socket. When the row is missing, nothing changes and the socket is not listening for events; otherwise it is. Authorized rooms stay authorized, and the store's table constraints are kept |
| SocketHandlers.Connection.JoinChat | backend/src/socket/socketHandlers.ts:80-104 | With a membership row: `chat:<id>` is joined and `chat:joined` goes to the socket. Without one: the rooms are unchanged and the "Not authorized to join this chat" error goes to the socket only. Authorized rooms stay authorized |
| SocketHandlers.Connection.LeaveChat | backend/src/socket/socketHandlers.ts:106-111 | Only `chat:<id>` is removed from the rooms. The private room is kept, the store is not touched, and `chat:left` is acknowledged |
| SocketHandlers.Connection.SendMessage | backend/src/socket/socketHandlers.ts:114-207 | Without a membership row, or for a missing chat, the matching error goes to the sender only. No message is stored, `lastMessageAt` and the id counter are unchanged, and nothing is broadcast. Otherwise exactly one message is appended, sent by this user, with type TEXT unless one is given. The chat's `lastMessageAt` is set, `message:new` goes to `chat:<id>`, and the offline list never contains the sender |
| SocketTables.OfflineMembers | backend/src/socket/socketHandlers.ts:195-197 | Contains exactly the chat's members other than the sender whose status is OFFLINE, so never the sender |
| SocketHandlers.Connection.StartTyping | backend/src/socket/socketHandlers.ts:210-216 | Relays `typing:start` with the user's id, username and the chat to the chat's room except the sender. Nothing is checked or stored |
| SocketHandlers.Connection.StopTyping | backend/src/socket/socketHandlers.ts:218-224 | The same, for `typing:stop` |
| SocketTables.FindReaction | backend/src/socket/socketHandlers.ts:235-241 | Returns the position of the first row equal to the reaction, or nothing if and only if no row is equal |
| SocketTables.ToggleReaction | backend/src/socket/socketHandlers.ts:243-257 | The toggle removes one occurrence of the caller's reaction when it exists and appends it otherwise: the table shrinks by one row or grows by exactly that row |
| SocketTables.ToggleFlips | backend/src/socket/socketHandlers.ts:243-257 | On a table of distinct rows, a toggle keeps the rows distinct. It deletes the reaction if it was present and adds it if it was absent. Every other row keeps its multiplicity |
| SocketTables.ToggleTwiceRestores | backend/src/socket/socketHandlers.ts:243-257 | Reacting twice with the same emoji restores the table: the same rows, and the same sequence when the reaction was absent |
| SocketTables.NoDuplicatesCountsOne | backend/src/socket/socketHandlers.ts:235-257 | In a table of distinct rows, a present row occurs exactly once. The toggle's deletion relies on this |
| SocketTables.ReactionsOf | backend/src/socket/socketHandlers.ts:260-272 | Returns exactly the reactions of the message |
| SocketHandlers.Connection.React | backend/src/socket/socketHandlers.ts:227-290 | The reaction table becomes the toggle of the caller's reaction, so the reaction is present afterwards if and only if it was absent before. When the message exists, its full reaction list goes to the message's chat room. When it does not, nothing is emitted |
| SocketTables.FindMessage | backend/src/socket/socketHandlers.ts:275-278 | Returns a stored message with this id, or nothing if and only if no message has the id |
| SocketTables.FindReceipt | backend/src/socket/socketHandlers.ts:296-311 | Returns the position of the first receipt with the key, or nothing if and only if there is none |
| SocketTables.UpsertReceipt | backend/src/socket/socketHandlers.ts:296-311 | After the upsert a receipt for `(message, user)` read at `now` exists. The table grows by at most one row, rows of other keys stay where and what they were, and every row of the result without the key is such an old row. When a row for the key exists the table keeps its length, so that row is updated where it stands; with no row for the key the new row is appended |
| SocketTables.UpsertLeavesOneRow | backend/src/socket/socketHandlers.ts:296-311 | The upsert keeps receipt keys unique and leaves exactly one row for `(message, user)`, read at `now`. It adds at most one row, leaves the receipts of every other key unchanged, and creates no receipt for any other key |
| SocketTables.FindReceiptIsFirst | backend/src/socket/socketHandlers.ts:296-302 | With unique keys, a row with the key is the one the lookup finds |
| SocketTables.UpsertTwiceLastWins | backend/src/socket/socketHandlers.ts:296-311 | Reading twice is the same as reading once at the later time |
| SocketHandlers.Connection.MarkRead | backend/src/socket/socketHandlers.ts:293-333 | The receipts become the upsert, with exactly one row for the key. When the message exists, `message:read` goes to the sender's private room only. When it does not, nothing is emitted |
| SocketHandlers.Connection.UpdateStatus | backend/src/socket/socketHandlers.ts:336-357 | The user's status and `lastSeen` are stored and `user:status` goes to every other socket. Nothing changes when the user row is missing. The store's table constraints are kept |
| SocketHandlers.Connection.Disconnect | backend/src/socket/socketHandlers.ts:360-382 | The socket leaves every room. The user is marked OFFLINE with `lastSeen` whatever other sockets the user has, and every other socket is told. The socket is closed: it is no longer listening, and since `Connect` requires an open socket it takes no further events. The store's table constraints are kept |
| ChatSlice.ChatState.constructor | frontend/src/store/slices/chatSlice.ts:5-12 | The initial state: empty lists, no active conversation, not loading, no error |
| ChatSlice.ChatState.SetActiveConversation | frontend/src/store/slices/chatSlice.ts:43-45 | Only `activeConversation` changes, to the given conversation |
| ChatSlice.FindConversation | frontend/src/store/slices/chatSlice.ts:50-52 | Returns the index of the first conversation with the id, or nothing if and only if no conversation has it |
| ChatSlice.WithLastMessage | frontend/src/store/slices/chatSlice.ts:50-55 | The list keeps its length. The conversation `find` returns gets the message as its last message, and every other conversation is unchanged |
| ChatSlice.WithLastMessageChangesOne | frontend/src/store/slices/chatSlice.ts:50-55 | Ids and positions are kept. Conversations of other ids are unchanged. At most one conversation changes, and if any conversation has the id, one of them now carries the message |
| ChatSlice.ChatState.AddMessage | frontend/src/store/slices/chatSlice.ts:46-56 | The message is appended at the end of `messages`, and the conversations become `WithLastMessage` of the old list |
| ChatSlice.ChatState.SetTypingUsers | frontend/src/store/slices/chatSlice.ts:57-59 | The typing list becomes the given list |
| ChatSlice.ChatState.AddTypingUser | frontend/src/store/slices/chatSlice.ts:60-64 | The user is listed afterwards. A list that already held the user is unchanged, and otherwise the user is appended. A duplicate-free list stays duplicate-free |
| ChatSlice.Without | frontend/src/store/slices/chatSlice.ts:66-68 | The user does not occur in the result, and every other user occurs in it if and only if it occurred before |
| ChatSlice.WithoutKeepsOthers | frontend/src/store/slices/chatSlice.ts:66-68 | The result is a subsequence of the list, so other users keep their relative order. Other users keep their multiplicity. A duplicate-free list stays duplicate-free |
| ChatSlice.ChatState.RemoveTypingUser | frontend/src/store/slices/chatSlice.ts:65-69 | The typing list becomes the filtered list: the user is gone, it is a subsequence of the old list, and it stays duplicate-free |
| ChatSlice.ChatState.ClearError | frontend/src/store/slices/chatSlice.ts:70-72 | Only `error` changes, to none |
| ChatSlice.ErrorText | frontend/src/store/slices/chatSlice.ts:87 | JavaScript's `||` default: a present, non-empty message is kept, and otherwise the fixed text is used. With a non-empty fallback the text is never empty |
| ChatSlice.ChatState.FetchPending | frontend/src/store/slices/chatSlice.ts:77-80 | `isLoading` is set and `error` cleared, and nothing else changes. The `fetchMessages.pending` case at lines 90-93 is the same reducer |
| ChatSlice.ChatState.FetchConversationsFulfilled | frontend/src/store/slices/chatSlice.ts:81-84 | The conversation list is replaced by the loaded one and loading ends |
| ChatSlice.ChatState.FetchConversationsRejected | frontend/src/store/slices/chatSlice.ts:85-88 | Loading ends and `error` is the message or "Failed to fetch conversations". The list is kept |
| ChatSlice.ChatState.FetchMessagesFulfilled | frontend/src/store/slices/chatSlice.ts:94-97 | The message list is replaced by the loaded one and loading ends |
| ChatSlice.ChatState.FetchMessagesRejected | frontend/src/store/slices/chatSlice.ts:98-101 | Loading ends and `error` is the message or "Failed to fetch messages". The messages are kept |
| ChatSlice.ChatState.SendPending | frontend/src/store/slices/chatSlice.ts:103-105 | Only `error` is cleared. The loading flag is untouched |
| ChatSlice.ChatState.SendFulfilled | frontend/src/store/slices/chatSlice.ts:106-108 | The stored message is appended to `messages`, and nothing else changes |
| ChatSlice.ChatState.SendRejected | frontend/src/store/slices/chatSlice.ts:109-111 | `error` is the message or "Failed to send message". The messages are unchanged |
| AuthSlice.AuthState.constructor | frontend/src/store/slices/authSlice.ts:14-21 | The initial state holds the stored tokens, no user, not authenticated, loading and no error |
| AuthSlice.AuthState.ClearError | frontend/src/store/slices/authSlice.ts:141-143 | Only `error` changes, to none |
| AuthSlice.Merge | frontend/src/store/slices/authSlice.ts:146 | Object spread: every key the patch carries takes the patch's value, and every other key keeps the user's value |
| AuthSlice.MergeIdentityAndIdempotent | frontend/src/store/slices/authSlice.ts:146 | An empty patch leaves the user unchanged, and applying a patch twice is the same as applying it once |
| AuthSlice.MergeThen | frontend/src/store/slices/authSlice.ts:146 | Two successive updates are one update with the combined patch |
| AuthSlice.AuthState.UpdateUser | frontend/src/store/slices/authSlice.ts:144-148 | With a user, the user becomes the merge. Without one, nothing changes. Authenticated state keeps its user |
| AuthSlice.AuthState.RequestPending | frontend/src/store/slices/authSlice.ts:153-156 | Loading starts and the error is cleared. The `register.pending` case at lines 172-175 is the same reducer |
| AuthSlice.AuthState.LoginFulfilled | frontend/src/store/slices/authSlice.ts:157-164 | Authenticated, with the returned user and both returned tokens, no error and not loading |
| AuthSlice.AuthState.LoginRejected | frontend/src/store/slices/authSlice.ts:165-169 | Not authenticated, not loading, and the error is the payload. User and tokens are untouched |
| AuthSlice.AuthState.RegisterFulfilled | frontend/src/store/slices/authSlice.ts:176-179 | Loading ends and the error is cleared. User, tokens and `isAuthenticated` are untouched |
| AuthSlice.AuthState.RegisterRejected | frontend/src/store/slices/authSlice.ts:180-183 | Loading ends and the error is the payload. User, tokens and `isAuthenticated` are untouched |
| AuthSlice.AuthState.LogoutFulfilled | frontend/src/store/slices/authSlice.ts:186-192 | Signed out: no user, no tokens, not authenticated, and no error |
| AuthSlice.AuthState.RefreshFulfilled | frontend/src/store/slices/authSlice.ts:195-198 | Only the two tokens change, to the returned ones |
| AuthSlice.AuthState.RefreshRejected | frontend/src/store/slices/authSlice.ts:199-204 | Signed out: no user, no tokens, not authenticated. The error is untouched |
| AuthSlice.AuthState.InitializePending | frontend/src/store/slices/authSlice.ts:207-209 | Only `isLoading` changes, to true |
| AuthSlice.AuthState.InitializeFulfilled | frontend/src/store/slices/authSlice.ts:210-221 | With a user: that user, authenticated, tokens kept. Without one: signed out. Not loading in both cases |
| AuthSlice.AuthState.InitializeRejected | frontend/src/store/slices/authSlice.ts:222-228 | Signed out and not loading |

Every `AuthState` method that may change `user` or `isAuthenticated` keeps `Valid()`: an authenticated state always has a user.

The converse does not hold. `LoginRejected` leaves an earlier user in place while clearing `isAuthenticated`. `SliceScenarios.LoginThenRefused` shows this.

## Left out

- **Transport:** the socket.io transport, Redis and the network. Rooms are a set per connection, and emits are records in an outbox. Fan-out to the sockets in a room is not modelled.
- **Concurrency:** the model says nothing about concurrent handlers or the interleaving of awaits across connections. Each handler runs atomically on the store.
- **Store failures and catch blocks:**
  - The model has no schema, so there are no foreign-key or enum constraint failures, and store calls never fail.
  - The catch blocks' replies are not modelled: "Failed to join chat", "Failed to send message", "Failed to react to message", and the swallowed errors of `message:read`, `status:update` and `disconnect`.
  - The exceptions `jwt.verify` raises are the `None` result of `verify`.
- **Message payload:** the `sender`/`replyTo` includes of the created message are left out, and so is the reactor `user` include of the `message:reactions` payload (lines 262-271): `ReactionsOf` sends the bare reaction rows. `replyToId` is stored as given, and the model does not check that it names an existing message.
- Connection.SendMessage: the message type is the given string, or TEXT. The store's check that it is a valid enum value is not modelled.
- Connection.MarkRead: the handler reads the clock three times: the upserted `readAt`, the created `readAt`, and the emitted `readAt`. The model uses one `now`, as it does for every other handler.
- Connection.Connect: when the status update at lines 52-58 fails, the handler stops before the first `socket.join`: no room is joined, nothing is emitted and no event handler is registered. The model returns `attached == false`, changes nothing and leaves `listening` false. The rejected promise itself is not modelled.
- **Presence across sockets:** no per-user count of live sockets is kept, so a user with another live socket is not kept ONLINE. The model follows the code: `Disconnect` sets OFFLINE unconditionally.
- **Logging:** `logger` calls are not modelled.
- **Thunks:** the thunk bodies of both slices are left out: `createAsyncThunk`, `localStorage`, and the API clients. The reducers receive the thunks' results as parameters. The constructor of `AuthState` takes the tokens read from storage.
- AuthSlice.AuthState.LoginRejected: `action.payload as string` is taken to be a string.
- AuthSlice.AuthState.RegisterRejected: as for `LoginRejected`, the payload is taken to be a string. An aborted thunk's `undefined` payload is not modelled.
- **User type:** `frontend/src/types/auth.ts` is not part of this model. `User` uses the fields of the shared `User` type in `frontend/src/types/index.ts`, without the dates.
- AuthSlice.Merge: a `Partial<User>` key that is present but explicitly `undefined` is not modelled. It would overwrite the field with `undefined`; in the model a patch key is either absent or carries a value.
- **Chat types:** `Message` and `Conversation` keep only the fields the reducers read or write: ids, content, sender, conversation, name, last message, unread count. The dates, participants, type and flags are left out.

