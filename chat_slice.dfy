/** The client's chat state and the reducers that update it in place: the conversation list, the
    open conversation, the loaded messages, a loading flag, an error text and the users typing. */
module ChatSlice {
  import opened Wrappers
  import opened Sequences

  datatype Message = Message(id: string, content: string, senderId: string, conversationId: string)

  datatype Conversation = Conversation(id: string, name: Option<string>, lastMessage: Option<Message>,
                                       unreadCount: nat)

  const FetchConversationsFailed := "Failed to fetch conversations"
  const FetchMessagesFailed := "Failed to fetch messages"
  const SendMessageFailed := "Failed to send message"

  /** JavaScript's `message || fallback`: a missing or empty error message falls back to the fixed text. */
  function ErrorText(message: Option<string>, fallback: string): (r: string)
    ensures message.Some? && message.value != "" ==> r == message.value
    ensures message.None? || message.value == "" ==> r == fallback
    ensures fallback != "" ==> r != ""
  {
    if message.Some? && message.value != "" then message.value else fallback
  }

  /** `Array.prototype.find` on the conversation list: the index of the first conversation with this id. */
  function FindConversation(convs: seq<Conversation>, id: string): (r: Option<nat>)
    ensures r.Some? ==> r.value < |convs| && convs[r.value].id == id
                        && forall j | 0 <= j < r.value :: convs[j].id != id
    ensures r.None? <==> forall j | 0 <= j < |convs| :: convs[j].id != id
  {
    if convs == [] then None
    else if convs[0].id == id then Some(0)
    else match FindConversation(convs[1..], id) {
      case None => None
      case Some(k) => Some(k + 1)
    }
  }

  /** The conversation list after a message arrives, written conversation by conversation: the first
      conversation of the message's conversation gets it as its last message. */
  function WithLastMessage(convs: seq<Conversation>, m: Message): (r: seq<Conversation>)
    ensures |r| == |convs|
    ensures forall i | 0 <= i < |convs| ::
      r[i] == if FindConversation(convs, m.conversationId) == Some(i)
              then convs[i].(lastMessage := Some(m)) else convs[i]
  {
    if convs == [] then []
    else if convs[0].id == m.conversationId then [convs[0].(lastMessage := Some(m))] + convs[1..]
    else [convs[0]] + WithLastMessage(convs[1..], m)
  }

  /** Every conversation keeps its id and its place; at most one changes, and only its last message. */
  lemma WithLastMessageChangesOne(convs: seq<Conversation>, m: Message)
    ensures forall i | 0 <= i < |convs| :: WithLastMessage(convs, m)[i].id == convs[i].id
    ensures forall i | 0 <= i < |convs| && convs[i].id != m.conversationId :: WithLastMessage(convs, m)[i] == convs[i]
    ensures forall i, j | 0 <= i < j < |convs| && WithLastMessage(convs, m)[i] != convs[i] ::
      WithLastMessage(convs, m)[j] == convs[j]
    ensures (exists i | 0 <= i < |convs| :: convs[i].id == m.conversationId) ==>
      exists i | 0 <= i < |convs| :: WithLastMessage(convs, m)[i] == convs[i].(lastMessage := Some(m))
  {
    var found := FindConversation(convs, m.conversationId);
    if found.Some? {
      assert WithLastMessage(convs, m)[found.value] == convs[found.value].(lastMessage := Some(m));
    }
  }

  /** The typing list without one user (`filter` with `!==`). */
  function Without(users: seq<string>, u: string): (r: seq<string>)
    ensures u !in r
    ensures forall x | x != u :: x in r <==> x in users
  {
    Filter(users, x => x != u)
  }

  /** Removing a user keeps every other entry, as often as it occurred and in the same relative order. */
  lemma WithoutKeepsOthers(users: seq<string>, u: string)
    ensures IsSubsequence(Without(users, u), users)
    ensures forall x | x != u :: multiset(Without(users, u))[x] == multiset(users)[x]
    ensures NoDuplicates(users) ==> NoDuplicates(Without(users, u))
  {
    FilterIsSubsequence(users, x => x != u);
    FilterCounts(users, x => x != u);
    if NoDuplicates(users) {
      FilterNoDuplicates(users, x => x != u);
    }
  }

  class ChatState {
    var conversations: seq<Conversation>
    var activeConversation: Option<Conversation>
    var messages: seq<Message>
    var isLoading: bool
    var error: Option<string>
    var typingUsers: seq<string>

    /** The typing list holds each user at most once. */
    ghost predicate TypingDistinct()
      reads this`typingUsers
    {
      NoDuplicates(typingUsers)
    }

    /** The initial state: nothing loaded, not loading, no error, nobody typing. */
    constructor()
      ensures conversations == [] && activeConversation == None && messages == []
      ensures !isLoading && error == None && typingUsers == []
      ensures TypingDistinct()
    {
      conversations := [];
      activeConversation := None;
      messages := [];
      isLoading := false;
      error := None;
      typingUsers := [];
    }

    /** `setActiveConversation`. */
    method SetActiveConversation(c: Conversation)
      modifies this`activeConversation
      ensures activeConversation == Some(c)
    {
      activeConversation := Some(c);
    }

    /** `addMessage`: push the message, then find the conversation and set its last message. */
    method AddMessage(m: Message)
      modifies this`messages, this`conversations
      ensures messages == old(messages) + [m]
      ensures conversations == WithLastMessage(old(conversations), m)
    {
      messages := messages + [m];
      var found := FindConversation(conversations, m.conversationId);
      if found.Some? {
        var i := found.value;
        conversations := conversations[i := conversations[i].(lastMessage := Some(m))];
      }
      assert |conversations| == |WithLastMessage(old(conversations), m)|;
    }

    /** `setTypingUsers`: the list is taken as given, duplicates included. */
    method SetTypingUsers(users: seq<string>)
      modifies this`typingUsers
      ensures typingUsers == users
    {
      typingUsers := users;
    }

    /** `addTypingUser`: push the user unless already listed. */
    method AddTypingUser(u: string)
      modifies this`typingUsers
      ensures u in typingUsers
      ensures typingUsers == if u in old(typingUsers) then old(typingUsers) else old(typingUsers) + [u]
      ensures old(TypingDistinct()) ==> TypingDistinct()
    {
      if u !in typingUsers {
        if NoDuplicates(typingUsers) {
          AppendNoDuplicates(typingUsers, u);
        }
        typingUsers := typingUsers + [u];
      }
    }

    /** `removeTypingUser`. */
    method RemoveTypingUser(u: string)
      modifies this`typingUsers
      ensures typingUsers == Without(old(typingUsers), u)
      ensures u !in typingUsers && IsSubsequence(typingUsers, old(typingUsers))
      ensures old(TypingDistinct()) ==> TypingDistinct()
    {
      WithoutKeepsOthers(typingUsers, u);
      typingUsers := Without(typingUsers, u);
    }

    /** `clearError`. */
    method ClearError()
      modifies this`error
      ensures error == None
    {
      error := None;
    }

    /** `fetchConversations.pending` and `fetchMessages.pending`. */
    method FetchPending()
      modifies this`isLoading, this`error
      ensures isLoading && error == None
    {
      isLoading := true;
      error := None;
    }

    /** `fetchConversations.fulfilled`: the list is replaced by the loaded one. */
    method FetchConversationsFulfilled(loaded: seq<Conversation>)
      modifies this`isLoading, this`conversations
      ensures !isLoading && conversations == loaded
    {
      isLoading := false;
      conversations := loaded;
    }

    /** `fetchConversations.rejected`. */
    method FetchConversationsRejected(message: Option<string>)
      modifies this`isLoading, this`error
      ensures !isLoading && error == Some(ErrorText(message, FetchConversationsFailed))
    {
      isLoading := false;
      error := Some(ErrorText(message, FetchConversationsFailed));
    }

    /** `fetchMessages.fulfilled`: the message list is replaced by the loaded one. */
    method FetchMessagesFulfilled(loaded: seq<Message>)
      modifies this`isLoading, this`messages
      ensures !isLoading && messages == loaded
    {
      isLoading := false;
      messages := loaded;
    }

    /** `fetchMessages.rejected`. */
    method FetchMessagesRejected(message: Option<string>)
      modifies this`isLoading, this`error
      ensures !isLoading && error == Some(ErrorText(message, FetchMessagesFailed))
    {
      isLoading := false;
      error := Some(ErrorText(message, FetchMessagesFailed));
    }

    /** `sendMessage.pending`: only the error is cleared; the loading flag is left alone. */
    method SendPending()
      modifies this`error
      ensures error == None
    {
      error := None;
    }

    /** `sendMessage.fulfilled`: the stored message is appended (no conversation is updated). */
    method SendFulfilled(m: Message)
      modifies this`messages
      ensures messages == old(messages) + [m]
    {
      messages := messages + [m];
    }

    /** `sendMessage.rejected`: the messages stay as they were. */
    method SendRejected(message: Option<string>)
      modifies this`error
      ensures error == Some(ErrorText(message, SendMessageFailed))
    {
      error := Some(ErrorText(message, SendMessageFailed));
    }
  }
}
