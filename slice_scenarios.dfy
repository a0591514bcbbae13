/** Verified scenarios of the client reducers: what a caller can conclude from their contracts alone. */
module SliceScenarios {
  import opened Wrappers
  import ChatSlice
  import AuthSlice

  /** The same user typing twice is listed once; removing them leaves the other typist. */
  method TypingOnce()
  {
    var state := new ChatSlice.ChatState();
    state.AddTypingUser("a");
    state.AddTypingUser("b");
    state.AddTypingUser("a");
    assert state.typingUsers == ["a", "b"];
    state.RemoveTypingUser("a");
    assert "a" !in state.typingUsers && "b" in state.typingUsers;
    assert state.TypingDistinct();
  }

  /** Two conversations share an id: only the first receives the new last message. */
  method FirstConversationOnly()
  {
    var state := new ChatSlice.ChatState();
    var first := ChatSlice.Conversation("x", None, None, 0);
    var copy := ChatSlice.Conversation("x", Some("copy"), None, 0);
    state.FetchConversationsFulfilled([first, copy]);
    var m := ChatSlice.Message("m1", "hi", "a", "x");
    state.AddMessage(m);
    assert ChatSlice.FindConversation([first, copy], "x") == Some(0);
    assert state.conversations == [first.(lastMessage := Some(m)), copy];
    assert state.messages == [m];
  }

  /** A failed send keeps the messages and reports the fallback text when the error has none. */
  method FailedSend()
  {
    var state := new ChatSlice.ChatState();
    var m := ChatSlice.Message("m1", "hi", "a", "x");
    state.SendFulfilled(m);
    state.SendRejected(Some(""));
    assert state.messages == [m];
    assert state.error == Some(ChatSlice.SendMessageFailed);
  }

  /** A refused second login leaves the earlier user in place, no longer authenticated. */
  method LoginThenRefused()
  {
    var user := AuthSlice.User("u1", "u1@example.org", None, None, false);
    var auth := new AuthSlice.AuthState(None, None);
    auth.RequestPending();
    auth.LoginFulfilled(user, AuthSlice.Tokens("at", "rt"));
    auth.RequestPending();
    auth.LoginRejected("Invalid credentials");
    assert auth.user == Some(user) && !auth.isAuthenticated;
    assert auth.accessToken == Some("at") && auth.Valid();
    auth.RefreshRejected();
    assert auth.SignedOut() && auth.error == Some("Invalid credentials");
  }

  /** Start-up with stored tokens but no current user signs out. */
  method StartWithoutUser()
  {
    var auth := new AuthSlice.AuthState(Some("at"), Some("rt"));
    auth.InitializePending();
    auth.InitializeFulfilled(None);
    assert auth.SignedOut() && !auth.isLoading;
  }
}
