/** The client's authentication state and the reducers that update it in place. */
module AuthSlice {
  import opened Wrappers

  datatype User = User(id: string, email: string, username: Option<string>, avatar: Option<string>,
                       isOnline: bool)

  /** A `Partial<User>`: `Some` is a key the object carries, `None` a key it leaves out. */
  datatype UserPatch = UserPatch(id: Option<string>, email: Option<string>, username: Option<string>,
                                 avatar: Option<string>, isOnline: Option<bool>)

  datatype Tokens = Tokens(accessToken: string, refreshToken: string)

  const NoChanges := UserPatch(None, None, None, None, None)

  function Override<T>(current: T, given: Option<T>): (r: T)
    ensures given.Some? ==> r == given.value
    ensures given.None? ==> r == current
  {
    if given.Some? then given.value else current
  }

  /** `{ ...user, ...patch }`: every key the patch carries wins, every other key keeps the user's value. */
  function Merge(user: User, patch: UserPatch): (r: User)
    ensures patch.id.Some? ==> r.id == patch.id.value
    ensures patch.id.None? ==> r.id == user.id
    ensures patch.email.Some? ==> r.email == patch.email.value
    ensures patch.email.None? ==> r.email == user.email
    ensures patch.username.Some? ==> r.username == patch.username
    ensures patch.username.None? ==> r.username == user.username
    ensures patch.avatar.Some? ==> r.avatar == patch.avatar
    ensures patch.avatar.None? ==> r.avatar == user.avatar
    ensures patch.isOnline.Some? ==> r.isOnline == patch.isOnline.value
    ensures patch.isOnline.None? ==> r.isOnline == user.isOnline
  {
    User(Override(user.id, patch.id), Override(user.email, patch.email),
         if patch.username.Some? then patch.username else user.username,
         if patch.avatar.Some? then patch.avatar else user.avatar,
         Override(user.isOnline, patch.isOnline))
  }

  /** The patch `{ ...p, ...q }`: the keys of both, `q` winning where both carry one. */
  function Then(p: UserPatch, q: UserPatch): UserPatch
  {
    UserPatch(if q.id.Some? then q.id else p.id,
              if q.email.Some? then q.email else p.email,
              if q.username.Some? then q.username else p.username,
              if q.avatar.Some? then q.avatar else p.avatar,
              if q.isOnline.Some? then q.isOnline else p.isOnline)
  }

  /** An empty patch changes nothing, and a patch applied twice is applied once. */
  lemma MergeIdentityAndIdempotent(user: User, patch: UserPatch)
    ensures Merge(user, NoChanges) == user
    ensures Merge(Merge(user, patch), patch) == Merge(user, patch)
  {
  }

  /** Two successive merges are one merge of the combined patch. */
  lemma MergeThen(user: User, p: UserPatch, q: UserPatch)
    ensures Merge(Merge(user, p), q) == Merge(user, Then(p, q))
  {
  }

  class AuthState {
    var user: Option<User>
    var accessToken: Option<string>
    var refreshToken: Option<string>
    var isAuthenticated: bool
    var isLoading: bool
    var error: Option<string>

    /** Authenticated state always has a user. */
    ghost predicate Valid()
      reads this`user, this`isAuthenticated
    {
      isAuthenticated ==> user.Some?
    }

    /** Signed out: no user, no tokens, not authenticated. */
    ghost predicate SignedOut()
      reads this`user, this`accessToken, this`refreshToken, this`isAuthenticated
    {
      user == None && accessToken == None && refreshToken == None && !isAuthenticated
    }

    /** The initial state: the tokens found in browser storage, no user, loading until initialised. */
    constructor(storedAccess: Option<string>, storedRefresh: Option<string>)
      ensures user == None && accessToken == storedAccess && refreshToken == storedRefresh
      ensures !isAuthenticated && isLoading && error == None
      ensures Valid()
    {
      user := None;
      accessToken := storedAccess;
      refreshToken := storedRefresh;
      isAuthenticated := false;
      isLoading := true;
      error := None;
    }

    /** `clearError`. */
    method ClearError()
      modifies this`error
      ensures error == None
    {
      error := None;
    }

    /** `updateUser`: merge the patch into the user if there is one; with no user nothing changes. */
    method UpdateUser(patch: UserPatch)
      requires Valid()
      modifies this`user
      ensures Valid()
      ensures old(user).Some? ==> user == Some(Merge(old(user).value, patch))
      ensures old(user).None? ==> user == None
    {
      if user.Some? {
        user := Some(Merge(user.value, patch));
      }
    }

    /** `login.pending` and `register.pending`. */
    method RequestPending()
      modifies this`isLoading, this`error
      ensures isLoading && error == None
    {
      isLoading := true;
      error := None;
    }

    /** `login.fulfilled`: signed in with the returned user and tokens. */
    method LoginFulfilled(signedIn: User, tokens: Tokens)
      modifies this`isLoading, this`user, this`accessToken, this`refreshToken, this`isAuthenticated, this`error
      ensures Valid()
      ensures !isLoading && user == Some(signedIn) && isAuthenticated && error == None
      ensures accessToken == Some(tokens.accessToken) && refreshToken == Some(tokens.refreshToken)
    {
      isLoading := false;
      user := Some(signedIn);
      accessToken := Some(tokens.accessToken);
      refreshToken := Some(tokens.refreshToken);
      isAuthenticated := true;
      error := None;
    }

    /** `login.rejected`: not authenticated; the user and the tokens are left as they were. */
    method LoginRejected(reason: string)
      modifies this`isLoading, this`error, this`isAuthenticated
      ensures Valid()
      ensures !isLoading && error == Some(reason) && !isAuthenticated
    {
      isLoading := false;
      error := Some(reason);
      isAuthenticated := false;
    }

    /** `register.fulfilled`: registering does not sign in. */
    method RegisterFulfilled()
      modifies this`isLoading, this`error
      ensures !isLoading && error == None
    {
      isLoading := false;
      error := None;
    }

    /** `register.rejected`. */
    method RegisterRejected(reason: string)
      modifies this`isLoading, this`error
      ensures !isLoading && error == Some(reason)
    {
      isLoading := false;
      error := Some(reason);
    }

    /** `logout.fulfilled`: signed out, error cleared. */
    method LogoutFulfilled()
      modifies this`user, this`accessToken, this`refreshToken, this`isAuthenticated, this`error
      ensures Valid() && SignedOut() && error == None
    {
      user := None;
      accessToken := None;
      refreshToken := None;
      isAuthenticated := false;
      error := None;
    }

    /** `refreshToken.fulfilled`: both tokens replaced, nothing else. */
    method RefreshFulfilled(tokens: Tokens)
      modifies this`accessToken, this`refreshToken
      ensures accessToken == Some(tokens.accessToken) && refreshToken == Some(tokens.refreshToken)
    {
      accessToken := Some(tokens.accessToken);
      refreshToken := Some(tokens.refreshToken);
    }

    /** `refreshToken.rejected`: signed out; the error is left as it was. */
    method RefreshRejected()
      modifies this`user, this`accessToken, this`refreshToken, this`isAuthenticated
      ensures Valid() && SignedOut()
    {
      user := None;
      accessToken := None;
      refreshToken := None;
      isAuthenticated := false;
    }

    /** `initializeAuth.pending`. */
    method InitializePending()
      modifies this`isLoading
      ensures isLoading
    {
      isLoading := true;
    }

    /** `initializeAuth.fulfilled`: a user signs in; no user signs out. */
    method InitializeFulfilled(current: Option<User>)
      modifies this`isLoading, this`user, this`accessToken, this`refreshToken, this`isAuthenticated
      ensures Valid() && !isLoading
      ensures current.Some? ==> user == current && isAuthenticated
      ensures current.Some? ==> accessToken == old(accessToken) && refreshToken == old(refreshToken)
      ensures current.None? ==> SignedOut()
    {
      isLoading := false;
      if current.Some? {
        user := current;
        isAuthenticated := true;
      } else {
        user := None;
        accessToken := None;
        refreshToken := None;
        isAuthenticated := false;
      }
    }

    /** `initializeAuth.rejected`: signed out. */
    method InitializeRejected()
      modifies this`isLoading, this`user, this`accessToken, this`refreshToken, this`isAuthenticated
      ensures Valid() && !isLoading && SignedOut()
    {
      isLoading := false;
      user := None;
      accessToken := None;
      refreshToken := None;
      isAuthenticated := false;
    }
  }
}
