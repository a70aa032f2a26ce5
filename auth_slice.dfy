/**
 * The client's authentication state and the case reducers that update it
 * when a login, register, profile, auth-check or logout request starts,
 * succeeds or fails. The requests and local storage are not modelled: the
 * stored token is the constructor's argument, and results arrive as the
 * reducers' arguments.
 */
module AuthSlice {
  import opened Wrappers

  datatype User = User(
    id: string, email: string, fullName: string,
    artistName: Option<string>, profileImageUrl: Option<string>, bio: Option<string>,
    createdAt: string, updatedAt: string, lastLoginAt: Option<string>)

  /** The slice's draft state. */
  class AuthState {
    var token: Option<string>
    var user: Option<User>
    var isAuthenticated: bool
    var isLoading: bool
    var error: Option<string>

    /** An authenticated state always has a user, and no error is shown while loading. */
    ghost predicate Valid()
      reads this
    {
      && (isAuthenticated ==> user.Some?)
      && (isLoading ==> error == None)
    }

    /** initialState, with the token found in local storage (if any). */
    constructor (storedToken: Option<string>)
      ensures Valid()
      ensures token == storedToken && user == None && !isAuthenticated && isLoading && error == None
    {
      token := storedToken;
      user := None;
      isAuthenticated := false;
      isLoading := true;
      error := None;
    }

    /** The pending case of login, register, getUserProfile, updateUserProfile and checkAuth. */
    method Pending()
      requires Valid()
      modifies this
      ensures Valid()
      ensures isLoading && error == None
      ensures token == old(token) && user == old(user) && isAuthenticated == old(isAuthenticated)
    {
      isLoading := true;
      error := None;
    }

    /** login.fulfilled and register.fulfilled: the session comes from the payload. */
    method LoginOrRegisterFulfilled(payloadToken: string, payloadUser: User)
      modifies this
      ensures Valid()
      ensures token == Some(payloadToken) && user == Some(payloadUser)
      ensures isAuthenticated && !isLoading && error == None
    {
      isLoading := false;
      isAuthenticated := true;
      token := Some(payloadToken);
      user := Some(payloadUser);
      error := None;
    }

    /** login.rejected, getUserProfile.rejected and checkAuth.rejected: the session is cleared. */
    method SessionRejected(message: string)
      modifies this
      ensures Valid()
      ensures token == None && user == None && !isAuthenticated
      ensures !isLoading && error == Some(message)
    {
      isLoading := false;
      isAuthenticated := false;
      token := None;
      user := None;
      error := Some(message);
    }

    /** register.rejected: not authenticated, but token and user are left as they were. */
    method RegisterRejected(message: string)
      modifies this
      ensures Valid()
      ensures !isAuthenticated && !isLoading && error == Some(message)
      ensures token == old(token) && user == old(user)
    {
      isLoading := false;
      isAuthenticated := false;
      error := Some(message);
    }

    /** getUserProfile.fulfilled and checkAuth.fulfilled: the user is set; the token is untouched. */
    method ProfileFulfilled(payload: User)
      modifies this
      ensures Valid()
      ensures user == Some(payload) && isAuthenticated && !isLoading && error == None
      ensures token == old(token)
    {
      isLoading := false;
      isAuthenticated := true;
      user := Some(payload);
      error := None;
    }

    /** updateUserProfile.fulfilled: only the user is replaced. */
    method UpdateProfileFulfilled(payload: User)
      requires Valid()
      modifies this
      ensures Valid()
      ensures user == Some(payload) && !isLoading && error == None
      ensures token == old(token) && isAuthenticated == old(isAuthenticated)
    {
      isLoading := false;
      user := Some(payload);
      error := None;
    }

    /** updateUserProfile.rejected: the session survives a failed profile update. */
    method UpdateProfileRejected(message: string)
      requires Valid()
      modifies this
      ensures Valid()
      ensures !isLoading && error == Some(message)
      ensures token == old(token) && user == old(user) && isAuthenticated == old(isAuthenticated)
    {
      isLoading := false;
      error := Some(message);
    }

    /** logout.fulfilled: back to a signed-out state, whatever the state before. */
    method LogoutFulfilled()
      modifies this
      ensures Valid()
      ensures token == None && user == None && !isAuthenticated && !isLoading && error == None
    {
      token := None;
      user := None;
      isAuthenticated := false;
      isLoading := false;
      error := None;
    }
  }
}
