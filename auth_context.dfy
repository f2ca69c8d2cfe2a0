/** The client session (src/context/AuthContext.jsx): the `authReducer` state
    machine and the provider's start-up, login, register and logout steps over
    the browser's stored token and user. */
module AuthContext {
  import opened Wrappers
  import opened Helpers

  /** The user object kept in the session: `{ id, username, email, role }`. */
  datatype UserInfo = UserInfo(id: int, username: string, email: string, role: string)

  datatype AuthState = AuthState(user: Option<UserInfo>, token: Option<string>, loading: bool, isAuthenticated: bool)

  /** The actions the provider dispatches, plus any other type string. */
  datatype Action =
    | LoginSuccess(loginToken: Option<string>, loginUser: UserInfo)
    | Logout
    | SetLoading(value: bool)
    | InitAuth(initToken: Option<string>, initUser: UserInfo)
    | Unrecognised(name: string)

  /** JavaScript truthiness of an optional string. */
  predicate Truthy(s: Option<string>)
  {
    s.Some? && s.value != ""
  }

  const InitialState := AuthState(None, None, true, false)

  /** `authReducer(state, action)`. */
  function AuthReducer(state: AuthState, action: Action): AuthState
  {
    match action
    case LoginSuccess(token, user) => state.(user := Some(user), token := token, isAuthenticated := true, loading := false)
    case Logout => state.(user := None, token := None, isAuthenticated := false, loading := false)
    case SetLoading(value) => state.(loading := value)
    case InitAuth(token, user) => state.(user := Some(user), token := token, isAuthenticated := Truthy(token), loading := false)
    case Unrecognised(_) => state
  }

  lemma InitialStateFields()
    ensures InitialState.user.None? && InitialState.token.None?
    ensures InitialState.loading && !InitialState.isAuthenticated
  {
  }

  /** LOGIN_SUCCESS installs the payload and ends loading, whatever the prior state. */
  lemma LoginSuccessInstallsSession(s1: AuthState, s2: AuthState, token: Option<string>, user: UserInfo)
    ensures AuthReducer(s1, LoginSuccess(token, user)) == AuthReducer(s2, LoginSuccess(token, user))
    ensures var r := AuthReducer(s1, LoginSuccess(token, user));
      r.user == Some(user) && r.token == token && r.isAuthenticated && !r.loading
  {
  }

  /** LOGOUT forgets the whole session: every state ends in the same one. */
  lemma LogoutForgetsSession(s: AuthState)
    ensures AuthReducer(s, Logout) == AuthState(None, None, false, false)
  {
  }

  /** SET_LOADING changes only the loading flag. */
  lemma SetLoadingOnlyLoading(s: AuthState, value: bool)
    ensures AuthReducer(s, SetLoading(value)).loading == value
    ensures AuthReducer(s, SetLoading(value)).(loading := s.loading) == s
  {
  }

  /** INIT_AUTH authenticates exactly when the token is truthy, and ends loading. */
  lemma InitAuthAuthenticatesOnToken(s: AuthState, token: Option<string>, user: UserInfo)
    ensures AuthReducer(s, InitAuth(token, user)).isAuthenticated <==> Truthy(token)
    ensures !AuthReducer(s, InitAuth(token, user)).loading
    ensures AuthReducer(s, InitAuth(token, user)).user == Some(user)
  {
  }

  lemma UnrecognisedIsIdentity(s: AuthState, name: string)
    ensures AuthReducer(s, Unrecognised(name)) == s
  {
  }

  /** An authenticated session always has a user. */
  predicate SessionInvariant(s: AuthState)
  {
    s.isAuthenticated ==> s.user.Some?
  }

  lemma ReducerKeepsSessionInvariant(s: AuthState, action: Action)
    requires SessionInvariant(s)
    ensures SessionInvariant(AuthReducer(s, action))
  {
  }

  /** What `localStorage` holds under 'user': the JSON of a user object, or
      text that does not parse. */
  datatype StoredUser = UserJson(info: UserInfo) | Unparsable(text: string)

  /** The auth service's response: the user fields and the access token. */
  datatype AuthResponse = AuthResponse(id: int, username: string, email: string, role: string, accessToken: Option<string>)

  function ResponseUser(response: AuthResponse): UserInfo
  {
    UserInfo(response.id, response.username, response.email, response.role)
  }

  /** `AuthProvider`: the reducer's state and the two stored items. Stored
      strings are never null here; an empty stored token is falsy. */
  class AuthProvider {
    var state: AuthState
    var storedToken: Option<string>
    var storedUser: Option<StoredUser>

    constructor (token: Option<string>, user: Option<StoredUser>)
      ensures state == InitialState && storedToken == token && storedUser == user
    {
      state := InitialState;
      storedToken := token;
      storedUser := user;
    }

    method Dispatch(action: Action)
      modifies this
      ensures state == AuthReducer(old(state), action)
      ensures storedToken == old(storedToken) && storedUser == old(storedUser)
    {
      state := AuthReducer(state, action);
    }

    /** `initializeAuth`: restore the stored session when both items are present
        and the user parses; drop both items when it does not parse. */
    method InitializeAuth()
      modifies this
      ensures !state.loading
      ensures Truthy(old(storedToken)) && old(storedUser).Some? && old(storedUser).value.UserJson? ==>
        state == AuthReducer(old(state), InitAuth(old(storedToken), old(storedUser).value.info))
        && storedToken == old(storedToken) && storedUser == old(storedUser)
      ensures Truthy(old(storedToken)) && old(storedUser).Some? && old(storedUser).value.Unparsable? ==>
        state == AuthReducer(old(state), SetLoading(false)) && storedToken.None? && storedUser.None?
      ensures !(Truthy(old(storedToken)) && old(storedUser).Some?) ==>
        state == AuthReducer(old(state), SetLoading(false))
        && storedToken == old(storedToken) && storedUser == old(storedUser)
    {
      if Truthy(storedToken) && storedUser.Some? {
        match storedUser.value
        case UserJson(info) =>
          Dispatch(InitAuth(storedToken, info));
        case Unparsable(_) =>
          storedToken := None;
          storedUser := None;
          Dispatch(SetLoading(false));
      } else {
        Dispatch(SetLoading(false));
      }
    }

    /** The shared body of `login` and `register`: `response` is what the auth
        service call produced. On success the token and user are stored before
        LOGIN_SUCCESS; on failure loading is reset and the error is passed on. */
    method Authenticate(response: Result<AuthResponse, RequestError>) returns (r: Result<AuthResponse, RequestError>)
      modifies this
      ensures r == response
      ensures response.Ok? ==>
        storedToken == response.value.accessToken
        && storedUser == Some(UserJson(ResponseUser(response.value)))
        && state == AuthReducer(AuthReducer(old(state), SetLoading(true)),
                                LoginSuccess(response.value.accessToken, ResponseUser(response.value)))
      ensures response.Failure? ==>
        storedToken == old(storedToken) && storedUser == old(storedUser)
        && state == old(state).(loading := false)
    {
      Dispatch(SetLoading(true));
      match response
      case Ok(resp) =>
        var info := ResponseUser(resp);
        storedToken := resp.accessToken;
        storedUser := Some(UserJson(info));
        Dispatch(LoginSuccess(resp.accessToken, info));
        r := Ok(resp);
      case Failure(e) =>
        Dispatch(SetLoading(false));
        r := Failure(e);
    }

    /** `login(credentials)`; the credentials only reach the server. */
    method Login(response: Result<AuthResponse, RequestError>) returns (r: Result<AuthResponse, RequestError>)
      modifies this
      ensures r == response
      ensures response.Ok? ==>
        storedToken == response.value.accessToken
        && storedUser == Some(UserJson(ResponseUser(response.value)))
        && state == AuthReducer(AuthReducer(old(state), SetLoading(true)),
                                LoginSuccess(response.value.accessToken, ResponseUser(response.value)))
        && state.isAuthenticated && !state.loading && state.user == Some(ResponseUser(response.value))
        && state.token == response.value.accessToken
      ensures response.Failure? ==>
        storedToken == old(storedToken) && storedUser == old(storedUser)
        && state == old(state).(loading := false)
    {
      r := Authenticate(response);
    }

    /** `register(userData)`: the same steps as login. */
    method Register(response: Result<AuthResponse, RequestError>) returns (r: Result<AuthResponse, RequestError>)
      modifies this
      ensures r == response
      ensures response.Ok? ==>
        storedToken == response.value.accessToken
        && storedUser == Some(UserJson(ResponseUser(response.value)))
        && state == AuthReducer(AuthReducer(old(state), SetLoading(true)),
                                LoginSuccess(response.value.accessToken, ResponseUser(response.value)))
        && state.isAuthenticated && !state.loading && state.user == Some(ResponseUser(response.value))
        && state.token == response.value.accessToken
      ensures response.Failure? ==>
        storedToken == old(storedToken) && storedUser == old(storedUser)
        && state == old(state).(loading := false)
    {
      r := Authenticate(response);
    }

    /** `logout()`: the auth service drops both stored items, then LOGOUT. */
    method Logout()
      modifies this
      ensures storedToken.None? && storedUser.None?
      ensures state == AuthState(None, None, false, false)
    {
      storedToken := None;
      storedUser := None;
      Dispatch(Action.Logout);
    }
  }
}
