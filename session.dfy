// The client session store (Frontend/src/contexts/AuthContext.jsx): the
// provider's `user`, `token` and `isLoading` state, the two localStorage keys
// it reads and writes, and the login / register / logout operations as
// functions of an abstract server reply.

module Session {
  import opened Common

  /** The user object the backend returns and the provider keeps. */
  datatype User = User(id: int, name: string, email: string, role: Option<string>)

  /** `user?.role`: the role of a user that may be absent. */
  function RoleOf(u: Option<User>): Option<string> {
    if u.Some? then u.value.role else None
  }

  /** The text kept under the 'user' storage key: `JSON.stringify` of a user,
      or the text "undefined" that `setItem` writes for an undefined value. */
  datatype StoredUser = UserJson(user: User) | UndefinedText

  /** The fields of a parsed login or register response body that the
      provider reads; a field the body lacks is `None` (undefined). */
  datatype AuthBody = AuthBody(token: Option<string>, user: Option<User>, message: Option<string>)

  /** What `await fetch(...)` and `await response.json()` yield together:
      a parsed body with the response's `ok` flag, or a rejection of either. */
  datatype AuthReply = Replied(ok: bool, body: AuthBody) | Failed

  datatype LoginResult = LoginResult(success: bool, user: Option<User>, message: Option<string>)

  datatype RegisterResult = RegisterResult(success: bool, message: Option<string>)

  /** The provider's React state together with the two storage keys. */
  datatype SessionState = SessionState(
    user: Option<User>,
    token: Option<string>,
    isLoading: bool,
    storedToken: Option<string>,
    storedUser: Option<StoredUser>)

  const NetworkError: string := "Network error"

  /** `!!token && !!user`. */
  function IsAuthenticated(s: SessionState): (b: bool)
    ensures b <==> "Authorization" in AuthHeaders(s.token) && s.user.Some?
  {
    Truthy(s.token) && s.user.Some?
  }

  /** What `localStorage.setItem(key, value)` keeps for a string value that
      may be undefined: the value converted to a string. */
  function StorageText(value: Option<string>): string {
    if value.Some? then value.value else "undefined"
  }

  /** The state right after the first render: `token` read from storage, no
      user, still loading. */
  function Mounted(storedToken: Option<string>, storedUser: Option<StoredUser>): SessionState {
    SessionState(None, storedToken, true, storedToken, storedUser)
  }

  /** The mount effect. Both keys present: `setToken` first, then
      `setUser(JSON.parse(storedUser))`, and `JSON.parse("undefined")` throws,
      which ends the effect before `setIsLoading(false)`. The result is the
      state at the throw; React then unmounts the tree, which is not modelled. */
  function Restore(s: SessionState): (r: SessionState)
    ensures r.storedToken == s.storedToken && r.storedUser == s.storedUser
    ensures r.isLoading <==> s.isLoading && Truthy(s.storedToken) && s.storedUser == Some(UndefinedText)
    ensures Truthy(s.storedToken) && s.storedUser.Some? ==> r.token == s.storedToken
    ensures !(Truthy(s.storedToken) && s.storedUser.Some?) ==> r.token == s.token && r.user == s.user
    ensures r.user != s.user <==> Truthy(s.storedToken) && s.storedUser.Some? && s.storedUser.value.UserJson?
                                  && s.user != Some(s.storedUser.value.user)
  {
    if Truthy(s.storedToken) && s.storedUser.Some? then
      match s.storedUser.value
      case UserJson(u) => s.(token := s.storedToken, user := Some(u), isLoading := false)
      case UndefinedText => s.(token := s.storedToken)
    else
      s.(isLoading := false)
  }

  /** `login`: the new state and the value it resolves to. */
  function Login(s: SessionState, reply: AuthReply): (r: (SessionState, LoginResult))
    ensures r.1.success <==> reply.Replied? && reply.ok && reply.body.user.Some?
    ensures r.1.success ==> r.1 == LoginResult(true, reply.body.user, None)
    ensures !(reply.Replied? && reply.ok) ==> r.0 == s
    ensures reply.Failed? ==> r.1 == LoginResult(false, None, Some(NetworkError))
    ensures reply.Replied? && !reply.ok ==> r.1 == LoginResult(false, None, reply.body.message)
    ensures reply.Replied? && reply.ok && reply.body.user.None? ==>
              r.1 == LoginResult(false, None, Some(NetworkError))
    ensures reply.Replied? && reply.ok ==>
              r.0 == SessionState(reply.body.user, reply.body.token, s.isLoading,
                                  Some(StorageText(reply.body.token)),
                                  Some(if reply.body.user.Some? then UserJson(reply.body.user.value) else UndefinedText))
  {
    match reply
    case Failed => (s, LoginResult(false, None, Some(NetworkError)))
    case Replied(ok, data) =>
      if !ok then (s, LoginResult(false, None, data.message))
      else
        var written := SessionState(
          data.user, data.token, s.isLoading,
          Some(StorageText(data.token)),
          Some(if data.user.Some? then UserJson(data.user.value) else UndefinedText));
        // the welcome toast reads `data.user.role`, which throws when the body has no user
        if data.user.None? then (written, LoginResult(false, None, Some(NetworkError)))
        else (written, LoginResult(true, data.user, None))
  }

  /** `register`: the value it resolves to. It reads and writes no state. */
  function Register(reply: AuthReply): (r: RegisterResult)
    ensures r.success <==> reply.Replied? && reply.ok
    ensures reply.Failed? ==> r.message == Some(NetworkError)
    ensures reply.Replied? && !reply.ok ==> r.message == reply.body.message
  {
    match reply
    case Failed => RegisterResult(false, Some(NetworkError))
    case Replied(ok, data) => if ok then RegisterResult(true, None) else RegisterResult(false, data.message)
  }

  /** `logout`: both keys removed and both fields nulled. */
  function Logout(s: SessionState): (r: SessionState)
    ensures r.user.None? && r.token.None? && r.storedToken.None? && r.storedUser.None?
    ensures r.isLoading == s.isLoading
    ensures !IsAuthenticated(r)
  {
    s.(user := None, token := None, storedToken := None, storedUser := None)
  }

  /** `getAuthHeaders`: the Bearer authorization header of section 2.1 of
      RFC 6750 when a token is held, otherwise no header at all. */
  function AuthHeaders(token: Option<string>): (h: map<string, string>)
    ensures "Authorization" in h <==> Truthy(token)
    ensures h.Keys <= {"Authorization"}
    ensures Truthy(token) ==> h["Authorization"] == "Bearer " + token.value
  {
    if Truthy(token) then map["Authorization" := "Bearer " + token.value] else map[]
  }

  /** A second logout changes nothing. */
  lemma LogoutIdempotent(s: SessionState)
    ensures Logout(Logout(s)) == Logout(s)
  {
  }

  /** A stored token without a stored user: after the mount effect the token
      is held but the session is not authenticated. */
  lemma TokenWithoutUserIsNotAuthenticated(t: string)
    requires t != ""
    ensures Restore(Mounted(Some(t), None)).token == Some(t)
    ensures !IsAuthenticated(Restore(Mounted(Some(t), None)))
    ensures !Restore(Mounted(Some(t), None)).isLoading
  {
  }

  /** The mount effect restores the session exactly when both keys hold a
      token and a user, and then it is authenticated. */
  lemma RestoreAuthenticates(storedToken: Option<string>, storedUser: Option<StoredUser>)
    ensures IsAuthenticated(Restore(Mounted(storedToken, storedUser))) <==>
              Truthy(storedToken) && storedUser.Some? && storedUser.value.UserJson?
  {
  }

  /** The backend names the token `access_token`, so an ok body read as
      `data.token` has none: the user is set but the session is not
      authenticated. */
  lemma LoginWithoutTokenField(s: SessionState, u: User)
    ensures var r := Login(s, Replied(true, AuthBody(None, Some(u), None)));
            r.1.success && r.0.user == Some(u) && r.0.token.None? && !IsAuthenticated(r.0)
  {
  }

  /** ... but storage then holds the text "undefined" under 'token', which is
      truthy, so after a reload the restored session is authenticated with
      the token "undefined". */
  lemma ReloadAfterLoginWithoutTokenField(s: SessionState, u: User)
    ensures var r := Login(s, Replied(true, AuthBody(None, Some(u), None))).0;
            var back := Restore(Mounted(r.storedToken, r.storedUser));
            back.token == Some("undefined") && back.user == Some(u) && IsAuthenticated(back)
  {
    var r := Login(s, Replied(true, AuthBody(None, Some(u), None))).0;
    assert r.storedToken == Some("undefined");
  }

  /** An ok body without a user: the state and storage are written before the
      toast throws, the call reports a network error, and the next mount
      effect throws inside `JSON.parse` with loading still set. */
  lemma LoginWithoutUserField(s: SessionState, t: string)
    requires t != ""
    ensures var r := Login(s, Replied(true, AuthBody(Some(t), None, None)));
            !r.1.success && r.1.message == Some(NetworkError) && r.0.token == Some(t)
            && Restore(Mounted(r.0.storedToken, r.0.storedUser)).isLoading
  {
  }

  /** The provider component: its state cells and storage. */
  class AuthProvider {
    var user: Option<User>
    var token: Option<string>
    var isLoading: bool
    var storedToken: Option<string>
    var storedUser: Option<StoredUser>

    function State(): SessionState
      reads this
    {
      SessionState(user, token, isLoading, storedToken, storedUser)
    }

    constructor (storedToken0: Option<string>, storedUser0: Option<StoredUser>)
      ensures State() == Mounted(storedToken0, storedUser0)
    {
      user := None;
      isLoading := true;
      token := storedToken0;
      storedToken := storedToken0;
      storedUser := storedUser0;
    }

    method RunMountEffect()
      modifies this
      ensures State() == Restore(old(State()))
    {
      if Truthy(storedToken) && storedUser.Some? {
        token := storedToken;
        match storedUser.value
        case UserJson(u) =>
          user := Some(u);
        case UndefinedText =>
          return;
      }
      isLoading := false;
    }

    method DoLogin(reply: AuthReply) returns (result: LoginResult)
      modifies this
      ensures (State(), result) == Login(old(State()), reply)
    {
      if reply.Failed? {
        return LoginResult(false, None, Some(NetworkError));
      }
      var data := reply.body;
      if !reply.ok {
        return LoginResult(false, None, data.message);
      }
      storedToken := Some(StorageText(data.token));
      storedUser := Some(if data.user.Some? then UserJson(data.user.value) else UndefinedText);
      token := data.token;
      user := data.user;
      if data.user.None? {
        return LoginResult(false, None, Some(NetworkError));
      }
      result := LoginResult(true, data.user, None);
    }

    method DoRegister(reply: AuthReply) returns (result: RegisterResult)
      ensures result.success <==> reply.Replied? && reply.ok
      ensures !result.success ==> result.message == (if reply.Failed? then Some(NetworkError) else reply.body.message)
    {
      if reply.Failed? {
        return RegisterResult(false, Some(NetworkError));
      }
      if reply.ok {
        result := RegisterResult(true, None);
      } else {
        result := RegisterResult(false, reply.body.message);
      }
    }

    method DoLogout()
      modifies this
      ensures State() == Logout(old(State()))
    {
      storedToken := None;
      storedUser := None;
      token := None;
      user := None;
    }
  }
}
