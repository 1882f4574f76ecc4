/** The signed-in session: the user held in memory, the loading flag, and
    the two browser-storage keys that carry the session across page loads
    (`token`, any non-empty text, and `userData`, the user record as
    `UserCodec.Encode` writes it). Storage is a map from key to text; the
    login request's reply and the clock are inputs. */
module Session {
  import opened Wrappers
  import opened Text
  import opened JsValues
  import opened Types
  import UserCodec

  type Storage = map<string, string>

  const TokenKey: string := "token"
  const UserDataKey: string := "userData"

  datatype State = State(user: Option<User>, loading: bool, storage: Storage)

  /** `localStorage.getItem(key)` checked for truthiness. */
  predicate Holds(storage: Storage, key: string) {
    key in storage && storage[key] != ""
  }

  /** Storage without the two session keys; every other key is kept. */
  function ClearSession(storage: Storage): (r: Storage)
    ensures TokenKey !in r && UserDataKey !in r
    ensures forall k :: k in storage && k != TokenKey && k != UserDataKey ==> k in r && r[k] == storage[k]
    ensures r.Keys <= storage.Keys
  {
    storage - {TokenKey, UserDataKey}
  }

  // ---------------------------------------------------------------------
  // Start-up
  // ---------------------------------------------------------------------

  /** `checkAuth()`: a stored user that reads back is signed in; one that
      does not parse clears both session keys. Loading ends either way. */
  function CheckAuth(st: State): (r: State)
    ensures !r.loading
    ensures Holds(st.storage, UserDataKey) && UserCodec.Decode(st.storage[UserDataKey]).Some? ==>
      r == State(UserCodec.Decode(st.storage[UserDataKey]), false, st.storage)
    ensures Holds(st.storage, UserDataKey) && UserCodec.Decode(st.storage[UserDataKey]).None? ==>
      r == State(st.user, false, ClearSession(st.storage))
    ensures !Holds(st.storage, UserDataKey) ==> r == st.(loading := false)
  {
    if Holds(st.storage, UserDataKey) then
      match UserCodec.Decode(st.storage[UserDataKey])
      case Some(u) => State(Some(u), false, st.storage)
      case None => State(st.user, false, ClearSession(st.storage))
    else st.(loading := false)
  }

  /** The provider's first render and its mount effect: the stored user is
      only read when a token is present. */
  function Start(storage: Storage): (r: State)
    ensures !r.loading
    ensures r.user.Some? ==> Holds(storage, TokenKey) && Holds(storage, UserDataKey)
    ensures !Holds(storage, TokenKey) ==> r == State(None, false, storage)
  {
    var initial := State(None, true, storage);
    if Holds(storage, TokenKey) then CheckAuth(initial) else initial.(loading := false)
  }

  /** Stored user data without a token is ignored and left in place. */
  lemma UserDataWithoutTokenIgnored(storage: Storage)
    requires !Holds(storage, TokenKey) && Holds(storage, UserDataKey)
    ensures Start(storage).user.None? && Start(storage).storage == storage
  {
  }

  /** Unreadable user data with a token ends signed out with both keys
      gone and the rest of storage kept. */
  lemma CorruptUserDataCleared(storage: Storage)
    requires Holds(storage, TokenKey) && Holds(storage, UserDataKey)
    requires UserCodec.Decode(storage[UserDataKey]).None?
    ensures Start(storage) == State(None, false, ClearSession(storage))
  {
  }

  // ---------------------------------------------------------------------
  // Login
  // ---------------------------------------------------------------------

  /** The `user` object of a login reply, with the fields the session
      copies. */
  datatype ReplyUser = ReplyUser(id: int, name: string, email: string, role: string, avatarUrl: Json)

  /** The `user` member of a login reply: absent, `null`, or an object. */
  datatype ReplyUserField = NoUser | NullUser | UserObject(value: ReplyUser)

  /** The parsed body of a login reply. */
  datatype LoginData = LoginData(result: Json, user: ReplyUserField, msg: Json)

  /** The HTTP reply: its `ok` flag and status, and its body as parsed (or
      the error parsing it threw). */
  datatype HttpReply = HttpReply(ok: bool, status: int, body: Outcome<LoginData>)

  /** `${a}${b}` where `a` may be `undefined`. */
  function Interpolate(prefix: Option<string>, value: Json): (r: string)
    ensures prefix.Some? ==> r == prefix.value + ToStr(value)
    ensures prefix.None? ==> r == "undefined" + ToStr(value)
  {
    (if prefix.Some? then prefix.value else "undefined") + ToStr(value)
  }

  /** The session user built from a reply user: the avatar path is
      prefixed with the back-end URL. */
  function SessionUser(u: ReplyUser, backEndUrl: Option<string>): (r: User)
    ensures r.id == u.id && r.name == u.name && r.email == u.email && r.role == u.role
    ensures r.avatarUrl == Some(Interpolate(backEndUrl, u.avatarUrl))
  {
    User(u.id, u.name, u.email, u.role, Some(Interpolate(backEndUrl, u.avatarUrl)))
  }

  /** `login(email, password)`, given the outcome of the request and the
      clock: on success the token and the user are stored and the user is
      signed in; every failure leaves the state as it was and rejects
      with the message of the error raised. */
  function Login(st: State, fetched: Outcome<HttpReply>, backEndUrl: Option<string>, now: int): (r: (State, Outcome<()>))
    ensures r.1.Threw? ==> r.0 == st
    ensures r.1.Returned? <==>
      fetched.Returned? && fetched.value.ok && fetched.value.body.Returned?
      && Truthy(fetched.value.body.value.result) && fetched.value.body.value.user.UserObject?
    ensures r.1.Returned? ==>
      var u := SessionUser(fetched.value.body.value.user.value, backEndUrl);
      r.0 == st.(user := Some(u),
                 storage := st.storage[TokenKey := "auth-token-" + IntToString(now)][UserDataKey := UserCodec.Encode(u)])
    ensures fetched.Returned? && !fetched.value.ok ==> r.1 == Threw("HTTP error! status: " + IntToString(fetched.value.status))
    ensures fetched.Returned? && fetched.value.ok && fetched.value.body.Returned? && Truthy(fetched.value.body.value.result) ==>
      (fetched.value.body.value.user.NoUser? ==> r.1 == Threw("Cannot read properties of undefined (reading 'id')"))
      && (fetched.value.body.value.user.NullUser? ==> r.1 == Threw("Cannot read properties of null (reading 'id')"))
  {
    match fetched
    case Threw(m) => (st, Threw(m))
    case Returned(reply) =>
      if !reply.ok then (st, Threw("HTTP error! status: " + IntToString(reply.status)))
      else
        match reply.body
        case Threw(m) => (st, Threw(m))
        case Returned(data) =>
          if !Truthy(data.result) then (st, Threw(if Truthy(data.msg) then ToStr(data.msg) else "Login failed"))
          else
            match data.user
            case NoUser => (st, Threw("Cannot read properties of undefined (reading 'id')"))
            case NullUser => (st, Threw("Cannot read properties of null (reading 'id')"))
            case UserObject(ru) =>
              var u := SessionUser(ru, backEndUrl);
              var token := "auth-token-" + IntToString(now);
              (st.(user := Some(u), storage := st.storage[TokenKey := token][UserDataKey := UserCodec.Encode(u)]), Returned(()))
  }

  /** A refused login rejects with the server's message, or "Login failed"
      when it sent none. */
  lemma RefusedLoginMessage(st: State, status: int, data: LoginData, backEndUrl: Option<string>, now: int)
    requires !Truthy(data.result)
    ensures Login(st, Returned(HttpReply(true, status, Returned(data))), backEndUrl, now).1
      == Threw(if Truthy(data.msg) then ToStr(data.msg) else "Login failed")
  {
  }

  /** A successful login survives a reload: starting from the storage it
      leaves signs the same user in again. */
  lemma LoginSurvivesReload(st: State, fetched: Outcome<HttpReply>, backEndUrl: Option<string>, now: int)
    requires Login(st, fetched, backEndUrl, now).1.Returned?
    ensures var after := Login(st, fetched, backEndUrl, now).0;
      Start(after.storage) == State(after.user, false, after.storage)
  {
    var after := Login(st, fetched, backEndUrl, now).0;
    var u := after.user.value;
    UserCodec.DecodeEncode(u);
    TokenIsNonEmpty(now);
    assert after.storage[UserDataKey] == UserCodec.Encode(u);
  }

  lemma TokenIsNonEmpty(now: int)
    ensures "auth-token-" + IntToString(now) != ""
  {
    assert ("auth-token-" + IntToString(now))[0] == 'a';
  }

  // ---------------------------------------------------------------------
  // Logout and avatar
  // ---------------------------------------------------------------------

  const LoginPath: string := "/login"

  /** `logout()`: both session keys go, the user is signed out, and the
      browser is sent to the login page. */
  function Logout(st: State): (r: (State, string))
    ensures r.0.user.None? && r.0.loading == st.loading
    ensures r.0.storage == ClearSession(st.storage)
    ensures r.1 == LoginPath
  {
    (st.(user := None, storage := ClearSession(st.storage)), LoginPath)
  }

  /** After a logout a reload starts signed out. */
  lemma LogoutSurvivesReload(st: State)
    ensures Start(Logout(st).0.storage) == State(None, false, Logout(st).0.storage)
  {
  }

  /** `updateUserAvatar(path)`: without a signed-in user nothing happens;
      otherwise the avatar becomes the back-end URL plus the path, in
      memory and in storage alike. */
  function UpdateUserAvatar(st: State, path: string, backEndUrl: Option<string>): (r: State)
    ensures st.user.None? ==> r == st
    ensures st.user.Some? ==> r.user == Some(st.user.value.(avatarUrl := Some(Interpolate(backEndUrl, JStr(path)))))
    ensures st.user.Some? ==> r.storage == st.storage[UserDataKey := UserCodec.Encode(r.user.value)]
    ensures r.loading == st.loading
  {
    match st.user
    case None => st
    case Some(u) =>
      var updated := u.(avatarUrl := Some(Interpolate(backEndUrl, JStr(path))));
      st.(user := Some(updated), storage := st.storage[UserDataKey := UserCodec.Encode(updated)])
  }

  /** Memory and storage agree on the signed-in user: a reload reads back
      exactly the user in memory. */
  predicate Persisted(st: State) {
    st.user.Some? ==>
      (Holds(st.storage, TokenKey) && Holds(st.storage, UserDataKey)
       && UserCodec.Decode(st.storage[UserDataKey]) == st.user)
  }

  /** Changing the avatar keeps memory and storage in agreement. */
  lemma UpdateUserAvatarPersists(st: State, path: string, backEndUrl: Option<string>)
    requires Persisted(st)
    ensures Persisted(UpdateUserAvatar(st, path, backEndUrl))
  {
    if st.user.Some? {
      var r := UpdateUserAvatar(st, path, backEndUrl);
      UserCodec.DecodeEncode(r.user.value);
      assert UserCodec.Encode(r.user.value) != "" by {
        assert UserCodec.Encode(r.user.value)[0] == '{';
      }
    }
  }

  /** Every operation keeps memory and storage in agreement. */
  lemma OperationsPersist(st: State, fetched: Outcome<HttpReply>, backEndUrl: Option<string>, now: int)
    requires Persisted(st)
    ensures Persisted(Login(st, fetched, backEndUrl, now).0)
    ensures Persisted(Logout(st).0)
    ensures Persisted(Start(st.storage))
  {
    assert Persisted(Login(st, fetched, backEndUrl, now).0) by {
      if Login(st, fetched, backEndUrl, now).1.Returned? {
        LoginSurvivesReload(st, fetched, backEndUrl, now);
      }
    }
    assert Persisted(Logout(st).0);
    assert Persisted(Start(st.storage));
  }
}
