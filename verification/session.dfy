/** The session store (src/hooks/useAuth.ts): the signed-in user, a loading flag, the last
    error message, and the token and user record mirrored into local storage. */
module Session {
  import opened Wrappers
  import opened Text
  import opened Domain
  import opened Storage
  import opened Api

  /** `JSON.stringify(user)`, without JSON's string escaping. Never empty. */
  function UserJson(u: User): (s: string)
    ensures s != "" && s[0] == '{' && s[|s| - 1] == '}'
  {
    var picture := if u.picture.Some? then ",\"picture\":\"" + u.picture.value + "\"" else "";
    "{\"id\":\"" + u.id + "\",\"email\":\"" + u.email + "\",\"name\":\"" + u.name + "\"" + picture + "}"
  }

  /** Restore runs the verification call only when both a token and a user are stored. */
  predicate Restorable(entries: map<string, string>) {
    HasItem(entries, AuthTokenKey) && HasItem(entries, UserKey)
  }

  /** The storage after a successful login or registration: the token and the serialised user. */
  function WithSession(entries: map<string, string>, response: AuthResponse): (r: map<string, string>)
    ensures r.Keys == entries.Keys + {AuthTokenKey, UserKey}
    ensures r[AuthTokenKey] == response.token && r[UserKey] == UserJson(response.user)
    ensures forall k :: k in entries && k != AuthTokenKey && k != UserKey ==> r[k] == entries[k]
  {
    entries[AuthTokenKey := response.token][UserKey := UserJson(response.user)]
  }

  /** The storage after a failed restore: token and user removed, everything else kept. */
  function WithoutCredentials(entries: map<string, string>): (r: map<string, string>)
    ensures r.Keys == entries.Keys - {AuthTokenKey, UserKey}
    ensures forall k :: k in r ==> r[k] == entries[k]
  {
    entries - {AuthTokenKey, UserKey}
  }

  /** The storage after sign-out: token, user and cached transactions removed; the theme
      preference and any other key kept. */
  function WithoutSession(entries: map<string, string>): (r: map<string, string>)
    ensures r.Keys == entries.Keys - {AuthTokenKey, UserKey, TransactionsKey}
    ensures forall k :: k in r ==> r[k] == entries[k]
  {
    entries - {AuthTokenKey, UserKey, TransactionsKey}
  }

  /** A login leaves a session the next start-up will try to restore exactly when the server
      handed out a non-empty token. */
  lemma RestorableAfterLogin(entries: map<string, string>, response: AuthResponse)
    ensures Restorable(WithSession(entries, response)) <==> response.token != ""
  {
  }

  /** After sign-out nothing is left to restore, and the theme preference survives. */
  lemma SignOutKeepsTheme(entries: map<string, string>)
    ensures !Restorable(WithoutSession(entries))
    ensures Lookup(WithoutSession(entries), ThemeKey) == Lookup(entries, ThemeKey)
  {
  }

  /** The text stored in `error` for a failed login or registration. */
  function ErrorText(f: Failure, fallback: string): string {
    if f.Error? then f.message else fallback
  }

  class SessionStore {
    var user: Option<User>
    var loading: bool
    var error: Option<string>
    const storage: LocalStorage
    /** The backend calls this store has made, oldest first. */
    ghost var calls: seq<ApiCall>

    /** Mounted: no user, loading until the restore has run. */
    constructor (storage: LocalStorage)
      ensures user == None && loading && error == None
      ensures this.storage == storage && calls == []
    {
      user := None;
      loading := true;
      error := None;
      this.storage := storage;
      calls := [];
    }

    /** `checkAuth`: with a stored token and user, ask the server who is signed in; adopt the
        answer, or forget both keys on failure. Loading ends in every branch. */
    method CheckAuth(me: Result<User>)
      modifies this, storage
      ensures calls == old(calls) + (if Restorable(old(storage.entries)) then [MeCall] else [])
      ensures !Restorable(old(storage.entries)) ==>
        user == old(user) && storage.entries == old(storage.entries)
      ensures Restorable(old(storage.entries)) && me.Ok? ==>
        user == Some(me.value) && storage.entries == old(storage.entries)
      ensures Restorable(old(storage.entries)) && me.Err? ==>
        user == None && storage.entries == WithoutCredentials(old(storage.entries))
      ensures !loading && error == old(error)
    {
      var token := Lookup(storage.entries, AuthTokenKey);
      var savedUser := Lookup(storage.entries, UserKey);
      if IsTruthy(token) && IsTruthy(savedUser) {
        calls := calls + [MeCall];
        match me {
          case Ok(u) =>
            user := Some(u);
          case Err(_) =>
            storage.RemoveItem(AuthTokenKey);
            storage.RemoveItem(UserKey);
            user := None;
        }
      }
      loading := false;
    }

    /** The part login and register share once the server has answered. */
    method Authenticate(call: ApiCall, response: Result<AuthResponse>, fallback: string) returns (outcome: Outcome)
      modifies this, storage
      ensures calls == old(calls) + [call]
      ensures response.Ok? ==>
        && user == Some(response.value.user)
        && storage.entries == WithSession(old(storage.entries), response.value)
        && error == None
      ensures response.Err? ==>
        && user == old(user)
        && storage.entries == old(storage.entries)
        && error == Some(ErrorText(response.failure, fallback))
      ensures outcome == Reraise(response)
      ensures !loading
    {
      loading := true;
      error := None;
      calls := calls + [call];
      match response {
        case Ok(r) =>
          user := Some(r.user);
          storage.SetItem(AuthTokenKey, r.token);
          storage.SetItem(UserKey, UserJson(r.user));
        case Err(f) =>
          error := Some(ErrorText(f, fallback));
      }
      outcome := Reraise(response);
      loading := false;
    }

    /** `login`. */
    method Login(email: string, password: string, response: Result<AuthResponse>) returns (outcome: Outcome)
      modifies this, storage
      ensures calls == old(calls) + [LoginCall(email, password)]
      ensures response.Ok? ==>
        && user == Some(response.value.user)
        && storage.entries == WithSession(old(storage.entries), response.value)
        && error == None
      ensures response.Err? ==>
        && user == old(user)
        && storage.entries == old(storage.entries)
        && error == Some(ErrorText(response.failure, "Login failed"))
      ensures outcome == Reraise(response)
      ensures !loading
    {
      outcome := Authenticate(LoginCall(email, password), response, "Login failed");
    }

    /** `register`. */
    method Register(email: string, password: string, name: string, response: Result<AuthResponse>)
      returns (outcome: Outcome)
      modifies this, storage
      ensures calls == old(calls) + [RegisterCall(email, password, name)]
      ensures response.Ok? ==>
        && user == Some(response.value.user)
        && storage.entries == WithSession(old(storage.entries), response.value)
        && error == None
      ensures response.Err? ==>
        && user == old(user)
        && storage.entries == old(storage.entries)
        && error == Some(ErrorText(response.failure, "Registration failed"))
      ensures outcome == Reraise(response)
      ensures !loading
    {
      outcome := Authenticate(RegisterCall(email, password, name), response, "Registration failed");
    }

    /** `signOut`: the logout call's failure is swallowed; local cleanup always runs. */
    method SignOut(response: Result<()>)
      modifies this, storage
      ensures calls == old(calls) + [LogoutCall]
      ensures user == None
      ensures storage.entries == WithoutSession(old(storage.entries))
      ensures loading == old(loading) && error == old(error)
    {
      calls := calls + [LogoutCall];
      user := None;
      storage.RemoveItem(AuthTokenKey);
      storage.RemoveItem(UserKey);
      storage.RemoveItem(TransactionsKey);
    }
  }

  /** Start-up whose verification call fails ends signed out and not loading, with nothing
      restorable left in storage and every other key untouched. */
  method RestoreRejected(entries: map<string, string>, f: Failure)
    returns (user: Option<User>, loading: bool, remaining: map<string, string>)
    ensures user == None && !loading
    ensures !Restorable(remaining)
    ensures forall k :: k in remaining ==> k in entries && remaining[k] == entries[k]
    ensures forall k :: k in entries && k != AuthTokenKey && k != UserKey ==>
      k in remaining && remaining[k] == entries[k]
  {
    var storage := new LocalStorage(entries);
    var session := new SessionStore(storage);
    session.CheckAuth(Err(f));
    user, loading, remaining := session.user, session.loading, storage.entries;
  }

  /** Signing in and then out, with the logout call failing, leaves no session behind and
      the theme preference as it was. */
  method SignInThenOut(entries: map<string, string>, email: string, password: string,
                       response: AuthResponse, logoutFailure: Failure)
    returns (user: Option<User>, remaining: map<string, string>)
    ensures user == None
    ensures !Restorable(remaining)
    ensures Lookup(remaining, ThemeKey) == Lookup(entries, ThemeKey)
  {
    var storage := new LocalStorage(entries);
    var session := new SessionStore(storage);
    var _ := session.Login(email, password, Ok(response));
    session.SignOut(Err(logoutFailure));
    user, remaining := session.user, storage.entries;
  }
}
