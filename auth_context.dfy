/** The session store (src/context/AuthContext.tsx): the token, the user
    and the loading flag of the provider, kept in step with three keys of
    the browser's key/value storage. The authentication calls are network
    calls; their outcomes are parameters. */
module AuthContext {
  import opened Wrappers
  import opened Types

  const AccessKey := "access_token"
  const RefreshKey := "refresh_token"
  const UserKey := "user"

  /** A stored value: a token text, or the user record (which the browser
      keeps as its JSON text). */
  datatype Stored = Text(s: string) | UserJson(u: Usuario)

  /** JavaScript truthiness of `getItem(key)`: present and not the empty text. */
  predicate Truthy(storage: map<string, Stored>, key: string) {
    key in storage && storage[key] != Text("")
  }

  /** The reply to `authService.login`: the two tokens and the user, or an error. */
  datatype LoginOutcome = LoggedIn(access: string, refresh: string, usuario: Usuario) | LoginError

  /** The reply to `authService.refreshToken`: a new access token, or an error. */
  datatype RefreshOutcome = Refreshed(access: string) | RefreshError

  /** The storage as this provider writes it: tokens as texts, the user as a record. */
  predicate WellFormed(storage: map<string, Stored>) {
    (AccessKey in storage ==> storage[AccessKey].Text?) &&
    (RefreshKey in storage ==> storage[RefreshKey].Text?) &&
    (UserKey in storage ==> storage[UserKey].UserJson?)
  }

  class AuthProvider {
    var storage: map<string, Stored>
    var token: Option<string>
    var user: Option<Usuario>
    var isLoading: bool

    predicate Valid()
      reads this
    {
      WellFormed(storage)
    }

    /** `isAuthenticated: !!token && !!user`. */
    predicate IsAuthenticated()
      reads this
    {
      token.Some? && token.value != "" && user.Some?
    }

    /** A fresh provider over the browser's storage: no session yet, loading. */
    constructor(saved: map<string, Stored>)
      requires WellFormed(saved)
      ensures storage == saved && token.None? && user.None? && isLoading
      ensures Valid() && !IsAuthenticated()
    {
      storage := saved;
      token := None;
      user := None;
      isLoading := true;
    }

    /** `initAuth`: the session is restored only when both the access token
        and the user are stored; loading ends either way. */
    method InitAuth()
      requires Valid()
      modifies this
      ensures storage == old(storage) && !isLoading && Valid()
      ensures Truthy(storage, AccessKey) && Truthy(storage, UserKey) ==>
                token == Some(storage[AccessKey].s) && user == Some(storage[UserKey].u)
      ensures !(Truthy(storage, AccessKey) && Truthy(storage, UserKey)) ==>
                token == old(token) && user == old(user)
    {
      if Truthy(storage, AccessKey) && Truthy(storage, UserKey) {
        token := Some(storage[AccessKey].s);
        user := Some(storage[UserKey].u);
      }
      isLoading := false;
    }

    /** `login`: on success both tokens and the user are stored and the
        session set; on failure the error is rethrown and nothing changes. */
    method Login(outcome: LoginOutcome) returns (thrown: bool)
      requires Valid()
      modifies this
      ensures thrown <==> outcome.LoginError?
      ensures outcome.LoggedIn? ==>
                storage == old(storage)[AccessKey := Text(outcome.access)][RefreshKey := Text(outcome.refresh)]
                                       [UserKey := UserJson(outcome.usuario)] &&
                token == Some(outcome.access) && user == Some(outcome.usuario)
      ensures outcome.LoginError? ==> storage == old(storage) && token == old(token) && user == old(user)
      ensures isLoading == old(isLoading) && Valid()
    {
      match outcome
      case LoginError =>
        thrown := true;
      case LoggedIn(access, refresh, usuario) =>
        storage := storage[AccessKey := Text(access)][RefreshKey := Text(refresh)][UserKey := UserJson(usuario)];
        token := Some(access);
        user := Some(usuario);
        thrown := false;
    }

    /** `logout`: the three keys are removed and the session cleared;
        every other stored key stays. */
    method Logout()
      requires Valid()
      modifies this
      ensures storage == old(storage) - {AccessKey, RefreshKey, UserKey}
      ensures token.None? && user.None? && !IsAuthenticated()
      ensures isLoading == old(isLoading) && Valid()
    {
      storage := storage - {AccessKey, RefreshKey, UserKey};
      token := None;
      user := None;
    }

    /** `refreshToken`: with no stored refresh token, or when the refresh
        fails, the session is logged out and the error thrown. A successful
        refresh, made with the stored refresh token, replaces only the
        stored access token and the session's token. */
    method RefreshToken(outcome: RefreshOutcome) returns (sentWith: Option<string>, thrown: bool)
      requires Valid()
      modifies this
      ensures !Truthy(old(storage), RefreshKey) ==> sentWith.None?
      ensures Truthy(old(storage), RefreshKey) ==> sentWith == Some(old(storage)[RefreshKey].s)
      ensures thrown <==> sentWith.None? || outcome.RefreshError?
      ensures thrown ==> storage == old(storage) - {AccessKey, RefreshKey, UserKey} && token.None? && user.None?
      ensures !thrown ==>
                storage == old(storage)[AccessKey := Text(outcome.access)] &&
                token == Some(outcome.access) && user == old(user)
      ensures isLoading == old(isLoading) && Valid()
    {
      if !Truthy(storage, RefreshKey) {
        Logout();
        return None, true;
      }
      sentWith := Some(storage[RefreshKey].s);
      match outcome
      case RefreshError =>
        Logout();
        thrown := true;
      case Refreshed(access) =>
        storage := storage[AccessKey := Text(access)];
        token := Some(access);
        thrown := false;
    }
  }

  /** A session survives a page reload: after a login with a non-empty
      access token, a new provider over the same storage restores the same
      token and user and is authenticated. */
  method LoginThenReload(p: AuthProvider, access: string, refresh: string, usuario: Usuario)
    returns (q: AuthProvider)
    requires p.Valid() && access != ""
    modifies p
    ensures fresh(q)
    ensures q.token == p.token && q.user == p.user && q.IsAuthenticated() && !q.isLoading
  {
    var thrown := p.Login(LoggedIn(access, refresh, usuario));
    q := new AuthProvider(p.storage);
    q.InitAuth();
  }

  /** A logout also survives a reload: the new provider finds no session. */
  method LogoutThenReload(p: AuthProvider) returns (q: AuthProvider)
    requires p.Valid()
    modifies p
    ensures fresh(q)
    ensures !q.IsAuthenticated() && !q.isLoading && q.token.None? && q.user.None?
  {
    p.Logout();
    q := new AuthProvider(p.storage);
    q.InitAuth();
  }
}
