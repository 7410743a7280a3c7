/** The signed-in session (`src/app/auth-service.ts`, `src/app/auth.types.ts`): a
    token and a user, mirrored in browser storage under `litloom_auth` so that a
    page reload restores them. The HTTP calls are left out: their responses (the
    token, the registered id) are parameters. */
module Auth {
  import opened Wrappers

  const StorageKey := "litloom_auth"

  datatype User = User(id: Option<int>, email: string, name: Option<string>, avatar: Option<string>)

  /** What is kept in storage. */
  datatype AuthSession = AuthSession(token: string, user: User)

  /** The service's two streams and its storage cell. */
  datatype AuthState = AuthState(token: Option<string>, user: Option<User>, stored: Slot<AuthSession>)

  /** `isAuthenticated`: a token is present and is not the empty string. */
  predicate SignedIn(st: AuthState) {
    st.token.Some? && st.token.value != ""
  }

  /** A fresh page: no token or user yet, whatever storage holds. */
  function Fresh(stored: Slot<AuthSession>): (r: AuthState)
    ensures !SignedIn(r) && r.stored == stored
  {
    AuthState(None, None, stored)
  }

  /** `persist`: publish the session's token and user, then write the session. */
  function Persisted(st: AuthState, s: AuthSession): (r: AuthState)
    ensures r.token == Some(s.token) && r.user == Some(s.user) && r.stored == Present(s)
    ensures SignedIn(r) <==> s.token != ""
  {
    AuthState(Some(s.token), Some(s.user), Present(s))
  }

  /** `logout`: both streams cleared and the stored session removed. */
  function LoggedOut(st: AuthState): (r: AuthState)
    ensures !SignedIn(r) && r.user.None? && r.stored.Absent?
  {
    AuthState(None, None, Absent)
  }

  /** `restoreSession`: nothing stored leaves the state alone; an unreadable record
      logs out; a stored session is published as it is. */
  function Restored(st: AuthState): (r: AuthState)
    ensures st.stored.Absent? ==> r == st
    ensures st.stored.Malformed? ==> r == LoggedOut(st)
    ensures st.stored.Present? ==>
              r.token == Some(st.stored.value.token) && r.user == Some(st.stored.value.user) && r.stored == st.stored
  {
    match st.stored
    case Absent => st
    case Malformed => LoggedOut(st)
    case Present(s) => AuthState(Some(s.token), Some(s.user), st.stored)
  }

  /** `login`: the user is only the email that was typed. */
  function LoginSession(email: string, token: string): (r: AuthSession)
    ensures r.user.email == email && r.user.id.None? && r.user.name.None? && r.user.avatar.None?
    ensures r.token == token
  {
    AuthSession(token, User(None, email, None, None))
  }

  /** `register`: the user carries the id the server returned and the given name. */
  function RegisterSession(id: int, email: string, name: Option<string>, token: string): (r: AuthSession)
    ensures r.user.id == Some(id) && r.user.email == email && r.user.name == name && r.user.avatar.None?
    ensures r.token == token
  {
    AuthSession(token, User(Some(id), email, name, None))
  }

  /** A reload after signing in restores exactly the signed-in state. */
  lemma {:induction false} ReloadAfterPersist(st: AuthState, s: AuthSession)
    ensures Restored(Fresh(Persisted(st, s).stored)) == Persisted(st, s)
    ensures Restored(Persisted(st, s)) == Persisted(st, s)
  {
  }

  /** A reload after signing out stays signed out. */
  lemma {:induction false} ReloadAfterLogout(st: AuthState)
    ensures Restored(Fresh(LoggedOut(st).stored)) == LoggedOut(st)
  {
  }

  /** Restoring twice is restoring once, and an unreadable record never leaves the
      user signed in. */
  lemma {:induction false} RestoreIdempotent(st: AuthState)
    ensures Restored(Restored(st)) == Restored(st)
    ensures st.stored.Malformed? ==> !SignedIn(Restored(st)) && Restored(st).stored.Absent?
  {
  }

  class AuthService {
    var token: Option<string>
    var user: Option<User>
    var stored: Slot<AuthSession>

    function State(): AuthState
      reads this
    {
      AuthState(token, user, stored)
    }

    function IsAuthenticated(): (b: bool)
      reads this
      ensures b <==> SignedIn(State())
    {
      token.Some? && token.value != ""
    }

    /** Starts signed out and restores whatever storage holds. */
    constructor (stored: Slot<AuthSession>)
      ensures State() == Restored(Fresh(stored))
    {
      token := None;
      user := None;
      this.stored := stored;
      new;
      RestoreSession();
    }

    /** `login`, with the token the server answered. */
    method Login(email: string, serverToken: string) returns (u: User)
      modifies this
      ensures State() == Persisted(old(State()), LoginSession(email, serverToken))
      ensures u == LoginSession(email, serverToken).user
    {
      u := User(None, email, None, None);
      Persist(AuthSession(serverToken, u));
    }

    /** `register`, with the id and token the server answered. */
    method Register(email: string, name: Option<string>, serverId: int, serverToken: string) returns (u: User)
      modifies this
      ensures State() == Persisted(old(State()), RegisterSession(serverId, email, name, serverToken))
      ensures u == RegisterSession(serverId, email, name, serverToken).user
    {
      u := User(Some(serverId), email, name, None);
      Persist(AuthSession(serverToken, u));
    }

    method Logout()
      modifies this
      ensures State() == LoggedOut(old(State()))
    {
      token := None;
      user := None;
      stored := Absent;
    }

    method RestoreSession()
      modifies this
      ensures State() == Restored(old(State()))
    {
      match stored {
        case Absent =>
        case Malformed =>
          Logout();
        case Present(s) =>
          token := Some(s.token);
          user := Some(s.user);
      }
    }

    method Persist(s: AuthSession)
      modifies this
      ensures State() == Persisted(old(State()), s)
    {
      token := Some(s.token);
      user := Some(s.user);
      stored := Present(s);
    }
  }
}
