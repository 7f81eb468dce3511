/**
 * The client session (frontend/src/contexts/AuthContext.tsx): the signed-in
 * user and token, restored from browser storage at start-up and written back
 * by the three sign-in paths, with a second copy under the admin keys for an
 * admin. Storage holds the user as JSON; here it holds the parsed value, so
 * `JSON.parse(JSON.stringify(u)) == u` is taken as given. The sign-in replies
 * are parameters.
 */
module AuthContext {
  import opened Wrappers

  const RoleAdmin := "admin"

  datatype ClientUser = ClientUser(
    id: int, username: string, email: string, firstName: string, lastName: string,
    role: string, phone: string, isVerified: bool)

  /** The four storage keys the provider uses: `token`, `user`, `adminToken`, `adminUser`. */
  datatype Storage = Storage(token: Option<string>, user: Option<ClientUser>,
                             adminToken: Option<string>, adminUser: Option<ClientUser>)

  /** The reply of a sign-in call: an exception (rethrown), or the token and user. */
  datatype AuthReply = AuthThrows | Signed(token: string, user: ClientUser)

  /** A non-empty string is truthy. */
  predicate Truthy(s: Option<string>)
  {
    s.Some? && s.value != ""
  }

  /** The session the start-up effect restores: both stored values, or none. */
  function Restored(st: Storage): (r: (Option<ClientUser>, Option<string>))
    ensures Truthy(st.token) && st.user.Some? ==> r == (st.user, st.token)
    ensures !(Truthy(st.token) && st.user.Some?) ==> r == (None, None)
  {
    if Truthy(st.token) && st.user.Some? then (st.user, st.token) else (None, None)
  }

  /**
   * The storage writes of a sign-in: `token` and `user` always, and the admin
   * keys too when `adminCopy` (login and OTP login, not register) and the
   * user is an admin.
   */
  function Persisted(st: Storage, token: string, user: ClientUser, adminCopy: bool): (r: Storage)
    ensures r.token == Some(token) && r.user == Some(user)
    ensures adminCopy && user.role == RoleAdmin ==> r.adminToken == Some(token) && r.adminUser == Some(user)
    ensures !(adminCopy && user.role == RoleAdmin) ==> r.adminToken == st.adminToken && r.adminUser == st.adminUser
  {
    var r := st.(token := Some(token), user := Some(user));
    if adminCopy && user.role == RoleAdmin then r.(adminToken := Some(token), adminUser := Some(user)) else r
  }

  /** logout's storage writes: `token` and `user` removed, the admin keys left in place. */
  function LoggedOut(st: Storage): (r: Storage)
    ensures r.token.None? && r.user.None?
    ensures r.adminToken == st.adminToken && r.adminUser == st.adminUser
  {
    st.(token := None, user := None)
  }

  /** isAuthenticated: a user and a non-empty token. */
  predicate Authenticated(user: Option<ClientUser>, token: Option<string>)
  {
    user.Some? && Truthy(token)
  }

  /** isAdmin: the user's role is `admin`. */
  predicate Admin(user: Option<ClientUser>)
  {
    user.Some? && user.value.role == RoleAdmin
  }

  /** A reload after a sign-in with a non-empty token restores the same session. */
  lemma ReloadAfterSignIn(st: Storage, token: string, user: ClientUser, adminCopy: bool)
    requires token != ""
    ensures Restored(Persisted(st, token, user, adminCopy)) == (Some(user), Some(token))
    ensures Authenticated(Some(user), Some(token))
  {
  }

  /** A reload after logout restores nothing, yet an admin's token survives under the admin key. */
  lemma ReloadAfterLogout(st: Storage, token: string, user: ClientUser)
    requires user.role == RoleAdmin
    ensures var after := LoggedOut(Persisted(st, token, user, true));
      Restored(after) == (None, None) && after.adminToken == Some(token) && after.adminUser == Some(user)
  {
  }

  /** Registering never writes the admin keys, whatever the role. */
  lemma RegisterKeepsAdminKeys(st: Storage, token: string, user: ClientUser)
    ensures Persisted(st, token, user, false).adminToken == st.adminToken
    ensures Persisted(st, token, user, false).adminUser == st.adminUser
  {
  }

  class AuthProvider {
    var user: Option<ClientUser>
    var token: Option<string>
    var loading: bool
    var storage: Storage

    /** The provider starts signed out and loading, over the browser's storage. */
    constructor(initial: Storage)
      ensures user.None? && token.None? && loading && storage == initial
    {
      user, token := None, None;
      loading := true;
      storage := initial;
    }

    /** The start-up effect: the session is restored only when both stored values are present. */
    method Restore()
      modifies this
      ensures (user, token) == (if Restored(storage) == (None, None) then (old(user), old(token)) else Restored(storage))
      ensures storage == old(storage) && !loading
    {
      if Truthy(storage.token) && storage.user.Some? {
        token := storage.token;
        user := storage.user;
      }
      loading := false;
    }

    /** The shared body of login and loginWithOTP (`adminCopy`), and of register (no admin copy). */
    method SignIn(reply: AuthReply, adminCopy: bool) returns (thrown: bool)
      modifies this
      ensures thrown <==> reply.AuthThrows?
      ensures thrown ==> user == old(user) && token == old(token) && storage == old(storage)
      ensures !thrown ==> (user == Some(reply.user) && token == Some(reply.token) &&
        storage == Persisted(old(storage), reply.token, reply.user, adminCopy))
      ensures loading == old(loading)
    {
      if reply.AuthThrows? {
        return true;
      }
      token := Some(reply.token);
      user := Some(reply.user);
      storage := storage.(token := Some(reply.token), user := Some(reply.user));
      if adminCopy && reply.user.role == RoleAdmin {
        storage := storage.(adminToken := Some(reply.token), adminUser := Some(reply.user));
      }
      thrown := false;
    }

    /** login: on a reply, the session and storage are set, with the admin copy for an admin. */
    method Login(reply: AuthReply) returns (thrown: bool)
      modifies this
      ensures thrown <==> reply.AuthThrows?
      ensures thrown ==> user == old(user) && token == old(token) && storage == old(storage)
      ensures !thrown ==> (user == Some(reply.user) && token == Some(reply.token) &&
        storage == Persisted(old(storage), reply.token, reply.user, true))
      ensures loading == old(loading)
    {
      thrown := SignIn(reply, true);
    }

    /** loginWithOTP: the same writes as login. */
    method LoginWithOtp(reply: AuthReply) returns (thrown: bool)
      modifies this
      ensures thrown <==> reply.AuthThrows?
      ensures thrown ==> user == old(user) && token == old(token) && storage == old(storage)
      ensures !thrown ==> (user == Some(reply.user) && token == Some(reply.token) &&
        storage == Persisted(old(storage), reply.token, reply.user, true))
      ensures loading == old(loading)
    {
      thrown := SignIn(reply, true);
    }

    /** register: the session and `token`/`user` are set; the admin keys never are. */
    method Register(reply: AuthReply) returns (thrown: bool)
      modifies this
      ensures thrown <==> reply.AuthThrows?
      ensures thrown ==> user == old(user) && token == old(token) && storage == old(storage)
      ensures !thrown ==> (user == Some(reply.user) && token == Some(reply.token) &&
        storage == Persisted(old(storage), reply.token, reply.user, false))
      ensures loading == old(loading)
    {
      thrown := SignIn(reply, false);
    }

    /** logout: the session and `token`/`user` are cleared. */
    method Logout()
      modifies this
      ensures user.None? && token.None? && storage == LoggedOut(old(storage))
      ensures loading == old(loading)
    {
      user, token := None, None;
      storage := storage.(token := None, user := None);
    }

    function IsAuthenticated(): (b: bool)
      reads this
      ensures b <==> user.Some? && token.Some? && token.value != ""
    {
      Authenticated(user, token)
    }

    function IsAdmin(): (b: bool)
      reads this
      ensures b <==> user.Some? && user.value.role == RoleAdmin
    {
      Admin(user)
    }
  }
}
