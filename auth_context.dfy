/** The session store: one bearer token kept in the `admin_token` storage
    slot, the signed-in user's profile, and the role queries built on them. */
module AuthContext {
  import opened Js
  import opened Models

  const TokenKey: string := "admin_token"

  /** `isAuthenticated = !!token` */
  function IsAuthenticated(token: Option<string>): (b: bool)
    ensures b ==> token.Some?
    ensures token == Some("") ==> !b
    ensures token.Some? && token.value != "" ==> b
  {
    Present(token)
  }

  /** `user?.admin?.role ?? null` */
  function RoleOf(user: Option<User>): (r: Option<Role>)
    ensures r.Some? <==> user.Some? && user.value.admin.Some?
    ensures r.Some? ==> r.value == user.value.admin.value.role
  {
    match user
    case None => None
    case Some(u) => match u.admin
      case None => None
      case Some(a) => Some(a.role)
  }

  /** `hasRole(...roles)`: `roles.includes(role)`, where a null role is in no list. */
  function HasRole(user: Option<User>, roles: seq<Role>): (b: bool)
    ensures b <==> RoleOf(user).Some? && RoleOf(user).value in roles
    ensures user.None? ==> !b
    ensures roles == [] ==> !b
  {
    match RoleOf(user)
    case None => false
    case Some(r) => r in roles
  }

  /** The state of `AuthProvider`: the storage it reads and writes, and its
      `token` and `user` state. */
  class AuthProvider {
    var storage: map<string, string>
    var token: Option<string>
    var user: Option<User>

    /** Mounting: the token starts as whatever is stored under "admin_token". */
    constructor (initialStorage: map<string, string>)
      ensures storage == initialStorage && user == None
      ensures token == (if TokenKey in initialStorage then Some(initialStorage[TokenKey]) else None)
    {
      storage := initialStorage;
      token := if TokenKey in initialStorage then Some(initialStorage[TokenKey]) else None;
      user := None;
    }

    function Authenticated(): bool
      reads this
    {
      IsAuthenticated(token)
    }

    /** `login(newToken)`: store the token and adopt it. */
    method Login(newToken: string)
      modifies this
      ensures storage == old(storage)[TokenKey := newToken]
      ensures token == Some(newToken) && user == old(user)
      ensures Authenticated() <==> newToken != ""
    {
      storage := storage[TokenKey := newToken];
      token := Some(newToken);
    }

    /** `logout()`: remove the stored token and forget token and user. */
    method Logout()
      modifies this
      ensures storage == old(storage) - {TokenKey}
      ensures token == None && user == None
      ensures !Authenticated() && RoleOf(user).None?
    {
      storage := storage - {TokenKey};
      token := None;
      user := None;
    }

    /** `refreshUser()` once the profile request has completed with `response`.
        Returns whether a request was made at all (none without a token). */
    method RefreshUser(response: ApiResult<User>) returns (requested: bool)
      modifies this
      ensures requested <==> old(Authenticated())
      ensures !requested ==> storage == old(storage) && token == old(token) && user == old(user)
      ensures requested && response.Ok? ==>
                storage == old(storage) && token == old(token) && user == Some(response.data)
      ensures requested && response.Err? && response.status == Some(401) ==>
                storage == old(storage) - {TokenKey} && token == None && user == None
      ensures requested && response.Err? && response.status != Some(401) ==>
                storage == old(storage) && token == old(token) && user == old(user)
    {
      if !Present(token) {
        return false;
      }
      requested := true;
      match response
      case Ok(u) =>
        user := Some(u);
      case Err(status, _) =>
        if status == Some(401) {
          Logout();
        }
    }
  }

  /** Logging out a second time changes nothing: the state after two
      logouts is the state after one. */
  method LogoutTwice(session: AuthProvider)
    modifies session
    ensures session.storage == old(session.storage) - {TokenKey}
    ensures session.token == None && session.user == None
  {
    session.Logout();
    ghost var once := session.storage;
    session.Logout();
    assert TokenKey !in once;
    assert forall k :: k in once ==> k in session.storage && session.storage[k] == once[k];
    assert session.storage == once;
  }
}
