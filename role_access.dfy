/** `RoleAccess`: renders its children for the listed roles and its fallback
    for everyone else. */
module RoleAccess {
  import opened Js
  import opened Models
  import opened AuthContext

  /** `isAllowed`: the user has an admin role and it is in `allow`. */
  function IsAllowed(allow: seq<Role>, user: Option<User>): (b: bool)
    ensures b <==> HasRole(user, allow)
    ensures user.None? || user.value.admin.None? ==> !b
    ensures allow == [] ==> !b
  {
    match user
    case None => false
    case Some(u) => match u.admin
      case None => false
      case Some(a) => a.role in allow
  }

  /** What is rendered: the children when allowed, otherwise the fallback,
      whose default is null (None). */
  function Render<C>(allow: seq<Role>, user: Option<User>, children: C, fallback: Option<C>): (r: Option<C>)
    ensures IsAllowed(allow, user) ==> r == Some(children)
    ensures !IsAllowed(allow, user) ==> r == fallback
  {
    if IsAllowed(allow, user) then Some(children) else fallback
  }
}
