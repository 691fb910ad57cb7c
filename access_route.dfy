/** The route guard: whether a route renders its element or redirects, and
    where to. */
module AccessRoute {
  import opened Js
  import opened Models
  import opened AuthContext

  datatype Decision = Redirect(to: string) | RenderChildren

  /** `AccessRoute` with its optional props (`requireAuth` defaults to true)
      and the session's authenticated flag and user. */
  function Decide(requireAuth: Option<bool>, redirectTo: Option<string>,
                  requiredRoles: Option<seq<Role>>, isAuthenticated: bool, user: Option<User>): (d: Decision)
    // signed out on a protected route
    ensures OrElse(requireAuth, true) && !isAuthenticated ==> d == Redirect(OrElse(redirectTo, "/login"))
    // signed in on a public-only route
    ensures !OrElse(requireAuth, true) && isAuthenticated ==> d == Redirect(OrElse(redirectTo, "/dashboard"))
    // the role check comes only after both authentication checks, and ignores redirectTo
    ensures (OrElse(requireAuth, true) == isAuthenticated && requiredRoles.Some?
             && !HasRole(user, requiredRoles.value)) ==> d == Redirect("/dashboard")
    ensures d == RenderChildren <==>
              OrElse(requireAuth, true) == isAuthenticated
              && (requiredRoles.None? || HasRole(user, requiredRoles.value))
  {
    var required := OrElse(requireAuth, true);
    if required && !isAuthenticated then Redirect(OrElse(redirectTo, "/login"))
    else if !required && isAuthenticated then Redirect(OrElse(redirectTo, "/dashboard"))
    else if requiredRoles.Some?
            && (user.None? || user.value.admin.None? || user.value.admin.value.role !in requiredRoles.value)
    then Redirect("/dashboard")
    else RenderChildren
  }

  /** An empty list of required roles (an empty array is truthy) admits nobody. */
  lemma EmptyRolesRedirect(requireAuth: Option<bool>, redirectTo: Option<string>,
                           isAuthenticated: bool, user: Option<User>)
    ensures Decide(requireAuth, redirectTo, Some([]), isAuthenticated, user).Redirect?
  {
  }
}
