/** The route guard (src/components/ProtectedRoute.tsx): what a protected
    page shows for the session's loading flag, authentication and the
    user's roles. */
module ProtectedRoute {
  import opened Wrappers
  import opened Types

  /** What the guard renders. */
  datatype View = Loading | RedirectLogin | Denied | Children

  /** `requiredRoles.some(role => user?.roles.includes(role))`; with no user
      no role is found. */
  function HasRequiredRole(requiredRoles: seq<string>, user: Option<Usuario>): (r: bool)
    ensures r <==> user.Some? && exists role :: role in requiredRoles && role in user.value.roles
  {
    if requiredRoles == [] then false
    else (user.Some? && requiredRoles[0] in user.value.roles) || HasRequiredRole(requiredRoles[1..], user)
  }

  /** The guard's decision, checked in the source's order: loading, then
      authentication, then the roles if any are required. */
  function Decide(isLoading: bool, isAuthenticated: bool, user: Option<Usuario>,
                  requiredRoles: Option<seq<string>>): (r: View)
    ensures isLoading ==> r == Loading
    ensures !isLoading && !isAuthenticated ==> r == RedirectLogin
    ensures !isLoading && isAuthenticated && (requiredRoles.None? || requiredRoles.value == []) ==> r == Children
    ensures !isLoading && isAuthenticated && requiredRoles.Some? && requiredRoles.value != [] ==>
              (r == Children <==> HasRequiredRole(requiredRoles.value, user)) &&
              (r == Denied <==> !HasRequiredRole(requiredRoles.value, user))
  {
    if isLoading then Loading
    else if !isAuthenticated then RedirectLogin
    else if requiredRoles.Some? && |requiredRoles.value| > 0 && !HasRequiredRole(requiredRoles.value, user) then Denied
    else Children
  }

  /** The page is shown exactly when the session has loaded, the user is
      authenticated, and either no role is required or the user holds one
      of the required roles. */
  lemma ChildrenExactly(isLoading: bool, isAuthenticated: bool, user: Option<Usuario>,
                        requiredRoles: Option<seq<string>>)
    ensures Decide(isLoading, isAuthenticated, user, requiredRoles) == Children <==>
              !isLoading && isAuthenticated &&
              (requiredRoles.None? || requiredRoles.value == [] ||
               (user.Some? && exists role :: role in requiredRoles.value && role in user.value.roles))
  {
  }

  /** A user with more roles is never denied a page a user with fewer roles
      may see. */
  lemma MoreRolesNoLess(isAuthenticated: bool, u: Usuario, v: Usuario, requiredRoles: Option<seq<string>>)
    requires forall role :: role in u.roles ==> role in v.roles
    requires Decide(false, isAuthenticated, Some(u), requiredRoles) == Children
    ensures Decide(false, isAuthenticated, Some(v), requiredRoles) == Children
  {
  }

  /** Requiring more roles (any one of them suffices) never shuts a user out. */
  lemma MoreRequiredNoLess(isAuthenticated: bool, user: Option<Usuario>, required: seq<string>, extra: seq<string>)
    requires required != []
    requires Decide(false, isAuthenticated, user, Some(required)) == Children
    ensures Decide(false, isAuthenticated, user, Some(required + extra)) == Children
  {
    var role :| role in required && role in user.value.roles;
    assert role in required + extra;
  }
}
