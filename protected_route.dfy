/** The route guard: authentication first, then the role the route requires. */
module ProtectedRoute {
  import opened Wrappers
  import M = MockData
  import AuthContext

  datatype Outcome = RedirectTo(path: string) | RenderChildren

  function Guard(user: Option<AuthContext.User>, role: M.Role): (o: Outcome)
    ensures o == RedirectTo("/login") <==> user.None?
    ensures o == RenderChildren <==> user.Some? && user.value.role == role
    ensures user.Some? && user.value.role != role ==> o == RedirectTo("/" + M.RoleName(user.value.role))
  {
    if user.None? then RedirectTo("/login")
    else if user.value.role != role then
      var home := "/" + M.RoleName(user.value.role);
      assert home[1] == M.RoleName(user.value.role)[0];
      RedirectTo(home)
    else RenderChildren
  }

  /** A signed-out visitor is only ever sent to the login page, never to a role's home. */
  lemma SignedOutNeverReachesRoleRoute(role: M.Role, r: M.Role)
    ensures Guard(None, role) != RedirectTo("/" + M.RoleName(r))
  {
    assert ("/" + M.RoleName(r))[1] == M.RoleName(r)[0];
  }

  /** Following a role redirect lands on a route the same user may see. */
  lemma RedirectSettles(user: Option<AuthContext.User>, role: M.Role, r: M.Role)
    requires Guard(user, role) == RedirectTo("/" + M.RoleName(r))
    ensures Guard(user, r) == RenderChildren
  {
    assert ("/" + M.RoleName(r))[1] == M.RoleName(r)[0];
    if user.Some? {
      assert ("/" + M.RoleName(user.value.role))[1..] == M.RoleName(user.value.role);
      assert ("/" + M.RoleName(r))[1..] == M.RoleName(r);
    }
  }
}
