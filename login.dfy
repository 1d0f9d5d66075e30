/** The sign-in page: the form submit and the two demo buttons. */
module Login {
  import opened Wrappers
  import M = MockData
  import AuthContext
  import ProtectedRoute

  /** The page chooses the landing route from the user name typed, not from the stored role. */
  function LandingPath(username: string): (p: string)
    ensures p == "/admin" || p == "/patient"
    ensures p == "/admin" <==> username == "admin"
  {
    "/" + (if username == "admin" then "admin" else "patient")
  }

  /** The credentials each demo button submits. */
  function DemoCredentials(role: M.Role): (c: (string, string))
    ensures c.0 == M.RoleName(role)
  {
    if role == M.AdminRole then ("admin", "admin123") else ("patient", "patient123")
  }

  /** For the demo roster the user-name rule and the role agree, so the landing route is one the guard opens. */
  lemma LandingMatchesRole(username: string, password: string)
    requires AuthContext.FindDemoUser(M.DEMO_USERS, username, password).Some?
    ensures var d := AuthContext.FindDemoUser(M.DEMO_USERS, username, password).value;
      LandingPath(username) == "/" + M.RoleName(d.role) &&
      ProtectedRoute.Guard(Some(AuthContext.ToUser(d)), d.role) == ProtectedRoute.RenderChildren
  {
    AuthContext.DemoRoleFollowsUsername(username, password);
  }

  /** Both demo buttons submit credentials that the roster accepts, with the button's role. */
  lemma DemoLoginsSucceed(role: M.Role)
    ensures var c := DemoCredentials(role);
      AuthContext.FindDemoUser(M.DEMO_USERS, c.0, c.1).Some? &&
      AuthContext.FindDemoUser(M.DEMO_USERS, c.0, c.1).value.role == role
  {
    AuthContext.DemoCredentials();
  }

  class LoginPage {
    var error: string

    constructor ()
      ensures error == ""
    {
      error := "";
    }

    /** Returns the route navigated to, if any. */
    method HandleSubmit(auth: AuthContext.AuthProvider, username: string, password: string) returns (nav: Option<string>)
      modifies this, auth
      ensures var found := AuthContext.FindDemoUser(M.DEMO_USERS, username, password);
        if found.Some? then
          nav == Some(LandingPath(username)) && error == "" && auth.user == Some(AuthContext.ToUser(found.value))
        else
          nav == None && error == "Invalid credentials" && auth.user == old(auth.user)
    {
      error := "";
      var ok := auth.Login(username, password);
      if ok {
        nav := Some(LandingPath(username));
      } else {
        error := "Invalid credentials";
        nav := None;
      }
    }

    /** A demo button: navigates to the role's home only when the login succeeds, which it always does. */
    method HandleDemoLogin(auth: AuthContext.AuthProvider, role: M.Role) returns (nav: Option<string>)
      modifies auth
      ensures var c := DemoCredentials(role); var found := AuthContext.FindDemoUser(M.DEMO_USERS, c.0, c.1);
        (found.Some? ==> nav == Some("/" + M.RoleName(role)) && auth.user == Some(AuthContext.ToUser(found.value))) &&
        (found.None? ==> nav == None && auth.user == old(auth.user))
      ensures nav == Some("/" + M.RoleName(role)) && auth.user.Some? && auth.user.value.role == role
    {
      var c := DemoCredentials(role);
      DemoLoginsSucceed(role);
      var ok := auth.Login(c.0, c.1);
      if ok {
        nav := Some("/" + M.RoleName(role));
      } else {
        nav := None;
      }
    }
  }
}
