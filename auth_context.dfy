/** The demo authentication provider: one `user` state field set by login and cleared by logout. */
module AuthContext {
  import opened Wrappers
  import M = MockData

  datatype User = User(username: string, role: M.Role, name: string, patientId: Option<string>)

  predicate Matches(d: M.DemoUser, username: string, password: string) {
    d.username == username && d.password == password
  }

  /** `users.find(...)`: the first entry whose username and password both match exactly. */
  function FindDemoUser(users: seq<M.DemoUser>, username: string, password: string): (r: Option<M.DemoUser>)
    ensures r.Some? <==> exists i :: 0 <= i < |users| && Matches(users[i], username, password)
    ensures r.Some? ==> Matches(r.value, username, password)
    ensures r.Some? ==> exists i :: (0 <= i < |users| && users[i] == r.value &&
      forall j :: 0 <= j < i ==> !Matches(users[j], username, password))
  {
    if |users| == 0 then None
    else if Matches(users[0], username, password) then Some(users[0])
    else
      var r := FindDemoUser(users[1..], username, password);
      assert forall i :: 0 < i < |users| ==> users[i] == users[1..][i - 1];
      if r.Some? then
        var k :| 0 <= k < |users[1..]| && users[1..][k] == r.value &&
          forall j :: 0 <= j < k ==> !Matches(users[1..][j], username, password);
        assert users[k + 1] == r.value;
        r
      else r
  }

  /** The user record stored on success: the entry without its password. */
  function ToUser(d: M.DemoUser): (u: User)
    ensures u.username == d.username && u.role == d.role && u.name == d.name && u.patientId == d.patientId
  {
    User(d.username, d.role, d.name, d.patientId)
  }

  /** The two published demo accounts log in, with their roles and the patient's record id. */
  lemma DemoCredentials()
    ensures FindDemoUser(M.DEMO_USERS, "admin", "admin123").Some?
    ensures FindDemoUser(M.DEMO_USERS, "admin", "admin123").value.role == M.AdminRole
    ensures FindDemoUser(M.DEMO_USERS, "patient", "patient123").Some?
    ensures FindDemoUser(M.DEMO_USERS, "patient", "patient123").value.role == M.PatientRole
    ensures FindDemoUser(M.DEMO_USERS, "patient", "patient123").value.patientId == Some("P-001")
    ensures FindDemoUser(M.DEMO_USERS, "admin", "patient123").None?
    ensures FindDemoUser(M.DEMO_USERS, "patient", "admin123").None?
  {
    assert Matches(M.DEMO_USERS[0], "admin", "admin123");
    assert Matches(M.DEMO_USERS[1], "patient", "patient123");
    assert !Matches(M.DEMO_USERS[0], "patient", "patient123");
  }

  /** In the demo roster the user name alone decides the role. */
  lemma DemoRoleFollowsUsername(username: string, password: string)
    requires FindDemoUser(M.DEMO_USERS, username, password).Some?
    ensures var d := FindDemoUser(M.DEMO_USERS, username, password).value;
      (d.role == M.AdminRole <==> username == "admin")
  {
    var d := FindDemoUser(M.DEMO_USERS, username, password).value;
    assert d == M.DEMO_USERS[0] || d == M.DEMO_USERS[1];
  }

  class AuthProvider {
    var user: Option<User>

    constructor ()
      ensures user == None
    {
      user := None;
    }

    /** `!!user`. */
    function IsAuthenticated(): (b: bool)
      reads this
      ensures b <==> user != None
    {
      user.Some?
    }

    method Login(username: string, password: string) returns (ok: bool)
      modifies this
      ensures ok <==> exists i :: 0 <= i < |M.DEMO_USERS| && Matches(M.DEMO_USERS[i], username, password)
      ensures ok ==> user == Some(ToUser(FindDemoUser(M.DEMO_USERS, username, password).value))
      ensures !ok ==> user == old(user)
    {
      var found := FindDemoUser(M.DEMO_USERS, username, password);
      if found.Some? {
        user := Some(ToUser(found.value));
        ok := true;
      } else {
        ok := false;
      }
    }

    method Logout()
      modifies this
      ensures user == None && !IsAuthenticated()
    {
      user := None;
    }
  }
}
