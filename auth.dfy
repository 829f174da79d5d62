/**
 * The mock authentication context: two fixed users, a login that accepts a
 * known email with the password "password", and a logout.
 */
module Auth {
  import opened Wrappers

  datatype Role = Customer | Admin

  datatype User = User(id: string, name: string, email: string, phone: string, role: Role)

  const DummyUsers: seq<User> := [
    User("1", "Ravi Kumar", "customer@tnstc.com", "+91 9876543210", Customer),
    User("2", "Admin TNSTC", "admin@tnstc.com", "+91 9876543211", Admin)
  ]

  const DemoPassword := "password"

  /** `find` by exact email: the first user with that email, if any. */
  function FindByEmail(users: seq<User>, email: string): (r: Option<User>)
    ensures r.Some? <==> exists u :: u in users && u.email == email
    ensures r.Some? ==> r.value in users && r.value.email == email
    ensures r.Some? ==> exists i :: 0 <= i < |users| && users[i] == r.value && NoEmailBefore(users, i, email)
  {
    if users == [] then None
    else if users[0].email == email then
      assert NoEmailBefore(users, 0, email);
      Some(users[0])
    else
      var r := FindByEmail(users[1..], email);
      assert r.Some? ==> exists i :: 0 <= i < |users| && users[i] == r.value && NoEmailBefore(users, i, email) by {
        if r.Some? {
          var k :| 0 <= k < |users[1..]| && users[1..][k] == r.value && NoEmailBefore(users[1..], k, email);
          assert users[k + 1] == r.value;
          assert NoEmailBefore(users, k + 1, email);
        }
      }
      r
  }

  /** No user before position `i` has this email. */
  predicate NoEmailBefore(users: seq<User>, i: nat, email: string)
    requires i <= |users|
  {
    forall j :: 0 <= j < i ==> users[j].email != email
  }

  /** The user a login with these credentials signs in, if it succeeds. */
  function LoginResult(email: string, password: string): (r: Option<User>)
    ensures r.Some? <==> (exists u :: u in DummyUsers && u.email == email) && password == DemoPassword
    ensures r.Some? ==> r.value in DummyUsers && r.value.email == email
  {
    var found := FindByEmail(DummyUsers, email);
    if found.Some? && password == DemoPassword then found else None
  }

  /** The dummy emails are distinct, so a login picks the only user with that email; there is one user per role. */
  lemma DummyUsersDistinct()
    ensures forall i, j :: 0 <= i < j < |DummyUsers| ==> DummyUsers[i].email != DummyUsers[j].email
    ensures forall u :: u in DummyUsers && u.role == Customer ==> u == DummyUsers[0]
    ensures forall u :: u in DummyUsers && u.role == Admin ==> u == DummyUsers[1]
  {
  }

  /** Whichever dummy user matches an email is the one a login with the demo password signs in. */
  lemma LoginPicksTheMatchingUser(u: User)
    requires u in DummyUsers
    ensures LoginResult(u.email, DemoPassword) == Some(u)
  {
    DummyUsersDistinct();
  }

  /** The email comparison is exact: a differently-cased email or a wrong password is refused. */
  lemma LoginIsExact()
    ensures LoginResult("Customer@tnstc.com", DemoPassword) == None
    ensures LoginResult("customer@tnstc.com", "Password") == None
  {
    assert "Customer@tnstc.com" != "customer@tnstc.com";
    assert "Customer@tnstc.com" != "admin@tnstc.com";
  }

  /** `user?.role === 'admin'`: no signed-in user is not an admin. */
  predicate IsAdmin(user: Option<User>)
    ensures user.None? ==> !IsAdmin(user)
  {
    user.Some? && user.value.role == Admin
  }

  /** Of the demo accounts, exactly the admin@tnstc.com one signs in as an admin. */
  lemma SignedInAdminIsAdminAccount(email: string, password: string)
    requires LoginResult(email, password).Some?
    ensures IsAdmin(LoginResult(email, password)) <==> email == "admin@tnstc.com"
  {
  }

  /** The provider's state. */
  class AuthContext {
    var user: Option<User>
    var isLoading: bool

    constructor ()
      ensures user == None && !isLoading
    {
      user := None;
      isLoading := false;
    }

    /** `login`, without the simulated delay: a success signs the matching user in, a failure keeps the old user. */
    method Login(email: string, password: string) returns (ok: bool)
      modifies this
      ensures ok <==> LoginResult(email, password).Some?
      ensures ok ==> user == LoginResult(email, password)
      ensures !ok ==> user == old(user)
      ensures !isLoading
    {
      isLoading := true;
      var found := FindByEmail(DummyUsers, email);
      if found.Some? && password == DemoPassword {
        user := found;
        isLoading := false;
        return true;
      }
      isLoading := false;
      return false;
    }

    method Logout()
      modifies this
      ensures user == None && isLoading == old(isLoading)
    {
      user := None;
    }
  }
}
