/**
 * The login screen: the empty-field guard before calling the auth context's
 * login, the navigation to the dashboard on success, and the demo
 * credential buttons.
 */
module LoginScreen {
  import opened Wrappers
  import opened Auth

  /** What the user sees after pressing "Sign in". */
  datatype LoginFeedback = MissingFields | InvalidCredentials | Navigated

  /** The email the demo button for a role fills in. */
  function DemoEmail(kind: Role): string {
    match kind
    case Customer => "customer@tnstc.com"
    case Admin => "admin@tnstc.com"
  }

  /** The demo credentials for a role always sign in a user of that role. */
  lemma DemoCredentialsAccepted(kind: Role)
    ensures LoginResult(DemoEmail(kind), DemoPassword).Some?
    ensures LoginResult(DemoEmail(kind), DemoPassword).value.role == kind
  {
    assert DummyUsers[0].email == "customer@tnstc.com";
    assert DummyUsers[1].email == "admin@tnstc.com";
  }

  class LoginForm {
    var email: string
    var password: string
    /** The routes the screen has navigated to, in order. */
    ghost var navigations: seq<string>

    constructor ()
      ensures email == "" && password == "" && navigations == []
    {
      email := "";
      password := "";
      navigations := [];
    }

    /** The email input (`onChangeText={setEmail}`). */
    method SetEmail(text: string)
      modifies this
      ensures email == text && password == old(password) && navigations == old(navigations)
    {
      email := text;
    }

    /** The password input (`onChangeText={setPassword}`). */
    method SetPassword(text: string)
      modifies this
      ensures password == text && email == old(email) && navigations == old(navigations)
    {
      password := text;
    }

    /** `fillCredentials`: the role's demo email and the demo password. */
    method FillCredentials(kind: Role)
      modifies this
      ensures email == DemoEmail(kind) && password == DemoPassword
      ensures navigations == old(navigations)
    {
      if kind == Customer {
        email := "customer@tnstc.com";
      } else {
        email := "admin@tnstc.com";
      }
      password := "password";
    }

    /** `handleLogin`: an empty field stops before login; only a successful login navigates to the dashboard. */
    method HandleLogin(auth: AuthContext) returns (feedback: LoginFeedback)
      modifies this, auth
      ensures email == old(email) && password == old(password)
      ensures feedback == MissingFields <==> email == "" || password == ""
      ensures feedback == MissingFields ==> auth.user == old(auth.user) && auth.isLoading == old(auth.isLoading)
      ensures feedback != MissingFields ==>
        (feedback == Navigated <==> LoginResult(email, password).Some?) &&
        !auth.isLoading &&
        auth.user == (if feedback == Navigated then LoginResult(email, password) else old(auth.user))
      ensures navigations == old(navigations) + (if feedback == Navigated then ["/dashboard"] else [])
    {
      if email == "" || password == "" {
        return MissingFields;
      }
      var success := auth.Login(email, password);
      if success {
        navigations := navigations + ["/dashboard"];
        feedback := Navigated;
      } else {
        feedback := InvalidCredentials;
      }
    }
  }
}
