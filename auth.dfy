/**
 * The mock authentication context (src/context/AuthContext.tsx): one
 * `{user, isAuthenticated}` record overwritten by `login`, `signup` and
 * `logout`. The one-second timer and the promise around each transition are
 * dropped; a transition's outcome is what the promise would settle to.
 */
module Auth {
  import opened Wrappers
  import opened Types

  /** The fixed identity every successful login yields. */
  const MockUser := User("1", "Demo User", "demo@triosart.com")

  /** How the returned promise settles. */
  datatype Outcome = Resolved | Rejected(message: string)

  class AuthProvider {
    var user: Option<User>
    var isAuthenticated: bool

    /** A user is present exactly when the session is authenticated. */
    predicate Valid()
      reads this
    {
      isAuthenticated <==> user.Some?
    }

    /** Nobody is signed in at start. */
    constructor ()
      ensures Valid()
      ensures user == None && !isAuthenticated
    {
      user := None;
      isAuthenticated := false;
    }

    /**
     * Both fields must be non-empty (JavaScript truthiness of a string); the
     * supplied email is not used: the session always becomes the demo user.
     */
    method Login(email: string, password: string) returns (outcome: Outcome)
      requires Valid()
      modifies this
      ensures Valid()
      ensures email != "" && password != "" ==> outcome == Resolved && user == Some(MockUser) && isAuthenticated
      ensures email == "" || password == "" ==>
        outcome == Rejected("Invalid credentials") && user == old(user) && isAuthenticated == old(isAuthenticated)
    {
      if email != "" && password != "" {
        user, isAuthenticated := Some(MockUser), true;
        outcome := Resolved;
      } else {
        outcome := Rejected("Invalid credentials");
      }
    }

    /** All three fields must be non-empty; the new user is the demo user with the supplied name and email. */
    method Signup(name: string, email: string, password: string) returns (outcome: Outcome)
      requires Valid()
      modifies this
      ensures Valid()
      ensures name != "" && email != "" && password != "" ==>
        outcome == Resolved && user == Some(User(MockUser.id, name, email)) && isAuthenticated
      ensures name == "" || email == "" || password == "" ==>
        outcome == Rejected("Invalid information") && user == old(user) && isAuthenticated == old(isAuthenticated)
    {
      if name != "" && email != "" && password != "" {
        user, isAuthenticated := Some(MockUser.(name := name, email := email)), true;
        outcome := Resolved;
      } else {
        outcome := Rejected("Invalid information");
      }
    }

    /** From any state, back to nobody signed in; so a second logout changes nothing. */
    method Logout()
      modifies this
      ensures Valid()
      ensures user == None && !isAuthenticated
    {
      user, isAuthenticated := None, false;
    }
  }

  /** An empty email is refused, a full login signs in, a refused signup keeps the session, and a second logout changes nothing. */
  method Scenarios()
  {
    var auth := new AuthProvider();
    var outcome := auth.Login("", "x");
    assert outcome.Rejected? && !auth.isAuthenticated;
    outcome := auth.Login("a@b.com", "pw");
    assert outcome == Resolved && auth.isAuthenticated && auth.user == Some(MockUser);
    outcome := auth.Signup("Ann", "", "pw");
    assert outcome == Rejected("Invalid information") && auth.user == Some(MockUser);
    auth.Logout();
    auth.Logout();
    assert auth.user == None && !auth.isAuthenticated;
  }
}
