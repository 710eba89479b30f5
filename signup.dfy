/**
 * Signup: the registration form. It validates the four fields in a fixed order and calls
 * the context's signup only when every check passes.
 */
module Signup {
  import opened Wrappers
  import AuthContext

  const FillAllFields := "Please fill in all fields"
  const PasswordsDiffer := "Passwords do not match"
  const PasswordTooShort := "Password must be at least 6 characters"

  /** The form's checks in order: empty fields first, then the confirmation, then the length. */
  function Validate(email: string, username: string, password: string, confirmPassword: string): (error: Option<string>)
    ensures (email == "" || username == "" || password == "" || confirmPassword == "") ==> error == Some(FillAllFields)
    ensures (email != "" && username != "" && password != "" && confirmPassword != "" && password != confirmPassword)
            ==> error == Some(PasswordsDiffer)
    ensures (email != "" && username != "" && password != "" && password == confirmPassword && |password| < 6)
            ==> error == Some(PasswordTooShort)
    ensures error.None? <==> email != "" && username != "" && password == confirmPassword && |password| >= 6
  {
    if email == "" || username == "" || password == "" || confirmPassword == "" then Some(FillAllFields)
    else if password != confirmPassword then Some(PasswordsDiffer)
    else if |password| < 6 then Some(PasswordTooShort)
    else None
  }

  /** The form state; auth is the context whose signup the form calls. */
  class SignupForm {
    const auth: AuthContext.AuthStore
    var email: string
    var username: string
    var password: string
    var confirmPassword: string
    var error: string
    var loading: bool

    constructor (auth: AuthContext.AuthStore)
      ensures this.auth == auth
      ensures email == "" && username == "" && password == "" && confirmPassword == "" && error == "" && !loading
    {
      this.auth := auth;
      email := "";
      username := "";
      password := "";
      confirmPassword := "";
      error := "";
      loading := false;
    }

    /**
     * handleSubmit: a failed check shows its message and leaves the users untouched; otherwise
     * signup runs, its error (if any) is shown, and success is reported. loading is false on
     * every exit.
     */
    method HandleSubmit(now: nat, createdAt: string) returns (succeeded: bool)
      modifies this, auth
      ensures !loading
      ensures email == old(email) && username == old(username) && password == old(password)
      ensures confirmPassword == old(confirmPassword)
      ensures var v := Validate(email, username, password, confirmPassword);
              v.Some? ==> error == v.value && !succeeded
                          && auth.users == old(auth.users) && auth.currentUser == old(auth.currentUser)
      ensures Validate(email, username, password, confirmPassword).None? ==>
                var found := AuthContext.Find(old(auth.users), AuthContext.ByEmail(email));
                && (found.Some? ==>
                      !succeeded && error == AuthContext.DuplicateEmail
                      && auth.users == old(auth.users) && auth.currentUser == old(auth.currentUser))
                && (found.None? ==>
                      succeeded && error == ""
                      && auth.users == old(auth.users) + [AuthContext.NewUser(email, password, username, now, createdAt)]
                      && auth.currentUser ==
                         Some(AuthContext.WithoutPassword(AuthContext.NewUser(email, password, username, now, createdAt))))
    {
      error := "";
      loading := true;
      var invalid := Validate(email, username, password, confirmPassword);
      if invalid.Some? {
        error := invalid.value;
        loading := false;
        return false;
      }
      var result := auth.Signup(email, password, username, now, createdAt);
      succeeded := result.Success?;
      if result.Failure? {
        error := result.error;
      }
      loading := false;
    }
  }
}
