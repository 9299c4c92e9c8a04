/** The login form: a both-fields check, then the provider's login. */
module LoginForm {
  import opened Types
  import AuthContext

  const BothFieldsMessage: string := "Please enter both email and password"
  const InvalidCredentialsMessage: string := "Invalid email or password"
  const Home: string := "/"

  /** The only client-side check: both fields non-empty. */
  function Validate(email: string, password: string): (r: Option<string>)
    ensures r.None? <==> email != "" && password != ""
    ensures r.Some? ==> r.value == BothFieldsMessage
  {
    if email == "" || password == "" then Some(BothFieldsMessage) else None
  }

  class LoginFormState {
    var email: string
    var password: string
    var error: string
    /** Every value written to `error`, oldest first. */
    ghost var errorLog: seq<string>

    constructor ()
      ensures email == "" && password == "" && error == "" && errorLog == []
    {
      email, password, error := "", "", "";
      errorLog := [];
    }

    /** The inputs as typed. */
    method Fill(email: string, password: string)
      modifies this`email, this`password
      ensures this.email == email && this.password == password
    {
      this.email, this.password := email, password;
    }

    /** handleSubmit. The error is cleared first; an empty field sets its message
        and the provider is not touched; otherwise login is called, success
        navigates home and any failure, whatever it carried, reads
        "Invalid email or password". */
    method HandleSubmit(auth: AuthContext.AuthProvider, reply: Outcome<AuthContext.Session>)
      returns (request: Option<AuthContext.LoginRequest>, navigateTo: Option<string>)
      modifies this`error, this`errorLog, auth
      ensures Validate(email, password).Some? ==>
        && request == None && navigateTo == None
        && error == BothFieldsMessage && errorLog == old(errorLog) + ["", error]
        && unchanged(auth)
      ensures Validate(email, password).None? ==>
        && request == Some(AuthContext.LoginRequest(email, password))
        && auth.State() == AuthContext.AfterAuthReply(old(auth.State()), reply)
        && auth.loadingLog == old(auth.loadingLog) + [true, false]
      ensures Validate(email, password).None? && reply.Success? ==>
        navigateTo == Some(Home) && error == "" && errorLog == old(errorLog) + [""]
      ensures Validate(email, password).None? && reply.Failure? ==>
        navigateTo == None && error == InvalidCredentialsMessage && errorLog == old(errorLog) + ["", error]
    {
      error := "";
      errorLog := errorLog + [""];
      var invalid := Validate(email, password);
      if invalid.Some? {
        error := invalid.value;
        errorLog := errorLog + [error];
        return None, None;
      }
      var sent, thrown := auth.Login(email, password, reply);
      request := Some(sent);
      if thrown.None? {
        navigateTo := Some(Home);
      } else {
        navigateTo := None;
        error := InvalidCredentialsMessage;
        errorLog := errorLog + [error];
      }
    }
  }
}
