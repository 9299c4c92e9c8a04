/** The registration form: client-side checks, then the provider's register. */
module RegisterForm {
  import opened Types
  import AuthContext

  const RequiredFieldsMessage: string := "Please fill all required fields"
  const ShortPasswordMessage: string := "Password must be at least 6 characters long"
  const RegisterFallbackMessage: string := "Registration failed. Please try again."
  const MinPasswordLength: nat := 6
  const Home: string := "/"

  /** The checks of handleSubmit, in order: the four required fields first,
      then the password length in UTF-16 code units. The vehicle is not checked. */
  function Validate(name: string, email: string, password: string, phone: string): (r: Option<string>)
    ensures r.None? <==>
      name != "" && email != "" && password != "" && phone != "" && Utf16Length(password) >= MinPasswordLength
    ensures (name == "" || email == "" || password == "" || phone == "") ==> r == Some(RequiredFieldsMessage)
    ensures r.Some? ==> r.value == RequiredFieldsMessage || r.value == ShortPasswordMessage
    ensures name != "" && email != "" && password != "" && phone != "" && Utf16Length(password) < MinPasswordLength
      ==> r == Some(ShortPasswordMessage)
  {
    if name == "" || email == "" || password == "" || phone == "" then Some(RequiredFieldsMessage)
    else if Utf16Length(password) < MinPasswordLength then Some(ShortPasswordMessage)
    else None
  }

  /** For a password without characters outside the Basic Multilingual Plane,
      the length rule is |password| >= 6: five characters are refused, six pass. */
  lemma PasswordLengthBoundary(name: string, email: string, password: string, phone: string)
    requires name != "" && email != "" && phone != ""
    requires forall i :: 0 <= i < |password| ==> password[i] as int < 0x1_0000
    ensures |password| == 5 ==> Validate(name, email, password, phone) == Some(ShortPasswordMessage)
    ensures |password| >= 6 ==> Validate(name, email, password, phone).None?
  {
    Utf16LengthOfBmp(password);
  }

  lemma {:induction false} Utf16LengthOfBmp(s: string)
    requires forall i :: 0 <= i < |s| ==> s[i] as int < 0x1_0000
    ensures Utf16Length(s) == |s|
  {
    if s != [] {
      Utf16LengthOfBmp(s[1..]);
    }
  }

  /** Three emoji make a password of JavaScript length 6, so they pass. */
  lemma ThreeEmojiPasswordPasses(name: string, email: string, phone: string)
    requires name != "" && email != "" && phone != ""
    ensures Validate(name, email, "\U{1F600}\U{1F600}\U{1F600}", phone).None?
  {
    var p: string := "\U{1F600}\U{1F600}\U{1F600}";
    assert p[1..][1..][1..] == [];
    assert Utf16Length(p[1..][1..]) == 2;
  }

  /** `err.message || "Registration failed. Please try again."` */
  function FailureMessage(t: Thrown): (r: string)
    ensures Truthy(t.message) ==> r == t.message.value
    ensures !Truthy(t.message) ==> r == RegisterFallbackMessage
    ensures r != ""
  {
    if t.message.Some? && t.message.value != "" then t.message.value else RegisterFallbackMessage
  }

  /** A server error body with a message shows that message; without one, the
      fallback, even when the transport error had a message of its own. */
  lemma ServerMessageWins(e: GatewayError)
    requires e.responseData.Some?
    ensures FailureMessage(AuthContext.Rethrown(e)) ==
      (if Truthy(e.responseData.value.message) then e.responseData.value.message.value else RegisterFallbackMessage)
  {
  }

  class RegisterFormState {
    var name: string
    var email: string
    var password: string
    var phone: string
    var vehicle: string
    var error: string
    /** Every value written to `error`, oldest first. */
    ghost var errorLog: seq<string>

    constructor ()
      ensures name == "" && email == "" && password == "" && phone == "" && vehicle == ""
      ensures error == "" && errorLog == []
    {
      name, email, password, phone, vehicle := "", "", "", "", "";
      error := "";
      errorLog := [];
    }

    /** The inputs as typed. */
    method Fill(name: string, email: string, password: string, phone: string, vehicle: string)
      modifies this`name, this`email, this`password, this`phone, this`vehicle
      ensures this.name == name && this.email == email && this.password == password
      ensures this.phone == phone && this.vehicle == vehicle
    {
      this.name, this.email, this.password, this.phone, this.vehicle := name, email, password, phone, vehicle;
    }

    /** handleSubmit. The error is cleared first. A failed check sets its message
        and the provider is not touched. Otherwise register is called with the
        vehicle as typed (possibly empty); success navigates home, failure shows
        the rethrown message or the fallback. */
    method HandleSubmit(auth: AuthContext.AuthProvider, reply: Outcome<AuthContext.Session>)
      returns (request: Option<AuthContext.RegisterRequest>, navigateTo: Option<string>)
      modifies this`error, this`errorLog, auth
      ensures Validate(name, email, password, phone).Some? ==>
        && request == None && navigateTo == None
        && error == Validate(name, email, password, phone).value
        && errorLog == old(errorLog) + ["", error]
        && unchanged(auth)
      ensures Validate(name, email, password, phone).None? ==>
        && request == Some(AuthContext.RegisterRequest(name, email, password, phone, Some(vehicle)))
        && auth.State() == AuthContext.AfterAuthReply(old(auth.State()), reply)
        && auth.loadingLog == old(auth.loadingLog) + [true, false]
      ensures Validate(name, email, password, phone).None? && reply.Success? ==>
        navigateTo == Some(Home) && error == "" && errorLog == old(errorLog) + [""]
      ensures Validate(name, email, password, phone).None? && reply.Failure? ==>
        && navigateTo == None
        && error == FailureMessage(AuthContext.Rethrown(reply.error))
        && errorLog == old(errorLog) + ["", error]
    {
      error := "";
      errorLog := errorLog + [""];
      var invalid := Validate(name, email, password, phone);
      if invalid.Some? {
        error := invalid.value;
        errorLog := errorLog + [error];
        return None, None;
      }
      var sent, thrown := auth.Register(name, email, password, phone, Some(vehicle), reply);
      request := Some(sent);
      if thrown.None? {
        navigateTo := Some(Home);
      } else {
        navigateTo := None;
        error := FailureMessage(thrown.value);
        errorLog := errorLog + [error];
      }
    }
  }
}
