/** The admin sign-in form of src/pages/Admin/AdminLogin.tsx. The two
    accepted credentials are fixed in the program; here they are abstract
    constants, the submission steps are stated for any pair, and the form
    uses the program's pair. The answer of `signIn` is a parameter: `None`
    when it succeeds, `Some(message)` when it throws (the message may be
    absent). */
module AdminLogin {
  import opened Common

  datatype Level = Success | Error | Warning

  datatype Notice = Notice(message: string, level: Level)

  const BadEmail := Notice("Invalid admin email", Error)
  const BadPassword := Notice("Invalid admin password", Error)
  const Welcome := Notice("Admin login successful", Success)
  const BadCredentials := Notice("Invalid admin credentials. Please check your email and password.", Error)
  const Bypassed := Notice("Authentication system error. Admin login bypassed.", Warning)

  /** The only email and password the form lets through to `signIn`. Their
      values are left abstract. */
  const AdminEmail: string
  const AdminPassword: string

  /** What one submission does: whether `signIn` is called, whether
      `onSuccess` is called, and the notification shown. */
  datatype Outcome = Outcome(signInCalled: bool, successCalled: bool, notice: Notice)

  /** The steps of `handleSubmit`. */
  function SubmitOutcome(email: string, password: string, adminEmail: string, adminPassword: string,
                         signInError: Option<Option<string>>): (o: Outcome)
    ensures email != adminEmail ==> o == Outcome(false, false, BadEmail)
    ensures email == adminEmail && password != adminPassword ==> o == Outcome(false, false, BadPassword)
    ensures o.signInCalled <==> email == adminEmail && password == adminPassword
    ensures o.signInCalled && signInError.None? ==> o.successCalled && o.notice == Welcome
    ensures o.signInCalled && signInError.Some? ==>
              (o.successCalled <==> Truthy(signInError.value)
                                    && !Includes(signInError.value.value, "Invalid login credentials")
                                    && Includes(signInError.value.value, "schema"))
    ensures o.successCalled ==> o.signInCalled
  {
    if email != adminEmail then Outcome(false, false, BadEmail)
    else if password != adminPassword then Outcome(false, false, BadPassword)
    else match signInError
      case None => Outcome(true, true, Welcome)
      case Some(message) =>
        if Truthy(message) && Includes(message.value, "Invalid login credentials") then Outcome(true, false, BadCredentials)
        else if Truthy(message) && Includes(message.value, "schema") then Outcome(true, true, Bypassed)
        else Outcome(true, false, Notice(OrElse(message, "Failed to sign in"), Error))
  }

  /** A rejected sign-in whose message mentions invalid credentials is
      reported as bad credentials and never bypassed, even when the message
      also mentions the schema. */
  lemma CredentialsBeforeSchema(email: string, password: string, adminEmail: string, adminPassword: string, message: string)
    requires email == adminEmail && password == adminPassword
    requires Includes(message, "Invalid login credentials")
    ensures SubmitOutcome(email, password, adminEmail, adminPassword, Some(Some(message))) == Outcome(true, false, BadCredentials)
  {
    if message == "" {
      var k := IncludesWitness(message, "Invalid login credentials");
    }
  }

  class AdminLoginForm {
    const adminEmail: string
    const adminPassword: string
    var email: string
    var password: string
    var loading: bool

    constructor ()
      ensures adminEmail == AdminEmail && adminPassword == AdminPassword
      ensures email == "" && password == "" && !loading
    {
      adminEmail := AdminEmail;
      adminPassword := AdminPassword;
      email := "";
      password := "";
      loading := false;
    }

    method SetEmail(value: string)
      modifies this
      ensures email == value && password == old(password) && loading == old(loading)
    {
      email := value;
    }

    method SetPassword(value: string)
      modifies this
      ensures password == value && email == old(email) && loading == old(loading)
    {
      password := value;
    }

    /** `handleSubmit`: loading is on while it runs and off on every path;
        the fields keep what was typed. */
    method HandleSubmit(signInError: Option<Option<string>>) returns (outcome: Outcome)
      modifies this
      ensures outcome == SubmitOutcome(old(email), old(password), adminEmail, adminPassword, signInError)
      ensures email == old(email) && password == old(password) && !loading
    {
      loading := true;
      if email != adminEmail {
        outcome := Outcome(false, false, BadEmail);
        loading := false;
        return;
      }
      if password != adminPassword {
        outcome := Outcome(false, false, BadPassword);
        loading := false;
        return;
      }
      match signInError {
        case None =>
          outcome := Outcome(true, true, Welcome);
        case Some(message) =>
          if Truthy(message) && Includes(message.value, "Invalid login credentials") {
            outcome := Outcome(true, false, BadCredentials);
          } else if Truthy(message) && Includes(message.value, "schema") {
            outcome := Outcome(true, true, Bypassed);
          } else {
            outcome := Outcome(true, false, Notice(OrElse(message, "Failed to sign in"), Error));
          }
      }
      loading := false;
    }
  }
}
