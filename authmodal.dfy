/** The sign-in dialog of src/components/AuthModal.tsx: its two mode flags,
    its form fields, which auth call a submission makes, and what success
    and failure leave behind. The auth calls' answers are parameters:
    `None` when the call succeeds, `Some(message)` when it throws (the
    message may be absent). */
module AuthModal {
  import opened Common

  /** `isLogin` and `isAdminLogin`. */
  datatype Mode = Mode(isLogin: bool, isAdminLogin: bool)

  const InitialMode := Mode(true, false)

  /** The text fields, the chosen role and the error line. */
  datatype Fields = Fields(email: string, password: string, fullName: string, role: string, error: string)

  /** What `resetForm` leaves. */
  const BlankFields := Fields("", "", "", "customer", "")

  /** `toggleMode`'s flags: login and sign-up swap, admin login ends. */
  function ModeToggled(m: Mode): (r: Mode)
    ensures r.isLogin == !m.isLogin && !r.isAdminLogin
  {
    Mode(!m.isLogin, false)
  }

  /** `toggleAdminLogin`'s flags: admin login flips, plain login is dropped. */
  function AdminToggled(m: Mode): (r: Mode)
    ensures r.isAdminLogin == !m.isAdminLogin && !r.isLogin
  {
    Mode(false, !m.isAdminLogin)
  }

  /** Toggling admin login twice restores the admin flag but lands on
      sign-up, not on the login the dialog came from; toggling the mode
      twice restores the login flag and leaves admin login off. */
  lemma TogglesTwice(m: Mode)
    ensures AdminToggled(AdminToggled(m)) == Mode(false, m.isAdminLogin)
    ensures AdminToggled(AdminToggled(InitialMode)) == Mode(false, false)
    ensures ModeToggled(ModeToggled(m)) == Mode(m.isLogin, false)
  {
  }

  datatype AuthCall =
    | AdminSignIn(email: string, password: string)
    | SignIn(email: string, password: string)
    | SignUp(email: string, password: string, fullName: string, role: string)

  /** The call `handleSubmit` makes: admin sign-in first, then sign-in,
      otherwise sign-up. */
  function Dispatch(m: Mode, f: Fields): (c: AuthCall)
    ensures c.AdminSignIn? <==> m.isAdminLogin
    ensures c.SignIn? <==> !m.isAdminLogin && m.isLogin
    ensures c.SignUp? <==> !m.isAdminLogin && !m.isLogin
    ensures c.email == f.email && c.password == f.password
    ensures c.SignUp? ==> c.fullName == f.fullName && c.role == f.role
  {
    if m.isAdminLogin then AdminSignIn(f.email, f.password)
    else if m.isLogin then SignIn(f.email, f.password)
    else SignUp(f.email, f.password, f.fullName, f.role)
  }

  /** The fields after a call: cleared on success, kept with the error line
      set on failure. */
  function AfterCall(f: Fields, reply: Option<Option<string>>, fallback: string): (r: Fields)
    requires fallback != ""
    ensures reply.None? ==> r == BlankFields
    ensures reply.Some? ==> r == f.(error := OrElse(reply.value, fallback))
    ensures reply.Some? ==> r.error != ""
  {
    if reply.None? then BlankFields else f.(error := OrElse(reply.value, fallback))
  }

  /** Only the sign-up form shows the full-name field. */
  predicate ShowsFullName(m: Mode) {
    !m.isLogin && !m.isAdminLogin
  }

  /** The dialog's heading. */
  function Title(m: Mode): (t: string)
    ensures m.isAdminLogin ==> t == "Admin Login"
    ensures !m.isAdminLogin && m.isLogin ==> t == "Welcome Back"
    ensures ShowsFullName(m) <==> t == "Join Our Kitchen"
  {
    if m.isAdminLogin then "Admin Login" else if m.isLogin then "Welcome Back" else "Join Our Kitchen"
  }

  /** What renders: nothing while closed, otherwise the heading of the mode. */
  function Render(isOpen: bool, m: Mode): (r: Option<string>)
    ensures r.None? <==> !isOpen
    ensures r.Some? ==> r.value == Title(m)
  {
    if !isOpen then None else Some(Title(m))
  }

  /** The heading names the call a submission makes. */
  lemma TitleMatchesDispatch(m: Mode, f: Fields)
    ensures Title(m) == "Admin Login" <==> Dispatch(m, f).AdminSignIn?
    ensures Title(m) == "Welcome Back" <==> Dispatch(m, f).SignIn?
    ensures Title(m) == "Join Our Kitchen" <==> Dispatch(m, f).SignUp?
  {
  }

  class AuthDialog {
    var mode: Mode
    var fields: Fields
    var loading: bool

    constructor ()
      ensures mode == InitialMode && fields == BlankFields && !loading
    {
      mode := InitialMode;
      fields := BlankFields;
      loading := false;
    }

    /** The inputs' `onChange` handlers. */
    method SetFields(email: string, password: string, fullName: string)
      modifies this
      ensures fields == old(fields).(email := email, password := password, fullName := fullName)
      ensures mode == old(mode) && loading == old(loading)
    {
      fields := fields.(email := email, password := password, fullName := fullName);
    }

    /** `resetForm`: the fields are cleared; the mode is left alone. */
    method ResetForm()
      modifies this
      ensures fields == BlankFields && mode == old(mode) && loading == old(loading)
    {
      fields := BlankFields;
    }

    method ToggleMode()
      modifies this
      ensures mode == ModeToggled(old(mode)) && fields == BlankFields && loading == old(loading)
    {
      mode := Mode(!mode.isLogin, false);
      ResetForm();
    }

    method ToggleAdminLogin()
      modifies this
      ensures mode == AdminToggled(old(mode)) && fields == BlankFields && loading == old(loading)
    {
      mode := Mode(false, !mode.isAdminLogin);
      ResetForm();
    }

    /** `handleSubmit`: the call is made with the fields as typed; success
        closes the dialog and clears the fields, failure keeps it open with
        the error. Loading ends false. */
    method HandleSubmit(reply: Option<Option<string>>) returns (call: AuthCall, closed: bool)
      modifies this
      ensures call == Dispatch(old(mode), old(fields).(error := ""))
      ensures closed <==> reply.None?
      ensures fields == AfterCall(old(fields).(error := ""), reply, "An error occurred")
      ensures mode == old(mode) && !loading
    {
      fields := fields.(error := "");
      loading := true;
      if mode.isAdminLogin {
        call := AdminSignIn(fields.email, fields.password);
      } else if mode.isLogin {
        call := SignIn(fields.email, fields.password);
      } else {
        call := SignUp(fields.email, fields.password, fields.fullName, fields.role);
      }
      if reply.None? {
        closed := true;
        ResetForm();
      } else {
        closed := false;
        fields := fields.(error := OrElse(reply.value, "An error occurred"));
      }
      loading := false;
    }

    /** `handleGuestContinue`: continues as a guest under the full name as
        typed. */
    method HandleGuestContinue(reply: Option<Option<string>>) returns (displayName: string, closed: bool)
      modifies this
      ensures displayName == old(fields).fullName
      ensures closed <==> reply.None?
      ensures fields == AfterCall(old(fields).(error := ""), reply, "Unable to continue as guest")
      ensures mode == old(mode) && !loading
    {
      fields := fields.(error := "");
      loading := true;
      displayName := fields.fullName;
      if reply.None? {
        closed := true;
        ResetForm();
      } else {
        closed := false;
        fields := fields.(error := OrElse(reply.value, "Unable to continue as guest"));
      }
      loading := false;
    }
  }
}
