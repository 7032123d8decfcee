/** The identity state of src/contexts/AuthContext.tsx: the signed-in user,
    the application profile, the loading flag and the guest entry kept in the
    browser's storage under `cloud_guest_profile`. Backend replies are
    parameters; a thrown error is an `Outcome`. The transitions are pure
    functions on `AuthState`; the `Identity` class holds the four cells and
    its methods change them exactly as those functions say. */
module Identity {
  import opened Common
  import opened Records

  /** The text stored under the guest key: one a profile was written as, one
      that does not parse, or the empty text (falsy, so never parsed). */
  datatype GuestEntry = Encoded(profile: Profile) | Malformed | Blank

  datatype AuthState = AuthState(
    user: Option<User>,
    profile: Option<Profile>,
    loading: bool,
    guestEntry: Option<GuestEntry>)

  /** The provider before the session is read: nothing known, still loading. */
  function InitialAuth(stored: Option<GuestEntry>): AuthState {
    AuthState(None, None, true, stored)
  }

  /** Whether an awaited call completed or threw (with the error's message). */
  datatype Outcome = Ok | Failed(message: string)

  /** The reply of a profile lookup by id (`maybeSingle`): an error, or the
      row if there is one. */
  datatype ProfileFetch = FetchError(message: string) | Row(row: Option<Profile>)

  /** The reply of a password sign-in or sign-up. */
  datatype AuthReply = AuthFailed(message: string) | AuthOk(user: Option<User>)

  /** A state together with the outcome of the call that produced it. */
  datatype Result = Result(state: AuthState, outcome: Outcome)

  const GuestId := "guest"
  const GuestEmail := "guest@cloudkitchen.local"
  const GuestDefaultName := "Guest Diner"
  const NotAdminMessage := "Not authorized as admin"

  // ---------------------------------------------------------------------------
  // Guest sign-in and sign-out

  /** `displayName?.trim() || 'Guest Diner'`. */
  function GuestName(displayName: Option<string>): (name: string)
    ensures name != ""
    ensures displayName.Some? && Trim(displayName.value) != "" ==> name == Trim(displayName.value)
    ensures displayName.None? || Trim(displayName.value) == "" ==> name == GuestDefaultName
  {
    if displayName.Some? then OrElse(Some(Trim(displayName.value)), GuestDefaultName) else GuestDefaultName
  }

  function GuestProfile(displayName: Option<string>): Profile {
    Profile(GuestId, GuestEmail, GuestName(displayName), None, "guest")
  }

  /** `signInAsGuest(displayName)`. */
  function SignInAsGuestStep(s: AuthState, displayName: Option<string>): AuthState {
    AuthState(None, Some(GuestProfile(displayName)), false, Some(Encoded(GuestProfile(displayName))))
  }

  predicate IsGuest(s: AuthState) {
    s.profile.Some? && s.profile.value.role == "guest"
  }

  /** `signOut()`, where `backendError` is the backend sign-out's error, if
      any; the backend is only called for a non-guest. */
  function SignOutStep(s: AuthState, backendError: Option<string>): Result {
    if IsGuest(s) then Result(s.(user := None, profile := None, guestEntry := None), Ok)
    else if backendError.Some? then Result(s, Failed(backendError.value))
    else Result(s, Ok)
  }

  /** Whether `signOut` calls the backend. */
  predicate SignOutCallsBackend(s: AuthState) {
    !IsGuest(s)
  }

  // ---------------------------------------------------------------------------
  // Session events

  /** `fetchProfile(userId)` once its reply is in: an error keeps the profile. */
  function FetchProfileStep(s: AuthState, reply: ProfileFetch): AuthState {
    match reply
    case FetchError(_) => s.(loading := false)
    case Row(row) => s.(profile := row, loading := false)
  }

  /** The startup callback, given the session's user and, when there is one,
      the profile lookup's reply. */
  function StartupStep(s: AuthState, sessionUser: Option<User>, reply: ProfileFetch): AuthState {
    var s1 := s.(user := sessionUser);
    if sessionUser.Some? then FetchProfileStep(s1, reply)
    else
      match s1.guestEntry
      case Some(Encoded(p)) => s1.(profile := Some(p), loading := false)
      case Some(Malformed) => s1.(guestEntry := None, loading := false)
      case _ => s1.(loading := false)
  }

  /** The auth-change handler for an event carrying this session user. */
  function AuthChangeStep(s: AuthState, sessionUser: Option<User>, reply: ProfileFetch): AuthState {
    var s1 := s.(user := sessionUser);
    if sessionUser.Some? then FetchProfileStep(s1, reply)
    else s1.(profile := None, guestEntry := None, loading := false)
  }

  // ---------------------------------------------------------------------------
  // Password flows

  /** `adminSignIn(email, password)` given the sign-in reply and the profile
      lookup's reply. */
  function AdminSignInStep(s: AuthState, auth: AuthReply, reply: ProfileFetch): Result {
    match auth
    case AuthFailed(m) => Result(s, Failed(m))
    case AuthOk(None) => Result(s, Ok)
    case AuthOk(Some(_)) =>
      match reply
      case FetchError(m) => Result(s, Failed(m))
      case Row(None) => Result(s, Failed(NotAdminMessage))
      case Row(Some(p)) =>
        if p.role != "admin" then Result(s, Failed(NotAdminMessage)) else Result(s.(profile := Some(p)), Ok)
  }

  /** The profile row `signUp` inserts. */
  datatype ProfileInsert = ProfileInsert(id: string, email: string, fullName: string, role: string)

  /** The roles a new account may choose. */
  predicate SignUpRole(role: string) {
    role == "customer" || role == "restaurant_owner"
  }

  /** The effect of `signUp(email, password, fullName, role)`: the profile row
      it writes, if any, and its outcome given the insert's error. */
  datatype SignUpEffect = SignUpEffect(insert: Option<ProfileInsert>, outcome: Outcome)

  function SignUpFlow(email: string, fullName: string, role: string, auth: AuthReply, insertError: Option<string>): SignUpEffect
    requires SignUpRole(role)
  {
    match auth
    case AuthFailed(m) => SignUpEffect(None, Failed(m))
    case AuthOk(None) => SignUpEffect(None, Ok)
    case AuthOk(Some(u)) =>
      var row := ProfileInsert(u.id, email, fullName, role);
      if insertError.Some? then SignUpEffect(Some(row), Failed(insertError.value)) else SignUpEffect(Some(row), Ok)
  }

  /** `signIn(email, password)`: only the reply's error matters. */
  function SignInOutcome(auth: AuthReply): Outcome {
    match auth
    case AuthFailed(m) => Failed(m)
    case AuthOk(_) => Ok
  }

  // ---------------------------------------------------------------------------
  // Properties

  /** Guest sign-in: no user, the guest profile with the trimmed name (or the
      default), the same profile written to storage, and loading over. */
  lemma SignInAsGuestSpec(s: AuthState, displayName: Option<string>)
    ensures var r := SignInAsGuestStep(s, displayName);
            r.user == None && !r.loading && IsGuest(r)
            && r.profile.value.id == GuestId && r.profile.value.email == GuestEmail
            && r.guestEntry == Some(Encoded(r.profile.value))
  {
  }

  /** The display name is trimmed; a blank one falls back to the default. */
  lemma GuestNameTrimmed()
    ensures GuestName(Some("  Ada ")) == "Ada"
  {
    TrimAda();
  }

  lemma TrimAda()
    ensures Trim("  Ada ") == "Ada"
  {
    var s0 := "  Ada ";
    var s1 := " Ada ";
    var s2 := "Ada ";
    var s3 := "Ada";
    assert s0[1..] == s1 && s1[1..] == s2;
    assert IsJsWhitespace(s0[0]) && IsJsWhitespace(s1[0]) && !IsJsWhitespace(s2[0]);
    assert TrimStart(s2) == s2;
    assert TrimStart(s1) == s2;
    assert TrimStart(s0) == s2;
    assert s2[..|s2| - 1] == s3;
    assert IsJsWhitespace(s2[|s2| - 1]) && !IsJsWhitespace(s3[|s3| - 1]);
    assert TrimEnd(s3) == s3;
    assert TrimEnd(s2) == s3;
  }

  lemma GuestNameDefault()
    ensures GuestName(Some(" ")) == GuestDefaultName
    ensures GuestName(None) == GuestDefaultName
  {
    TrimBlank();
  }

  lemma TrimBlank()
    ensures Trim(" ") == ""
  {
    assert TrimStart(" ") == TrimStart("") by { assert " "[1..] == ""; }
  }

  /** A guest signed in before a reload is restored by the next startup. */
  lemma GuestSurvivesReload(s: AuthState, displayName: Option<string>, reply: ProfileFetch)
    ensures var before := SignInAsGuestStep(s, displayName);
            var after := StartupStep(InitialAuth(before.guestEntry), None, reply);
            after.profile == before.profile && after.user == None && !after.loading
  {
  }

  /** Guest sign-out clears user, profile and the stored entry and never
      fails; any other sign-out leaves the local state to the auth-change
      event and fails exactly when the backend reports an error. */
  lemma SignOutSpec(s: AuthState, backendError: Option<string>)
    ensures IsGuest(s) ==>
              var r := SignOutStep(s, backendError).state;
              r.user == None && r.profile == None && r.guestEntry == None && r.loading == s.loading
              && SignOutStep(s, backendError).outcome == Ok && !SignOutCallsBackend(s)
    ensures !IsGuest(s) ==>
              SignOutStep(s, backendError).state == s
              && (SignOutStep(s, backendError).outcome.Failed? <==> backendError.Some?)
  {
  }

  /** A sign-out event clears user, profile and the stored guest entry and
      ends loading; a sign-in event sets the user and then the fetched row
      (absent row: no profile), keeping the profile when the lookup fails. */
  lemma AuthChangeSpec(s: AuthState, sessionUser: Option<User>, reply: ProfileFetch)
    ensures var r := AuthChangeStep(s, sessionUser, reply);
            r.user == sessionUser && !r.loading
    ensures sessionUser.None? ==>
              var r := AuthChangeStep(s, sessionUser, reply);
              r.profile == None && r.guestEntry == None
    ensures sessionUser.Some? ==>
              var r := AuthChangeStep(s, sessionUser, reply);
              r.guestEntry == s.guestEntry
              && (reply.Row? ==> r.profile == reply.row)
              && (reply.FetchError? ==> r.profile == s.profile)
  {
  }

  /** Startup without a session restores a parseable entry, deletes an
      unparseable one (the profile stays as it was, so none from the initial
      state), leaves a blank one alone, and always ends loading. */
  lemma StartupSpec(stored: Option<GuestEntry>, sessionUser: Option<User>, reply: ProfileFetch)
    ensures !StartupStep(InitialAuth(stored), sessionUser, reply).loading
    ensures StartupStep(InitialAuth(stored), sessionUser, reply).user == sessionUser
    ensures sessionUser.None? ==>
              var r := StartupStep(InitialAuth(stored), sessionUser, reply);
              (stored.Some? && stored.value.Encoded? ==> r.profile == Some(stored.value.profile) && r.guestEntry == stored)
              && (stored == Some(Malformed) ==> r.profile == None && r.guestEntry == None)
              && (stored == Some(Blank) || stored == None ==> r.profile == None && r.guestEntry == stored)
    ensures sessionUser.Some? ==>
              var r := StartupStep(InitialAuth(stored), sessionUser, reply);
              r.guestEntry == stored && r.profile == (if reply.Row? then reply.row else None)
  {
  }

  /** Admin sign-in sets a profile only for an existing row with role admin,
      and then completes; in every other case the local state is unchanged.
      A refusal does not sign out: the backend session the password sign-in
      opened stays, and the next auth event installs that user
      (`AuthChangeStep`). */
  lemma AdminSignInSpec(s: AuthState, auth: AuthReply, reply: ProfileFetch)
    ensures var r := AdminSignInStep(s, auth, reply);
            r.state == s || (r.state == s.(profile := r.state.profile) && r.outcome == Ok
                             && r.state.profile.Some? && r.state.profile.value.role == "admin"
                             && reply == Row(r.state.profile))
    ensures auth.AuthOk? && auth.user.Some? ==>
              (AdminSignInStep(s, auth, reply).outcome == Ok <==>
                 reply.Row? && reply.row.Some? && reply.row.value.role == "admin")
    ensures auth.AuthFailed? ==> AdminSignInStep(s, auth, reply) == Result(s, Failed(auth.message))
  {
  }

  /** Sign-up writes a profile row exactly when the backend returns a user,
      with that user's id and the given details, and its role is never guest
      or admin. */
  lemma SignUpSpec(email: string, fullName: string, role: string, auth: AuthReply, insertError: Option<string>)
    requires SignUpRole(role)
    ensures var e := SignUpFlow(email, fullName, role, auth, insertError);
            (e.insert.Some? <==> auth.AuthOk? && auth.user.Some?)
            && (e.insert.Some? ==>
                  e.insert.value == ProfileInsert(auth.user.value.id, email, fullName, role)
                  && e.insert.value.role != "guest" && e.insert.value.role != "admin")
            && (e.outcome == Ok <==> auth.AuthOk? && (auth.user.Some? ==> insertError.None?))
  {
  }

  // ---------------------------------------------------------------------------
  // The provider

  class Identity {
    var user: Option<User>
    var profile: Option<Profile>
    var loading: bool
    var guestEntry: Option<GuestEntry>

    function State(): AuthState
      reads this
    {
      AuthState(user, profile, loading, guestEntry)
    }

    /** A provider mounting over whatever the storage holds. */
    constructor (stored: Option<GuestEntry>)
      ensures State() == InitialAuth(stored)
    {
      user := None;
      profile := None;
      loading := true;
      guestEntry := stored;
    }

    method FetchProfile(reply: ProfileFetch)
      modifies this
      ensures State() == FetchProfileStep(old(State()), reply)
    {
      if reply.Row? {
        profile := reply.row;
      }
      loading := false;
    }

    /** The callback run once the initial session is read. */
    method Startup(sessionUser: Option<User>, reply: ProfileFetch)
      modifies this
      ensures State() == StartupStep(old(State()), sessionUser, reply)
    {
      user := sessionUser;
      if sessionUser.Some? {
        FetchProfile(reply);
      } else {
        match guestEntry {
          case Some(Encoded(p)) =>
            profile := Some(p);
          case Some(Malformed) =>
            guestEntry := None;
          case _ =>
        }
        loading := false;
      }
    }

    /** The `onAuthStateChange` handler. */
    method OnAuthStateChange(sessionUser: Option<User>, reply: ProfileFetch)
      modifies this
      ensures State() == AuthChangeStep(old(State()), sessionUser, reply)
    {
      user := sessionUser;
      if sessionUser.Some? {
        FetchProfile(reply);
      } else {
        profile := None;
        guestEntry := None;
        loading := false;
      }
    }

    method AdminSignIn(auth: AuthReply, reply: ProfileFetch) returns (outcome: Outcome)
      modifies this
      ensures Result(State(), outcome) == AdminSignInStep(old(State()), auth, reply)
    {
      if auth.AuthFailed? {
        return Failed(auth.message);
      }
      if auth.user.Some? {
        if reply.FetchError? {
          return Failed(reply.message);
        }
        if reply.row.None? || reply.row.value.role != "admin" {
          return Failed(NotAdminMessage);
        }
        profile := reply.row;
      }
      return Ok;
    }

    method SignInAsGuest(displayName: Option<string>)
      modifies this
      ensures State() == SignInAsGuestStep(old(State()), displayName)
    {
      var guest := GuestProfile(displayName);
      user := None;
      profile := Some(guest);
      guestEntry := Some(Encoded(guest));
      loading := false;
    }

    method SignOut(backendError: Option<string>) returns (outcome: Outcome)
      modifies this
      ensures Result(State(), outcome) == SignOutStep(old(State()), backendError)
    {
      if profile.Some? && profile.value.role == "guest" {
        user := None;
        profile := None;
        guestEntry := None;
        return Ok;
      }
      if backendError.Some? {
        return Failed(backendError.value);
      }
      return Ok;
    }
  }
}
