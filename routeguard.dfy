/** The admin route guard of src/components/AdminRouteGuard.tsx and the
    permission hook beside it. */
module RouteGuard {
  import opened Common
  import opened Records

  datatype AdminRole = Admin | SuperAdmin

  function RoleName(r: AdminRole): string {
    match r
    case Admin => "admin"
    case SuperAdmin => "superadmin"
  }

  /** The role the guard and `withAdminAuth` require when none is given. */
  const DefaultRequiredRole := Admin

  datatype GuardView = Spinner | LoginPrompt | AccessDenied | Granted

  /** What `AdminRouteGuard` renders. */
  function Guard(loading: bool, user: Option<User>, requiredRole: AdminRole): (v: GuardView)
    ensures loading ==> v == Spinner
    ensures !loading && user.None? ==> v == LoginPrompt
    ensures v == Granted <==>
              !loading && user.Some? && (user.value.role == Some(RoleName(requiredRole)) || user.value.role == Some("superadmin"))
    ensures v == AccessDenied <==> !loading && user.Some? && !(v == Granted)
  {
    if loading then Spinner
    else if user.None? then LoginPrompt
    else if user.value.role != Some(RoleName(requiredRole)) && user.value.role != Some("superadmin") then AccessDenied
    else Granted
  }

  /** A superadmin passes every guard; a guard that a superadmin-only page
      opens to someone is also open to that user for an admin page. */
  lemma GuardMonotone(user: Option<User>)
    ensures user.Some? && user.value.role == Some("superadmin") ==>
              Guard(false, user, Admin) == Granted && Guard(false, user, SuperAdmin) == Granted
    ensures Guard(false, user, SuperAdmin) == Granted ==> Guard(false, user, Admin) == Granted
    ensures user.Some? && user.value.role == Some("admin") ==> Guard(false, user, SuperAdmin) == AccessDenied
  {
  }

  /** `isAdmin` of `useAdminPermissions`. */
  predicate IsAdmin(user: Option<User>) {
    user.Some? && (user.value.role == Some("admin") || user.value.role == Some("superadmin"))
  }

  /** `isSuperAdmin`. */
  predicate IsSuperAdmin(user: Option<User>) {
    user.Some? && user.value.role == Some("superadmin")
  }

  /** `hasPermission(requiredRole)`. */
  function HasPermission(user: Option<User>, requiredRole: AdminRole): (b: bool)
    ensures requiredRole == Admin ==> b == IsAdmin(user)
    ensures requiredRole == SuperAdmin ==> b == IsSuperAdmin(user)
  {
    if requiredRole == Admin then IsAdmin(user) else IsSuperAdmin(user)
  }

  /** Superadmin permission implies admin permission, and the hook agrees
      with what the guard lets through once auth has loaded. */
  lemma PermissionSpec(user: Option<User>, requiredRole: AdminRole)
    ensures HasPermission(user, SuperAdmin) ==> HasPermission(user, Admin)
    ensures HasPermission(user, requiredRole) <==> Guard(false, user, requiredRole) == Granted
  {
  }
}
