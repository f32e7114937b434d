/** `ProtectedRoute` of `src/components/auth/ProtectedRoute.jsx`: an ordered
    chain of checks — loading, authentication, role, permissions — that
    decides what a route shows. */
module ProtectedRoute {
  import opened Wrappers
  import opened AuthService
  import opened AuthContext
  import opened Views

  /** The default of the `redirectTo` prop. */
  const DefaultRedirect := "/auth/login"

  /** `requiredRole && !hasRole(requiredRole)`: a missing or empty role is no
      requirement. */
  predicate RoleFails(s: AuthState, requiredRole: Option<string>) {
    requiredRole.Some? && requiredRole.value != "" && !UserHasRole(s, requiredRole.value)
  }

  /** The view for the props `requiredRole`, `requiredPermissions` and
      `redirectTo`, at the path `location`. */
  function Render(s: AuthState, requiredRole: Option<string>, requiredPermissions: seq<string>,
                  redirectTo: string, location: string): (v: View)
    // loading wins over everything else
    ensures s.loading ==> v == Spinner
    ensures v == Redirect(redirectTo, Some(location)) <==> !s.loading && !IsAuthenticated(s)
    // a role failure is reported as such, before permissions are looked at
    ensures v == AccessDenied <==> !s.loading && IsAuthenticated(s) && RoleFails(s, requiredRole)
    ensures v == InsufficientPermissions <==>
      && !s.loading && IsAuthenticated(s) && !RoleFails(s, requiredRole)
      && requiredPermissions != []
      && forall k | 0 <= k < |requiredPermissions| :: !UserHasPermission(s, requiredPermissions[k])
    ensures v == Children <==>
      && !s.loading && IsAuthenticated(s) && !RoleFails(s, requiredRole)
      && (requiredPermissions == [] ||
          exists k | 0 <= k < |requiredPermissions| :: UserHasPermission(s, requiredPermissions[k]))
    ensures v.Spinner? || v.Redirect? || v.AccessDenied? || v.InsufficientPermissions? || v.Children?
  {
    if s.loading then Spinner
    else if !IsAuthenticated(s) then Redirect(redirectTo, Some(location))
    else if RoleFails(s, requiredRole) then AccessDenied
    else if |requiredPermissions| > 0 && !AnyPermission(s, requiredPermissions) then InsufficientPermissions
    else Children
  }

  /** The view as the code stands, with the context's `hasRole` as written:
      a role requirement that the profile's own role does not match throws
      during the render, whatever that role is, admin included. */
  function RenderAsWritten(s: AuthState, requiredRole: Option<string>, requiredPermissions: seq<string>,
                           redirectTo: string, location: string): (v: View)
    ensures v == Crashed(AdminUnreadable) <==>
      && !s.loading && IsAuthenticated(s) && s.user.value.profile.Some?
      && requiredRole.Some? && requiredRole.value != "" && ProfileRole(s) != requiredRole
    ensures !v.Crashed? ==> v == Render(s, requiredRole, requiredPermissions, redirectTo, location)
  {
    if !s.loading && IsAuthenticated(s) && requiredRole.Some? && requiredRole.value != ""
       && UserHasRoleAsWritten(s, requiredRole.value).Err?
    then Crashed(UserHasRoleAsWritten(s, requiredRole.value).error)
    else Render(s, requiredRole, requiredPermissions, redirectTo, location)
  }

  /** An admin on a route for donors: the intended guard shows the route,
      the code throws. */
  lemma AdminCrashesOnDonorRoute(s: AuthState, redirectTo: string, location: string)
    requires !s.loading && ProfileRole(s) == Some(Admin)
    ensures Render(s, Some(Donor), [], redirectTo, location) == Children
    ensures RenderAsWritten(s, Some(Donor), [], redirectTo, location) == Crashed(AdminUnreadable)
  {
    AdminPassesRole(s, Some(Donor), [], redirectTo, location);
  }

  /** A signed-in user reaches a route without requirements. */
  lemma NoRequirements(s: AuthState, redirectTo: string, location: string)
    requires !s.loading && IsAuthenticated(s)
    ensures Render(s, None, [], redirectTo, location) == Children
  {
  }

  /** An admin profile passes every role requirement: only the permissions
      can still stop it. */
  lemma AdminPassesRole(s: AuthState, requiredRole: Option<string>, requiredPermissions: seq<string>,
                        redirectTo: string, location: string)
    requires !s.loading && ProfileRole(s) == Some(Admin)
    ensures Render(s, requiredRole, requiredPermissions, redirectTo, location) != AccessDenied
    ensures requiredPermissions == [] ==> Render(s, requiredRole, requiredPermissions, redirectTo, location) == Children
  {
    if requiredRole.Some? {
      ContextChecks(s, requiredRole.value, "");
    }
  }

  /** A profile holding the `"admin"` permission token passes every
      permission requirement, whatever its role. */
  lemma AdminTokenPassesPermissions(s: AuthState, requiredRole: Option<string>, requiredPermissions: seq<string>,
                                    redirectTo: string, location: string)
    requires !s.loading && s.user.Some? && s.user.value.profile.Some?
    requires var p := s.user.value.profile.value.permissions; p.Some? && "admin" in p.value
    ensures Render(s, requiredRole, requiredPermissions, redirectTo, location) != InsufficientPermissions
  {
    if requiredPermissions != [] {
      assert UserHasPermission(s, requiredPermissions[0]);
    }
  }

  /** Without a profile, any role or permission requirement keeps a signed-in
      user out. */
  lemma NoProfileBlocked(s: AuthState, requiredRole: Option<string>, requiredPermissions: seq<string>,
                         redirectTo: string, location: string)
    requires !s.loading && s.user.Some? && s.user.value.profile.None?
    requires (requiredRole.Some? && requiredRole.value != "") || requiredPermissions != []
    ensures Render(s, requiredRole, requiredPermissions, redirectTo, location) in {AccessDenied, InsufficientPermissions}
  {
  }
}
