/** `RoleGuard` of `src/components/auth/RoleGuard.jsx` and the convenience
    guards built on it: content shown only to users whose roles and
    permissions meet the props, with `fallback` shown otherwise. */
module RoleGuard {
  import opened Wrappers
  import opened AuthService
  import opened AuthContext
  import opened Views

  /** `hasRequiredRole`: true for an empty list, else `every` or `some`. */
  function RoleFlag(s: AuthState, allowedRoles: seq<string>, requireAll: bool): (b: bool)
    ensures b <==> (allowedRoles == [] ||
      (if requireAll then forall k | 0 <= k < |allowedRoles| :: UserHasRole(s, allowedRoles[k])
       else exists k | 0 <= k < |allowedRoles| :: UserHasRole(s, allowedRoles[k])))
  {
    if |allowedRoles| > 0 then
      if requireAll then EveryRole(s, allowedRoles) else AnyRole(s, allowedRoles)
    else true
  }

  /** `hasRequiredPermission`: the same rule over the permissions. */
  function PermissionFlag(s: AuthState, allowedPermissions: seq<string>, requireAll: bool): (b: bool)
    ensures b <==> (allowedPermissions == [] ||
      (if requireAll then forall k | 0 <= k < |allowedPermissions| :: UserHasPermission(s, allowedPermissions[k])
       else exists k | 0 <= k < |allowedPermissions| :: UserHasPermission(s, allowedPermissions[k])))
  {
    if |allowedPermissions| > 0 then
      if requireAll then EveryPermission(s, allowedPermissions) else AnyPermission(s, allowedPermissions)
    else true
  }

  /** `hasRequiredRole` as written, with the context's `hasRole` as written;
      `Err` is a throw. */
  function RoleFlagAsWritten(s: AuthState, allowedRoles: seq<string>, requireAll: bool): (r: Result<bool, string>)
    ensures r.Ok? ==> r.value == RoleFlag(s, allowedRoles, requireAll)
    ensures r.Err? <==>
      && s.user.Some? && s.user.value.profile.Some? && allowedRoles != []
      && (if requireAll then exists k | 0 <= k < |allowedRoles| :: ProfileRole(s) != Some(allowedRoles[k])
          else ProfileRole(s) != Some(allowedRoles[0]))
  {
    if |allowedRoles| > 0 then
      if requireAll then EveryRoleAsWritten(s, allowedRoles) else AnyRoleAsWritten(s, allowedRoles)
    else Ok(true)
  }

  /** `RoleGuard` with the props `allowedRoles`, `allowedPermissions` and
      `requireAll`. */
  function Render(s: AuthState, allowedRoles: seq<string>, allowedPermissions: seq<string>, requireAll: bool)
    : (v: View)
    ensures v == Children || v == Fallback
    ensures s.user.None? ==> v == Fallback
    ensures v == Children <==>
      s.user.Some? && RoleFlag(s, allowedRoles, requireAll) && PermissionFlag(s, allowedPermissions, requireAll)
  {
    if s.user.None? then Fallback
    else
      var hasRequiredRole := RoleFlag(s, allowedRoles, requireAll);
      var hasRequiredPermission := PermissionFlag(s, allowedPermissions, requireAll);
      if hasRequiredRole && hasRequiredPermission then Children else Fallback
  }

  /** `RoleGuard` as the code stands: the role flag throws during the render
      unless every role consulted is the profile's own. */
  function RenderAsWritten(s: AuthState, allowedRoles: seq<string>, allowedPermissions: seq<string>,
                           requireAll: bool): (v: View)
    ensures v.Crashed? <==> s.user.Some? && RoleFlagAsWritten(s, allowedRoles, requireAll).Err?
    ensures v.Crashed? ==> v == Crashed(AdminUnreadable)
    ensures !v.Crashed? ==> v == Render(s, allowedRoles, allowedPermissions, requireAll)
  {
    if s.user.None? then Fallback
    else
      match RoleFlagAsWritten(s, allowedRoles, requireAll)
      case Err(e) => Crashed(e)
      case Ok(hasRequiredRole) =>
        var hasRequiredPermission := PermissionFlag(s, allowedPermissions, requireAll);
        if hasRequiredRole && hasRequiredPermission then Children else Fallback
  }

  /** With no requirement at all, any signed-in user sees the content. */
  lemma NoRequirements(s: AuthState, requireAll: bool)
    requires s.user.Some?
    ensures Render(s, [], [], requireAll) == Children
  {
  }

  /** With `requireAll` unset, allowing one more role never hides content that
      was shown. */
  lemma MoreRolesNeverHide(s: AuthState, allowedRoles: seq<string>, extra: string, allowedPermissions: seq<string>)
    requires allowedRoles != []
    requires Render(s, allowedRoles, allowedPermissions, false) == Children
    ensures Render(s, allowedRoles + [extra], allowedPermissions, false) == Children
  {
    var k :| 0 <= k < |allowedRoles| && UserHasRole(s, allowedRoles[k]);
    assert (allowedRoles + [extra])[k] == allowedRoles[k];
  }

  /** With `requireAll` set, two different roles are both held only by an
      admin profile. */
  lemma RequireAllTwoRoles(s: AuthState, a: string, b: string, allowedPermissions: seq<string>)
    requires a != b
    requires Render(s, [a, b], allowedPermissions, true) == Children
    ensures ProfileRole(s) == Some(Admin)
  {
    assert UserHasRole(s, [a, b][0]) && UserHasRole(s, [a, b][1]);
    ContextChecks(s, a, "");
    ContextChecks(s, b, "");
  }

  /** `AdminOnly`: only an admin profile. */
  function AdminOnly(s: AuthState): (v: View)
    ensures v == Children <==> ProfileRole(s) == Some(Admin)
    ensures v != Children ==> v == Fallback
  {
    ContextChecks(s, Admin, "");
    Render(s, [Admin], [], false)
  }

  /** `DonorOnly`: a donor or an admin profile. */
  function DonorOnly(s: AuthState): (v: View)
    ensures v == Children <==> ProfileRole(s) == Some(Donor) || ProfileRole(s) == Some(Admin)
    ensures v != Children ==> v == Fallback
  {
    ContextChecks(s, Donor, "");
    Render(s, [Donor], [], false)
  }

  /** `VolunteerOnly`: a volunteer or an admin profile. */
  function VolunteerOnly(s: AuthState): (v: View)
    ensures v == Children <==> ProfileRole(s) == Some(Volunteer) || ProfileRole(s) == Some(Admin)
    ensures v != Children ==> v == Fallback
  {
    ContextChecks(s, Volunteer, "");
    Render(s, [Volunteer], [], false)
  }

  /** `DonorOrVolunteer`: a donor, volunteer or admin profile. */
  function DonorOrVolunteer(s: AuthState): (v: View)
    ensures v == Children <==> ProfileRole(s) in {Some(Donor), Some(Volunteer), Some(Admin)}
    ensures v != Children ==> v == Fallback
  {
    ContextChecks(s, Donor, "");
    ContextChecks(s, Volunteer, "");
    var v := Render(s, [Donor, Volunteer], [], false);
    assert v == Children <==> UserHasRole(s, [Donor, Volunteer][0]) || UserHasRole(s, [Donor, Volunteer][1]);
    v
  }

  /** The wrappers as the code stands: a donor under `AdminOnly`, an admin
      under `DonorOnly` and a volunteer under `DonorOrVolunteer` each make
      the render throw, where the intended wrappers show the fallback or the
      content. */
  lemma WrappersCrashAsWritten(s: AuthState)
    requires s.user.Some? && s.user.value.profile.Some?
    ensures ProfileRole(s) == Some(Donor) ==>
      AdminOnly(s) == Fallback && RenderAsWritten(s, [Admin], [], false) == Crashed(AdminUnreadable)
    ensures ProfileRole(s) == Some(Admin) ==>
      DonorOnly(s) == Children && RenderAsWritten(s, [Donor], [], false) == Crashed(AdminUnreadable)
    ensures ProfileRole(s) == Some(Volunteer) ==>
      DonorOrVolunteer(s) == Children && RenderAsWritten(s, [Donor, Volunteer], [], false) == Crashed(AdminUnreadable)
  {
  }

  /** `AuthenticatedOnly`: any signed-in user, with or without a profile. */
  function AuthenticatedOnly(s: AuthState): (v: View)
    ensures v == Children <==> IsAuthenticated(s)
    ensures v == Children || v == Fallback
  {
    if IsAuthenticated(s) then Children else Fallback
  }

  /** The role wrappers show less than `AuthenticatedOnly`: a user without a
      profile passes only the latter. */
  lemma WrappersNeedProfile(s: AuthState)
    ensures AdminOnly(s) == Children ==> AuthenticatedOnly(s) == Children
    ensures DonorOrVolunteer(s) == Children ==> AuthenticatedOnly(s) == Children
    ensures s.user.Some? && s.user.value.profile.None? ==>
      AuthenticatedOnly(s) == Children && DonorOrVolunteer(s) == Fallback && AdminOnly(s) == Fallback
  {
  }
}
