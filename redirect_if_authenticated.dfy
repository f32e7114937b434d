/** `RedirectIfAuthenticated` of
    `src/components/auth/RedirectIfAuthenticated.jsx`: keeps signed-in users
    away from the sign-in pages. */
module RedirectIfAuthenticated {
  import opened Wrappers
  import opened AuthService
  import opened AuthContext
  import opened Views

  /** The default of the `redirectTo` prop. */
  const DefaultRedirect := "/dashboard"
  const AdminDashboard := "/admin/dashboard"
  const VolunteerDashboard := "/volunteer/dashboard"

  function Render(s: AuthState, redirectTo: string): (v: View)
    ensures s.loading ==> v == Spinner
    // a visitor sees the page itself
    ensures v == Children <==> !s.loading && !IsAuthenticated(s)
    ensures !s.loading && IsAuthenticated(s) ==> v.Redirect? && v.from == None
    ensures !s.loading && IsAuthenticated(s) && ProfileRole(s) == Some(Admin) ==> v.to == AdminDashboard
    ensures !s.loading && IsAuthenticated(s) && ProfileRole(s) == Some(Volunteer) ==> v.to == VolunteerDashboard
    // donors, viewers, other roles and users without a profile go to `redirectTo`
    ensures !s.loading && IsAuthenticated(s) && ProfileRole(s) !in {Some(Admin), Some(Volunteer)} ==>
      v.to == redirectTo
  {
    if s.loading then Spinner
    else if IsAuthenticated(s) then
      if ProfileRole(s) == Some(Admin) then Redirect(AdminDashboard, None)
      else if ProfileRole(s) == Some(Volunteer) then Redirect(VolunteerDashboard, None)
      else Redirect(redirectTo, None)
    else Children
  }
}
