/** `RoleDashboard` of `src/components/auth/RoleDashboard.jsx`: sends each
    user to the dashboard of their role. */
module RoleDashboard {
  import opened Wrappers
  import opened AuthService
  import opened AuthContext
  import opened Views
  import RedirectIfAuthenticated

  const LoginPath := "/auth/login"
  const AdminDashboard := "/admin/dashboard"
  const VolunteerDashboard := "/volunteer/dashboard"
  const DonorDashboard := "/donor/dashboard"

  function Render(s: AuthState): (v: View)
    ensures s.loading ==> v == Spinner
    ensures !s.loading && !IsAuthenticated(s) ==> v == Redirect(LoginPath, None)
    ensures !s.loading && IsAuthenticated(s) ==>
      v == Redirect(if ProfileRole(s) == Some(Admin) then AdminDashboard
                    else if ProfileRole(s) == Some(Volunteer) then VolunteerDashboard
                    else DonorDashboard, None)
  {
    if s.loading then Spinner
    else if !IsAuthenticated(s) then Redirect(LoginPath, None)
    else match ProfileRole(s)
      case Some("admin") => Redirect(AdminDashboard, None)
      case Some("volunteer") => Redirect(VolunteerDashboard, None)
      case _ => Redirect(DonorDashboard, None)
  }

  /** Once loading is over, the dispatch always redirects, and never back to
      a page it would redirect from. */
  lemma AlwaysRedirects(s: AuthState)
    requires !s.loading
    ensures Render(s).Redirect?
    ensures Render(s).to in {LoginPath, AdminDashboard, VolunteerDashboard, DonorDashboard}
    ensures IsAuthenticated(s) ==> Render(s).to != LoginPath
  {
  }

  /** Admins and volunteers are sent to the same dashboard by both
      redirecting components; everyone else signed in is sent by
      `RedirectIfAuthenticated` to its `redirectTo` and here to the donor
      dashboard. */
  lemma AgreesWithRedirect(s: AuthState, redirectTo: string)
    requires !s.loading && IsAuthenticated(s)
    ensures ProfileRole(s) in {Some(Admin), Some(Volunteer)} ==>
      Render(s) == RedirectIfAuthenticated.Render(s, redirectTo)
    ensures ProfileRole(s) !in {Some(Admin), Some(Volunteer)} ==>
      Render(s).to == DonorDashboard && RedirectIfAuthenticated.Render(s, redirectTo).to == redirectTo
  {
  }
}
