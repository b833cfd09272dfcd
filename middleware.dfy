/** The request gate in front of the admin pages: which requests pass, and
    where the others are redirected, given the path and whether the request
    carries a session. */
module AccessGate {
  import opened Text

  const AdminPrefix := "/admin"
  const LoginPath := "/admin/login"
  const DashboardPath := "/admin/dashboard"

  /** What the gate answers: let the request through or redirect it. */
  datatype Outcome = Pass | Redirect(target: string)

  /** Is the path under the admin area (`pathname.startsWith('/admin')`)? */
  predicate UnderAdmin(path: string)
  {
    StartsWith(path, AdminPrefix)
  }

  /** The gate: paths outside the admin area pass; the login page with a
      session goes to the dashboard; any other admin page without a session
      goes to the login page; everything else passes. */
  function Decide(path: string, hasSession: bool): (r: Outcome)
    ensures !UnderAdmin(path) ==> r == Pass
    ensures path == LoginPath && hasSession ==> r == Redirect(DashboardPath)
    ensures UnderAdmin(path) && path != LoginPath && !hasSession ==> r == Redirect(LoginPath)
    ensures r.Redirect? <==> UnderAdmin(path) && (path == LoginPath <==> hasSession)
  {
    if !UnderAdmin(path) then Pass
    else if path == LoginPath && hasSession then Redirect(DashboardPath)
    else if path != LoginPath && !hasSession then Redirect(LoginPath)
    else Pass
  }

  lemma LoginAndDashboardAreAdmin()
    ensures UnderAdmin(LoginPath) && UnderAdmin(DashboardPath)
    ensures LoginPath != DashboardPath
  {
    assert LoginPath[..|AdminPrefix|] == AdminPrefix;
    assert DashboardPath[..|AdminPrefix|] == AdminPrefix;
    assert LoginPath[7] != DashboardPath[7];
  }

  /** An admin page other than the login page is only ever served to a
      request with a session, and the login page only to one without. */
  lemma AdminPagesNeedSession(path: string, hasSession: bool)
    requires UnderAdmin(path) && Decide(path, hasSession) == Pass
    ensures path != LoginPath ==> hasSession
    ensures path == LoginPath ==> !hasSession
  {
  }

  /** A redirect never points back at the requested path, and following it
      once (with the same session) lands on a page that is served: the gate
      never loops. */
  lemma RedirectSettles(path: string, hasSession: bool)
    requires Decide(path, hasSession).Redirect?
    ensures Decide(path, hasSession).target != path
    ensures Decide(Decide(path, hasSession).target, hasSession) == Pass
  {
    LoginAndDashboardAreAdmin();
  }

  /** The session changes the answer only inside the admin area. */
  lemma SessionMattersOnlyForAdmin(path: string)
    requires !UnderAdmin(path)
    ensures Decide(path, true) == Decide(path, false) == Pass
  {
  }
}
