/**
 * `useAuth(requireAuth = true)` (app/hooks/useAuth.ts): the route guard.
 * Its effect pushes a route decided by two booleans; the hook hands back
 * `isAuthenticated` as it found it.
 */
module UseAuth {
  import opened Common

  const LoginPath := "/auth/login"
  const DashboardPath := "/dashboard"

  /** The route the effect pushes, if any. */
  function Redirect(requireAuth: bool, isAuthenticated: bool): (to: Option<string>)
    ensures to == Some(LoginPath) <==> requireAuth && !isAuthenticated
    ensures to == Some(DashboardPath) <==> !requireAuth && isAuthenticated
    ensures to.None? <==> requireAuth == isAuthenticated
  {
    if requireAuth && !isAuthenticated then Some(LoginPath)
    else if !requireAuth && isAuthenticated then Some(DashboardPath)
    else None
  }

  datatype GuardResult = GuardResult(isAuthenticated: bool, redirect: Option<string>)

  /** The hook: an omitted `requireAuth` means the page needs a session. */
  function Guard(requireAuth: Option<bool>, isAuthenticated: bool): (g: GuardResult)
    ensures g.isAuthenticated == isAuthenticated
    ensures requireAuth.None? ==> (g.redirect.Some? <==> !isAuthenticated)
    ensures g.redirect.Some? ==> g.redirect.value in {LoginPath, DashboardPath}
    ensures g.redirect == Redirect(requireAuth.GetOr(true), isAuthenticated)
  {
    GuardResult(isAuthenticated, Redirect(requireAuth.GetOr(true), isAuthenticated))
  }

  /**
   * For one visitor, the two settings of `requireAuth` never both redirect:
   * a visitor a guarded page sends to the login page is not sent away by an
   * unguarded one, and the other way round. Which pages carry which setting
   * is up to the pages, not the hook.
   */
  lemma RedirectSettles(isAuthenticated: bool)
    ensures Redirect(true, isAuthenticated) == Some(LoginPath) ==> Redirect(false, isAuthenticated).None?
    ensures Redirect(false, isAuthenticated) == Some(DashboardPath) ==> Redirect(true, isAuthenticated).None?
  {
  }
}
