/**
 The `authorized` callback of the authentication configuration: the
 decision taken on every navigation from whether a user is signed in and
 the requested pathname.
 */
module AuthConfig {
  import Strings

  /** The custom sign-in page the configuration names. */
  const SignInPage := "/login"
  const DashboardPath := "/dashboard"

  /** `true`, `false` (sent to the sign-in page), or a redirect response. */
  datatype Decision = Allow | Deny | RedirectTo(path: string)

  /** The pathname lies in the dashboard: it begins with "/dashboard". */
  ghost predicate OnDashboard(pathname: string) {
    |pathname| >= 10 && pathname[..10] == "/dashboard"
  }

  /** The callback. The redirect's URL is "/dashboard" resolved against the
      request URL; the model keeps its path. */
  function Authorized(isLoggedIn: bool, pathname: string): (d: Decision)
    ensures d == Allow <==> (isLoggedIn <==> OnDashboard(pathname))
    ensures d == Deny <==> !isLoggedIn && OnDashboard(pathname)
    ensures d.RedirectTo? <==> isLoggedIn && !OnDashboard(pathname)
    ensures d.RedirectTo? ==> d.path == DashboardPath
  {
    var isOnDashboard := Strings.StartsWith(pathname, DashboardPath);
    if isOnDashboard then
      if isLoggedIn then Allow else Deny
    else if isLoggedIn then
      RedirectTo(DashboardPath)
    else
      Allow
  }

  /** The prefix test is raw: "/dashboardX" counts as the dashboard. */
  lemma DashboardXIsProtected()
    ensures Authorized(false, "/dashboardX") == Deny
    ensures Authorized(true, "/dashboardX") == Allow
  {
  }

  /** A signed-in user is never redirected twice: the redirect target is
      allowed. */
  lemma RedirectTargetAllowed(pathname: string)
    ensures Authorized(true, pathname).RedirectTo? ==>
      Authorized(true, Authorized(true, pathname).path) == Allow
  {
  }

  /** A denied visitor can reach the sign-in page, and a signed-in user
      visiting it is sent to the dashboard. */
  lemma SignInPageReachable()
    ensures Authorized(false, SignInPage) == Allow
    ensures Authorized(true, SignInPage) == RedirectTo(DashboardPath)
  {
  }

  /** Three sample decisions: a signed-out visitor on an invoice page, a
      signed-in one on the sign-in page, a signed-in one on the dashboard. */
  lemma KnownDecisions()
    ensures Authorized(false, "/dashboard/invoices") == Deny
    ensures Authorized(true, "/login") == RedirectTo("/dashboard")
    ensures Authorized(true, "/dashboard") == Allow
  {
  }
}
