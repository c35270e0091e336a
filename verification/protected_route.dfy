/** The route guard of the client: what a protected page shows for the
  * current authentication state, and when it asks the server to verify a
  * stored token. */
module ProtectedRoute {
  import opened JsValues
  import Sidebar

  /** The part of the authentication slice the guard reads. */
  datatype AuthState = AuthState(isAuthenticated: bool, loading: bool, user: Option<User>, token: Option<string>)

  /** What the guard renders: the verification spinner, a redirect to the
    * login page remembering where the user came from, the "no permission"
    * message, or the protected page itself. */
  datatype View = Spinner | RedirectToLogin(from: string) | Forbidden | Children

  /** The effect: verify the token when one is stored (non-empty) and the
    * user is not authenticated yet. */
  predicate ShouldVerify(s: AuthState)
  {
    s.token.Some? && s.token.value != "" && !s.isAuthenticated
  }

  /** The guard: the spinner while loading, the login redirect when not
    * authenticated, the "no permission" message when a permission is
    * required and the known user does not hold it (a missing permission
    * list included); the page otherwise. */
  function Guard(s: AuthState, requiredPermission: Option<string>, location: string): (v: View)
    ensures v.Spinner? <==> s.loading
    ensures v.RedirectToLogin? <==> !s.loading && !s.isAuthenticated
    ensures v.RedirectToLogin? ==> v.from == location
    ensures v.Forbidden? <==>
      !s.loading && s.isAuthenticated &&
      requiredPermission.Some? && requiredPermission.value != "" &&
      s.user.Some? && Includes(s.user, requiredPermission.value) != Some(true)
    ensures v.Children? ==> !s.loading && s.isAuthenticated
  {
    if s.loading then Spinner
    else if !s.isAuthenticated then RedirectToLogin(location)
    else if requiredPermission.Some? && requiredPermission.value != "" && s.user.Some? &&
            !(Includes(s.user, requiredPermission.value) == Some(true)) then Forbidden
    else Children
  }

  /** While the token is being verified the page is never shown: the guard
    * waits or sends the user to the login page. */
  lemma VerifyingHidesPage(s: AuthState, requiredPermission: Option<string>, location: string)
    requires ShouldVerify(s)
    ensures Guard(s, requiredPermission, location).Spinner? || Guard(s, requiredPermission, location).RedirectToLogin?
  {
  }

  /** An authenticated session whose user object is missing passes every
    * permission check, while the sidebar hides the entries that need one
    * from that same session. */
  lemma MissingUserPassesGuard(p: string, location: string)
    requires p != ""
    ensures Guard(AuthState(true, false, None, None), Some(p), location) == Children
    ensures !Sidebar.HasPermission(None, Some(p))
  {
  }

  /** With a user present, the guard and the sidebar agree: the page shows
    * exactly when the sidebar would list an entry asking for the same
    * permission. */
  lemma GuardAgreesWithSidebar(s: AuthState, requiredPermission: Option<string>, location: string)
    requires !s.loading && s.isAuthenticated && s.user.Some?
    ensures Guard(s, requiredPermission, location) == Children <==> Sidebar.HasPermission(s.user, requiredPermission)
  {
  }
}
