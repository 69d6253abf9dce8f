/**
 * The guard placed in front of a subtree of routes: while the session is
 * being restored it shows a placeholder, otherwise it either renders the
 * child routes or redirects to the login page. A role mismatch redirects
 * to the login page exactly like a missing session; there is no separate
 * "forbidden" outcome.
 */
module ProtectedRoute {
  import opened Js
  import opened AuthSlice

  const LOGIN_PATH := "/login"

  datatype GuardOutcome = LoadingPlaceholder | RedirectTo(path: string) | RenderOutlet

  /** The role a guarded subtree asks for applies only when it is truthy. */
  predicate RoleAllowed(s: AuthState, requiredRole: Option<string>)
  {
    !Truthy(requiredRole) || s.role == requiredRole
  }

  function Guard(s: AuthState, requiredRole: Option<string>): (o: GuardOutcome)
    ensures o == LoadingPlaceholder <==> s.status == Loading
    ensures o == RenderOutlet <==> s.status != Loading && s.isAuthenticated && RoleAllowed(s, requiredRole)
    ensures o.RedirectTo? ==> o.path == LOGIN_PATH
    ensures o.RedirectTo? <==> s.status != Loading && (!s.isAuthenticated || !RoleAllowed(s, requiredRole))
  {
    if s.status == Loading then LoadingPlaceholder
    else if !s.isAuthenticated then RedirectTo(LOGIN_PATH)
    else if Truthy(requiredRole) && s.role != requiredRole then RedirectTo(LOGIN_PATH)
    else RenderOutlet
  }

  /** After a session restore refused with 401 or 403, every guarded subtree,
      whatever role it requires, redirects to the login page. */
  lemma UnauthorizedRestoreRedirects(s: AuthState, e: ApiError, requiredRole: Option<string>)
    requires e.status == Some(401) || e.status == Some(403)
    ensures Guard(Run(s, [SessionPending, SessionSettled(FetchSession(Err(e)))]), requiredRole)
         == RedirectTo(LOGIN_PATH)
  {
    UnauthorizedRestoreLogsOut(s, e);
  }

  /** After a successful restore, a client session renders subtrees that
      require no role or the client role, and is sent to the login page from
      subtrees that require the admin role. */
  lemma RestoredClientSessionRouting(s: AuthState, p: Profile)
    ensures var r := Run(s, [SessionPending, SessionSettled(FetchSession(Ok(Some(p))))]);
      Guard(r, None) == RenderOutlet
      && Guard(r, Some(CLIENT)) == RenderOutlet
      && Guard(r, Some(ADMIN)) == RedirectTo(LOGIN_PATH)
  {
    RunTwo(s, SessionPending, SessionSettled(FetchSession(Ok(Some(p)))));
  }

  /** While a restore is in flight the placeholder is shown, whatever the
      session held before. */
  lemma PendingRestoreShowsPlaceholder(s: AuthState, requiredRole: Option<string>)
    ensures Guard(Step(s, SessionPending), requiredRole) == LoadingPlaceholder
  {
  }

  /** Clearing the session or logging out sends every guarded subtree to the
      login page. */
  lemma LoggedOutRedirects(s: AuthState, requiredRole: Option<string>)
    ensures Guard(Step(s, ClearAuth), requiredRole) == RedirectTo(LOGIN_PATH)
    ensures Guard(Step(s, LogoutFulfilled), requiredRole) == RedirectTo(LOGIN_PATH)
  {
  }
}
