/** ProtectedRoute: what the guard around every dashboard page shows. */
module RouteGuard {
  import opened Wrappers
  import opened Permissions

  datatype Screen =
    | Spinner               // the session is still being restored
    | Redirect(to: string)  // replace the location
    | Render                // the requested page (Outlet)

  const LoginPath := "/auth"

  function Guard(isLoading: bool, isAuthenticated: bool, path: string, allowedRoutes: set<string>): (s: Screen)
    ensures isLoading ==> s == Spinner
    ensures !isLoading && !isAuthenticated ==> s == Redirect(LoginPath)
    ensures !isLoading && isAuthenticated ==> (s == Render <==> IsRouteAllowed(path, allowedRoutes))
    ensures !isLoading && isAuthenticated && !IsRouteAllowed(path, allowedRoutes) ==> s == Redirect(Home)
  {
    if isLoading then Spinner
    else if !isAuthenticated then Redirect(LoginPath)
    else if path != Home && path !in allowedRoutes then Redirect(Home)
    else Render
  }

  /** A signed-in user sees a page exactly when it is the home page or the
      route of one of their permissions; every other path lands on home. */
  lemma GuardByPermissions(path: string, perms: seq<UserPermission>)
    ensures Guard(false, true, path, AllowedRoutes(perms)) == Render <==>
      path == Home || exists i :: 0 <= i < |perms| && RouteOf(perms[i]) == Some(path)
    ensures Guard(false, true, path, AllowedRoutes(perms)) != Render ==>
      Guard(false, true, path, AllowedRoutes(perms)) == Redirect(Home)
  {
    RouteAllowedByPermissions(path, perms);
  }

  /** The guard never redirects home from home, so it cannot loop. */
  lemma NoRedirectLoop(isLoading: bool, isAuthenticated: bool, allowedRoutes: set<string>)
    ensures Guard(isLoading, isAuthenticated, Home, allowedRoutes) != Redirect(Home)
  {
  }
}
