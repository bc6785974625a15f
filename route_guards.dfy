/**
 * The three route guards: `AuthGuard` (src/components/auth/AuthGuard.tsx),
 * which redirects by path, and `ProtectedRoute` and `PublicRoute`
 * (src/components/auth/ProtectedRoute.tsx, PublicRoute.tsx), which redirect
 * by authentication alone. Each guard has an effect (the `router.push` it
 * issues, if any) and a render choice; both are functions of the path and of
 * the session's `isAuthenticated` and `isLoading`.
 */
module RouteGuards {
  import opened Wrappers

  /** What a guard renders in place of, or as, its children. */
  datatype Screen = Checking | RedirectingToLogin | RedirectingToDashboard | Children

  const Login := "/login"
  const Dashboard := "/"

  const ProtectedRoutes: seq<string> := ["/", "/dashboard", "/assets", "/transactions", "/analysis", "/settings", "/health"]
  const PublicRoutes: seq<string> := ["/login", "/register"]

  // ---- AuthGuard ----

  /** The effect of `AuthGuard` (lines 27-44): `Array.includes` is exact string membership. */
  function GuardRedirect(pathname: string, isAuthenticated: bool, isLoading: bool): (target: Option<string>)
    ensures isLoading ==> target.None?
    ensures target == Some(Login) <==> !isLoading && pathname in ProtectedRoutes && !isAuthenticated
    ensures target == Some(Dashboard) <==> !isLoading && pathname in PublicRoutes && isAuthenticated
    ensures target.Some? ==> target == Some(Login) || target == Some(Dashboard)
  {
    if isLoading then None
    else if pathname in ProtectedRoutes && !isAuthenticated then Some(Login)
    else if pathname in PublicRoutes && isAuthenticated then Some(Dashboard)
    else None
  }

  /** The render of `AuthGuard` (lines 46-82). */
  function GuardScreen(pathname: string, isAuthenticated: bool, isLoading: bool): (s: Screen)
    ensures isLoading <==> s == Checking
    ensures s == Children <==> !isLoading && !(pathname in ProtectedRoutes && !isAuthenticated) && !(pathname in PublicRoutes && isAuthenticated)
  {
    if isLoading then Checking
    else if pathname in ProtectedRoutes && !isAuthenticated then RedirectingToLogin
    else if pathname in PublicRoutes && isAuthenticated then RedirectingToDashboard
    else Children
  }

  /** No path is both protected and public. */
  lemma RouteListsDisjoint(p: string)
    ensures !(p in ProtectedRoutes && p in PublicRoutes)
  {
    if p in PublicRoutes {
      assert p == "/login" || p == "/register";
      assert |p| > 1 && p[1] in {'l', 'r'};
      forall k | 0 <= k < |ProtectedRoutes| ensures ProtectedRoutes[k] != p {
        assert |ProtectedRoutes[k]| == 1 || ProtectedRoutes[k][1] in {'d', 'a', 't', 's', 'h'};
      }
    }
  }

  /**
   * The effect and the render agree: the guard shows a redirect screen
   * exactly when it pushes that route, and shows the children exactly when it
   * neither waits nor redirects.
   */
  lemma GuardEffectMatchesScreen(pathname: string, isAuthenticated: bool, isLoading: bool)
    ensures GuardRedirect(pathname, isAuthenticated, isLoading) == Some(Login) <==> GuardScreen(pathname, isAuthenticated, isLoading) == RedirectingToLogin
    ensures GuardRedirect(pathname, isAuthenticated, isLoading) == Some(Dashboard) <==> GuardScreen(pathname, isAuthenticated, isLoading) == RedirectingToDashboard
    ensures GuardScreen(pathname, isAuthenticated, isLoading) == Children <==> !isLoading && GuardRedirect(pathname, isAuthenticated, isLoading).None?
  {
    RouteListsDisjoint(pathname);
  }

  /** Nested paths are in neither list, so the guard lets them through once loaded. */
  lemma NestedPathsPass(isAuthenticated: bool)
    ensures GuardRedirect("/assets/new", isAuthenticated, false).None?
    ensures GuardScreen("/assets/new", isAuthenticated, false) == Children
    ensures GuardScreen("/transactions/new", isAuthenticated, false) == Children
  {
    forall k | 0 <= k < |ProtectedRoutes| ensures ProtectedRoutes[k] != "/assets/new" && ProtectedRoutes[k] != "/transactions/new" {
      assert |ProtectedRoutes[k]| != 11 && |ProtectedRoutes[k]| != 17;
    }
    forall k | 0 <= k < |PublicRoutes| ensures PublicRoutes[k] != "/assets/new" && PublicRoutes[k] != "/transactions/new" {
      assert |PublicRoutes[k]| < 11;
    }
  }

  // ---- ProtectedRoute ----

  /** The effect of `ProtectedRoute` (lines 15-19). */
  function ProtectedRedirect(isAuthenticated: bool, isLoading: bool): (target: Option<string>)
    ensures target.Some? <==> !isLoading && !isAuthenticated
    ensures target.Some? ==> target.value == Login
  {
    if !isLoading && !isAuthenticated then Some(Login) else None
  }

  /** The render of `ProtectedRoute` (lines 21-43). */
  function ProtectedScreen(isAuthenticated: bool, isLoading: bool): (s: Screen)
    ensures s != RedirectingToDashboard
    ensures s == Checking <==> isLoading
    ensures s == Children <==> !isLoading && isAuthenticated
  {
    if isLoading then Checking
    else if !isAuthenticated then RedirectingToLogin
    else Children
  }

  /**
   * `ProtectedRoute` never redirects an authenticated session, shows the
   * login redirect screen exactly when it pushes `/login`, and agrees with
   * `AuthGuard` on every protected path.
   */
  lemma ProtectedRouteAgrees(pathname: string, isAuthenticated: bool, isLoading: bool)
    ensures isAuthenticated ==> ProtectedRedirect(isAuthenticated, isLoading).None?
    ensures ProtectedRedirect(isAuthenticated, isLoading).Some? <==> ProtectedScreen(isAuthenticated, isLoading) == RedirectingToLogin
    ensures pathname in ProtectedRoutes ==>
      ProtectedRedirect(isAuthenticated, isLoading) == GuardRedirect(pathname, isAuthenticated, isLoading)
      && ProtectedScreen(isAuthenticated, isLoading) == GuardScreen(pathname, isAuthenticated, isLoading)
  {
    RouteListsDisjoint(pathname);
  }

  // ---- PublicRoute ----

  /** The effect of `PublicRoute` (lines 15-19). */
  function PublicRedirect(isAuthenticated: bool, isLoading: bool): (target: Option<string>)
    ensures target.Some? <==> !isLoading && isAuthenticated
    ensures target.Some? ==> target.value == Dashboard
  {
    if !isLoading && isAuthenticated then Some(Dashboard) else None
  }

  /** The render of `PublicRoute` (lines 21-43). */
  function PublicScreen(isAuthenticated: bool, isLoading: bool): (s: Screen)
    ensures s != RedirectingToLogin
    ensures s == Checking <==> isLoading
    ensures s == Children <==> !isLoading && !isAuthenticated
  {
    if isLoading then Checking
    else if isAuthenticated then RedirectingToDashboard
    else Children
  }

  /**
   * `PublicRoute` never redirects an unauthenticated session, shows the
   * dashboard redirect screen exactly when it pushes `/`, and agrees with
   * `AuthGuard` on every public path.
   */
  lemma PublicRouteAgrees(pathname: string, isAuthenticated: bool, isLoading: bool)
    ensures !isAuthenticated ==> PublicRedirect(isAuthenticated, isLoading).None?
    ensures PublicRedirect(isAuthenticated, isLoading).Some? <==> PublicScreen(isAuthenticated, isLoading) == RedirectingToDashboard
    ensures pathname in PublicRoutes ==>
      PublicRedirect(isAuthenticated, isLoading) == GuardRedirect(pathname, isAuthenticated, isLoading)
      && PublicScreen(isAuthenticated, isLoading) == GuardScreen(pathname, isAuthenticated, isLoading)
  {
    RouteListsDisjoint(pathname);
  }

  /** The two route wrappers complement each other: once loaded, exactly one of them renders its children. */
  lemma ExactlyOneRendersChildren(isAuthenticated: bool)
    ensures (ProtectedScreen(isAuthenticated, false) == Children) != (PublicScreen(isAuthenticated, false) == Children)
  {
  }
}
