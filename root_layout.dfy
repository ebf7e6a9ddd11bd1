/**
 * The root layout's navigation guard: from the authentication flag and the
 * first route segment it decides whether to replace the current route, and
 * with which one; and the theme choice from the colour scheme.
 */
module RootLayout {
  import opened Wrappers

  /** The two routes the guard can redirect to. */
  datatype Route = Tabs | Login {
    /** The path given to `router.replace`. */
    function Path(): string {
      match this
      case Tabs => "/(tabs)"
      case Login => "/login"
    }

    /**
     * The route segments once the redirect has happened: the tab group is the
     * directory app/(tabs), and the login screen lives in the app/(auth) group.
     */
    function Segments(): seq<string> {
      match this
      case Tabs => ["(tabs)"]
      case Login => ["(auth)", "login"]
    }
  }

  const AuthGroup: string := "(auth)"

  /** The current route is inside the `(auth)` group; no segment at all is outside it. */
  predicate InAuthGroup(segments: seq<string>) {
    |segments| > 0 && segments[0] == AuthGroup
  }

  /**
   * The guard: a signed-in user inside the auth group goes to the tabs, a
   * signed-out user outside it goes to the login screen, and otherwise the
   * route stays. One evaluation yields at most one route.
   */
  function Redirect(isAuthenticated: bool, segments: seq<string>): (r: Option<Route>)
    ensures r == Some(Tabs) <==> isAuthenticated && |segments| > 0 && segments[0] == "(auth)"
    ensures r == Some(Login) <==> !isAuthenticated && (|segments| == 0 || segments[0] != "(auth)")
    ensures r == None <==> (isAuthenticated <==> !InAuthGroup(segments))
    ensures r.Some? ==> r.value.Path() == if isAuthenticated then "/(tabs)" else "/login"
  {
    var inAuthGroup := InAuthGroup(segments);
    if isAuthenticated && inAuthGroup then Some(Tabs)
    else if !isAuthenticated && !inAuthGroup then Some(Login)
    else None
  }

  /** The route after the guard has run once: the redirect target, or the current route. */
  function Settle(isAuthenticated: bool, segments: seq<string>): (route: seq<string>) {
    match Redirect(isAuthenticated, segments)
    case Some(route) => route.Segments()
    case None => segments
  }

  /**
   * One redirect is enough: after it the user is inside the auth group exactly
   * when signed out, and the guard, run again, leaves the route alone.
   */
  lemma RedirectSettles(isAuthenticated: bool, segments: seq<string>)
    ensures InAuthGroup(Settle(isAuthenticated, segments)) <==> !isAuthenticated
    ensures Redirect(isAuthenticated, Settle(isAuthenticated, segments)) == None
  {
    var r := Redirect(isAuthenticated, segments);
    if r == Some(Tabs) {
      assert Settle(isAuthenticated, segments) == ["(tabs)"];
    } else if r == Some(Login) {
      assert Settle(isAuthenticated, segments) == ["(auth)", "login"];
    }
  }

  /** The navigation theme. */
  datatype Theme = DarkTheme | DefaultTheme

  /** `colorScheme` is `'light'`, `'dark'`, or absent (`None`). */
  function ThemeFor(colorScheme: Option<string>): (t: Theme)
    ensures t == DarkTheme <==> colorScheme == Some("dark")
  {
    if colorScheme == Some("dark") then DarkTheme else DefaultTheme
  }
}
