/** app/middleware/auth.global.ts: the route guard run before every navigation. */
module RouteGuard {
  import opened Wrappers
  import opened Strings
  import opened Auth

  const LoginRoute: string := "/login"
  const DashboardRoute: string := "/dashboard"

  /** `publicRoutes.some(route => path.startsWith(route))` with the single public route `/login`. */
  predicate IsPublic(path: string) {
    StartsWith(path, LoginRoute)
  }

  /**
   * The guard's decision: no action on the server; an unauthenticated visit
   * to a protected path goes to the login page; an authenticated visit to the
   * login page itself goes to the dashboard; everything else proceeds.
   */
  function Guard(onServer: bool, path: string, authenticated: bool): (r: Option<string>)
    ensures onServer ==> r == None
    ensures r == Some(LoginRoute) <==> !onServer && !IsPublic(path) && !authenticated
    ensures r == Some(DashboardRoute) <==> !onServer && path == LoginRoute && authenticated
    ensures r.Some? ==> r.value == LoginRoute || r.value == DashboardRoute
    ensures r.Some? ==> r.value != path
  {
    assert IsPublic(LoginRoute) by {
      assert LoginRoute[..|LoginRoute|] == LoginRoute;
    }
    assert LoginRoute != DashboardRoute by {
      assert LoginRoute[1] != DashboardRoute[1];
    }
    if onServer then None
    else if !IsPublic(path) && !authenticated then Some(LoginRoute)
    else if path == LoginRoute && authenticated then Some(DashboardRoute)
    else None
  }

  /** The guard as the middleware runs it, over the shared token store. */
  function GuardFor(store: ClientState, path: string, now: int): (r: Option<string>)
    reads store
    ensures r.Some? ==> store.isClient && r.value != path
    ensures r == Some(LoginRoute) ==> !IsAuthenticated(store.GetTokens(), now, store.parseInstant)
    ensures r == Some(DashboardRoute) ==> IsAuthenticated(store.GetTokens(), now, store.parseInstant)
  {
    Guard(!store.isClient, path, IsAuthenticated(store.GetTokens(), now, store.parseInstant))
  }

  /** Any path beginning with `/login` is public, including `/login/x` and `/loginfoo`. */
  lemma PublicPrefixes()
    ensures IsPublic("/login") && IsPublic("/login/reset") && IsPublic("/loginfoo")
    ensures !IsPublic("/dashboard") && !IsPublic("/") && !IsPublic("/log")
  {
    assert "/login/reset"[..6] == "/login";
    assert "/loginfoo"[..6] == "/login";
    assert "/dashboard"[1] != "/login"[1];
  }

  /** A redirect lands on a page the guard lets through under the same authentication. */
  lemma {:induction false} RedirectSettles(onServer: bool, path: string, authenticated: bool)
    ensures var r := Guard(onServer, path, authenticated);
      r.Some? ==> Guard(onServer, r.value, authenticated) == None
  {
    var r := Guard(onServer, path, authenticated);
    if r == Some(LoginRoute) {
      assert IsPublic(LoginRoute) by {
        assert LoginRoute[..|LoginRoute|] == LoginRoute;
      }
    } else if r == Some(DashboardRoute) {
      assert LoginRoute != DashboardRoute by {
        assert LoginRoute[1] != DashboardRoute[1];
      }
    }
  }
}
