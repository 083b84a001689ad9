/**
 * app/plugins/auth-sync.client.ts: the handler that keeps the token slot in
 * step with the auth provider's `onAuthStateChange` events.
 */
module AuthSync {
  import opened Wrappers
  import opened Auth

  /** Seven days in milliseconds: the refresh lifetime granted at sign-in. */
  const RefreshLifetimeMs: int := 7 * 24 * 60 * 60 * 1000
  const LoginPath: string := "/login"

  datatype AuthEvent = SignedIn | TokenRefreshed | SignedOut | OtherEvent(name: string)

  /** The provider's session; `expiresAt` is in seconds and may be missing. */
  datatype Session = Session(accessToken: string, expiresAt: Option<int>, refreshToken: string, tokenType: string)

  /**
   * The record saved for a session at clock reading `now`: the access expiry
   * is the session's own expiry, the refresh expiry seven days from now.
   * None when either `toISOString()` throws (a missing or out-of-range
   * instant), in which case nothing is saved.
   */
  function SessionTokens(s: Session, now: int): (r: Option<Tokens>)
    ensures r.Some? <==>
      s.expiresAt.Some? && Representable(s.expiresAt.value * 1000) && Representable(now + RefreshLifetimeMs)
    ensures r.Some? ==>
      r.value.accessToken == s.accessToken && r.value.refreshToken == s.refreshToken
      && r.value.tokenType == s.tokenType
  {
    if s.expiresAt.Some? && Representable(s.expiresAt.value * 1000) && Representable(now + RefreshLifetimeMs) then
      Some(Tokens(s.accessToken, IsoOf(s.expiresAt.value * 1000), s.refreshToken, IsoOf(now + RefreshLifetimeMs), s.tokenType))
    else None
  }

  /** The client router: the current path and the navigations pushed so far. */
  class Router {
    var path: string
    var pushed: seq<string>

    constructor (path: string)
      ensures this.path == path && pushed == []
    {
      this.path := path;
      pushed := [];
    }

    /** `router.push(to)` */
    method Push(to: string)
      modifies this
      ensures path == to && pushed == old(pushed) + [to]
    {
      path := to;
      pushed := pushed + [to];
    }
  }

  /** The `onAuthStateChange` handler, with `now` the clock reading it sees. */
  method OnAuthStateChange(store: ClientState, router: Router, event: AuthEvent, session: Option<Session>, now: int)
    modifies store, router
    ensures event.SignedIn? || event.TokenRefreshed? ==>
      var saved := if session.Some? then SessionTokens(session.value, now) else None;
      store.slot == (if saved.Some? && store.isClient then Some(Json(saved.value)) else old(store.slot))
      && router.path == old(router.path) && router.pushed == old(router.pushed)
    ensures event.SignedOut? ==>
      store.slot == (if store.isClient then None else old(store.slot)) && store.GetTokens() == None
      && router.path == LoginPath
      && router.pushed == old(router.pushed) + (if old(router.path) == LoginPath then [] else [LoginPath])
    ensures event.OtherEvent? ==>
      store.slot == old(store.slot) && router.path == old(router.path) && router.pushed == old(router.pushed)
    ensures store.userProfile == old(store.userProfile) && store.isLoadingProfile == old(store.isLoadingProfile)
  {
    if event.SignedIn? || event.TokenRefreshed? {
      if session.Some? {
        var saved := SessionTokens(session.value, now);
        if saved.Some? {
          store.SaveTokens(saved.value);
        }
      }
    } else if event.SignedOut? {
      store.ClearTokens();
      if router.path != LoginPath {
        router.Push(LoginPath);
      }
    }
  }

  /**
   * A session saved at `now` keeps the user authenticated for exactly seven
   * days, and its access token counts as expired from 30 seconds before the
   * session's own expiry.
   */
  lemma SavedSessionLifetime(s: Session, now: int, later: int, parse: string -> Option<int>)
    requires SessionTokens(s, now).Some?
    ensures var t := SessionTokens(s, now);
      (IsRefreshTokenExpired(t, later, parse) <==> later >= now + 604800000)
      && (IsAuthenticated(t, later, parse) <==> later < now + 604800000)
      && (IsAccessTokenExpired(t, later, parse) <==> later >= s.expiresAt.value * 1000 - 30000)
  {
  }
}
