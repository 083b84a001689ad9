/**
 * app/composables/useAuthRefresh.ts: a second refresh routine that goes
 * through the client's own `get` (and so through its 401 handling), and
 * `ensureValidToken`.
 */
module AuthRefresh {
  import opened Wrappers
  import opened Auth
  import opened Api

  /** `{ Authorization: "Bearer <refresh token>" }` */
  function BearerOf(refreshToken: string): map<string, string> {
    map["Authorization" := "Bearer " + refreshToken]
  }

  /** `api.get("/api/v1/auth/token", undefined, { headers: BearerOf(refreshToken) })` */
  function RefreshCall(refreshToken: string): (c: Call)
    ensures c.endpoint == TokenPath && c.options.verb == GET && c.options.body == NoBody
    ensures c.options.headers == BearerOf(refreshToken)
  {
    GetCall(TokenPath, NoData, Options(Unspecified, NoBody, BearerOf(refreshToken)), s => s)
  }

  /** The tokens returned (if any), the new slot, the outcomes left and the fetches sent. */
  datatype Renewal = Renewal(tokens: Option<Tokens>, slot: Option<Stored>, pending: seq<Outcome>, sent: seq<FetchRequest>)

  /** `refreshAccessToken` of this composable. */
  function RenewModel(env: Env, slot: Option<Stored>, pending: seq<Outcome>): Renewal {
    var tokens := TokensInSlot(env.isClient, slot);
    var refreshToken := RefreshTokenOf(tokens);
    if refreshToken.None? then Renewal(None, slot, pending, [])
    else if IsRefreshTokenExpired(tokens, env.now, env.parse) then Renewal(None, None, pending, [])
    else
      var m := RequestModel(env, slot, pending, RefreshCall(refreshToken.value), false);
      match m.result
      case Failed(_) => Renewal(None, None, m.pending, m.sent)
      case Success(data) =>
        if Field(data, "access_token") != "" then
          Renewal(Some(TokensFromJson(data)), Some(Json(TokensFromJson(data))), m.pending, m.sent)
        else Renewal(None, m.slot, m.pending, m.sent)
  }

  /** The token `ensureValidToken` yields, the new slot, the outcomes left and the fetches sent. */
  datatype Ensured = Ensured(token: Option<string>, slot: Option<Stored>, pending: seq<Outcome>, sent: seq<FetchRequest>)

  /** `ensureValidToken` */
  function EnsureModel(env: Env, slot: Option<Stored>, pending: seq<Outcome>): Ensured {
    var tokens := TokensInSlot(env.isClient, slot);
    if IsAccessTokenExpired(tokens, env.now, env.parse) then
      var rn := RenewModel(env, slot, pending);
      Ensured(if rn.tokens.Some? then AccessTokenOf(rn.tokens) else None, rn.slot, rn.pending, rn.sent)
    else Ensured(AccessTokenOf(tokens), slot, pending, [])
  }

  /** `refreshAccessToken`, with `now` the clock reading it sees. */
  method RefreshAccessToken(api: Client, now: int) returns (r: Option<Tokens>)
    modifies api.store, api.net
    ensures var m := RenewModel(api.EnvAt(now), old(api.store.slot), old(api.net.pending));
      r == m.tokens && api.store.slot == m.slot && api.net.pending == m.pending && api.net.log == old(api.net.log) + m.sent
    ensures api.store.userProfile == old(api.store.userProfile)
    ensures api.store.isLoadingProfile == old(api.store.isLoadingProfile)
  {
    var refreshToken := api.store.GetRefreshToken();
    if refreshToken.None? {
      return None;
    }
    if IsRefreshTokenExpired(api.store.GetTokens(), now, api.store.parseInstant) {
      api.store.ClearTokens();
      return None;
    }
    var response := api.Request(RefreshCall(refreshToken.value), false, now);
    if response.Failed? {
      api.store.ClearTokens();
      return None;
    }
    if Field(response.data, "access_token") != "" {
      api.store.SaveTokens(TokensFromJson(response.data));
      return Some(TokensFromJson(response.data));
    }
    return None;
  }

  /** `ensureValidToken` */
  method EnsureValidToken(api: Client, now: int) returns (token: Option<string>)
    modifies api.store, api.net
    ensures var m := EnsureModel(api.EnvAt(now), old(api.store.slot), old(api.net.pending));
      token == m.token && api.store.slot == m.slot && api.net.pending == m.pending && api.net.log == old(api.net.log) + m.sent
    ensures api.store.userProfile == old(api.store.userProfile)
    ensures api.store.isLoadingProfile == old(api.store.isLoadingProfile)
  {
    if IsAccessTokenExpired(api.store.GetTokens(), now, api.store.parseInstant) {
      var renewed := RefreshAccessToken(api, now);
      token := if renewed.Some? then AccessTokenOf(renewed) else None;
    } else {
      token := api.store.GetAccessToken();
    }
  }

  // ---------------------------------------------------------------------------
  // Properties
  // ---------------------------------------------------------------------------

  /**
   * The failure paths of the refresh: no refresh token leaves everything as
   * it was; an expired one is cleared without a request; a thrown request
   * clears the slot; returned tokens carry an access token and are the ones
   * now stored.
   */
  lemma RenewOutcomes(env: Env, slot: Option<Stored>, pending: seq<Outcome>)
    ensures var rn := RenewModel(env, slot, pending);
      var tokens := TokensInSlot(env.isClient, slot);
      var refreshToken := RefreshTokenOf(tokens);
      (refreshToken.None? ==> rn == Renewal(None, slot, pending, []))
      && (refreshToken.Some? && IsRefreshTokenExpired(tokens, env.now, env.parse) ==>
        rn.tokens == None && TokensInSlot(env.isClient, rn.slot) == None && rn.sent == [])
      && (refreshToken.Some? && !IsRefreshTokenExpired(tokens, env.now, env.parse) ==>
        var m := RequestModel(env, slot, pending, RefreshCall(refreshToken.value), false);
        rn.sent == m.sent
        && (m.result.Failed? ==> rn.tokens == None && TokensInSlot(env.isClient, rn.slot) == None))
      && (rn.tokens.Some? ==>
        rn.tokens.value.accessToken != "" && TokensInSlot(env.isClient, rn.slot) == rn.tokens)
  {
  }

  /**
   * The refresh request carries the refresh token, not the stored access
   * token: the caller's Authorization header is spread after the client's.
   */
  lemma {:induction false} RenewSendsRefreshToken(env: Env, slot: Option<Stored>, pending: seq<Outcome>)
    requires RefreshTokenOf(TokensInSlot(env.isClient, slot)).Some?
    requires !IsRefreshTokenExpired(TokensInSlot(env.isClient, slot), env.now, env.parse)
    ensures var rn := RenewModel(env, slot, pending);
      var refreshToken := RefreshTokenOf(TokensInSlot(env.isClient, slot)).value;
      |rn.sent| >= 1
      && rn.sent[0].url == JoinUrl(env.cfg.baseURL, TokenPath)
      && "Authorization" in rn.sent[0].headers
      && rn.sent[0].headers["Authorization"] == "Bearer " + refreshToken
  {
    var tokens := TokensInSlot(env.isClient, slot);
    var refreshToken := RefreshTokenOf(tokens).value;
    RenewSendsTrace(env, slot, pending);
    RequestFetchBound(env, slot, pending, RefreshCall(refreshToken), false);
    RefreshCallRequest(env.cfg, refreshToken, AccessTokenOf(tokens));
  }

  /**
   * A 401 from the token endpoint sets off the client's own refresh, which
   * asks the same endpoint with the same refresh token a second time.
   */
  lemma {:induction false} RenewOn401AsksTwice(env: Env, slot: Option<Stored>, pending: seq<Outcome>)
    requires RefreshTokenOf(TokensInSlot(env.isClient, slot)).Some?
    requires !IsRefreshTokenExpired(TokensInSlot(env.isClient, slot), env.now, env.parse)
    requires Is401(NextOutcome(pending))
    ensures var rn := RenewModel(env, slot, pending);
      |rn.sent| >= 2
      && rn.sent[1].url == rn.sent[0].url
      && "Authorization" in rn.sent[0].headers && "Authorization" in rn.sent[1].headers
      && rn.sent[1].headers["Authorization"] == rn.sent[0].headers["Authorization"]
  {
    var tokens := TokensInSlot(env.isClient, slot);
    var refreshToken := RefreshTokenOf(tokens).value;
    var m := RequestModel(env, slot, pending, RefreshCall(refreshToken), false);
    RenewSendsTrace(env, slot, pending);
    RequestTrace(env, slot, pending, RefreshCall(refreshToken), false);
    assert m.sent[0] == BuildRequest(env.cfg, RefreshCall(refreshToken), AccessTokenOf(tokens));
    assert m.sent[1] == TokenRequest(env.cfg, refreshToken);
    RefreshCallRequest(env.cfg, refreshToken, AccessTokenOf(tokens));
    TokenRequestUrl(env.cfg, refreshToken);
  }

  /** With a usable refresh token the fetches of the refresh are those of the one `get`. */
  lemma RenewSendsTrace(env: Env, slot: Option<Stored>, pending: seq<Outcome>)
    requires RefreshTokenOf(TokensInSlot(env.isClient, slot)).Some?
    requires !IsRefreshTokenExpired(TokensInSlot(env.isClient, slot), env.now, env.parse)
    ensures RenewModel(env, slot, pending).sent
      == RequestModel(env, slot, pending, RefreshCall(RefreshTokenOf(TokensInSlot(env.isClient, slot)).value), false).sent
  {
  }

  /** The `get` of the token endpoint goes to that endpoint and carries the refresh token. */
  lemma RefreshCallRequest(cfg: Config, refreshToken: string, accessToken: Option<string>)
    ensures var req := BuildRequest(cfg, RefreshCall(refreshToken), accessToken);
      req.url == JoinUrl(cfg.baseURL, TokenPath)
      && "Authorization" in req.headers && req.headers["Authorization"] == "Bearer " + refreshToken
  {
  }

  /**
   * `ensureValidToken`: a live access token is returned as stored with no
   * request; an expired one is replaced by the refreshed token, or none.
   */
  lemma EnsureValidTokenCases(env: Env, slot: Option<Stored>, pending: seq<Outcome>)
    ensures var e := EnsureModel(env, slot, pending);
      var tokens := TokensInSlot(env.isClient, slot);
      (!IsAccessTokenExpired(tokens, env.now, env.parse) ==>
        e == Ensured(AccessTokenOf(tokens), slot, pending, []))
      && (IsAccessTokenExpired(tokens, env.now, env.parse) ==>
        var rn := RenewModel(env, slot, pending);
        (e.token.Some? <==> rn.tokens.Some?)
        && (rn.tokens.Some? ==> e.token == Some(rn.tokens.value.accessToken)))
  {
  }
}
