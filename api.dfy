/**
 * The authenticated HTTP client of app/composables/useApi.ts: URL and query
 * construction, the choice of headers and body, the single refresh-and-retry
 * on a 401 answer, and uploads.
 *
 * The network is an oracle: `pending` lists the outcomes the next fetches
 * will see (an exhausted list behaves as a rejected fetch), and every request
 * the client sends is appended to a log. The behaviour of a logical call is
 * given by a pure reference model over the token slot and the pending
 * outcomes (`RefreshModel`, `RequestModel`); the imperative client is proved
 * to follow it, and the promised properties are proved about the model.
 */
module Api {
  import opened Wrappers
  import opened Strings
  import opened Auth

  const DefaultBaseUrl: string := "https://api.example.com"
  const TokenPath: string := "/api/v1/auth/token"
  const JsonContentType: string := "application/json"
  const AuthFailedMessage: string := "Authentication failed. Please login again."

  /** The runtime configuration once its fallbacks are applied. */
  datatype Config = Config(baseURL: string, token: string)

  /** `apiBaseUrl || "https://api.example.com"` and `apiToken || ""`. */
  function MakeConfig(apiBaseUrl: string, apiToken: string): (c: Config)
    ensures c.baseURL != ""
    ensures apiBaseUrl != "" ==> c.baseURL == apiBaseUrl
    ensures apiBaseUrl == "" ==> c.baseURL == DefaultBaseUrl
    ensures c.token == apiToken
  {
    Config(if apiBaseUrl == "" then DefaultBaseUrl else apiBaseUrl, apiToken)
  }

  datatype HttpMethod = Unspecified | GET | POST | PUT | PATCH | DELETE

  /** A parameter value: `null`/`undefined`, a string or an integer. */
  datatype Value = Null | Str(s: string) | Num(n: int)

  /** The `data` argument of the helpers: absent, a `FormData`, or a plain object's entries in order. */
  datatype Data = NoData | Form(parts: seq<(string, string)>) | Plain(entries: seq<(string, Value)>)

  /** A request body: none, a `FormData`, or `JSON.stringify` of an object's entries. */
  datatype Body = NoBody | FormBody(parts: seq<(string, string)>) | JsonBody(entries: seq<(string, Value)>)

  /** The `RequestInit` handed along: method, body and caller headers. */
  datatype Options = Options(verb: HttpMethod, body: Body, headers: map<string, string>)

  /** A call `request(endpoint, options)`. */
  datatype Call = Call(endpoint: string, options: Options)

  /** What the client hands to `fetch`. */
  datatype FetchRequest = FetchRequest(url: string, verb: HttpMethod, headers: map<string, string>, body: Body)

  /** A response body: text `response.json()` rejects, or a JSON object's string-valued fields. */
  datatype Payload = NotJson | JsonObject(fields: map<string, string>)

  datatype Response = Response(status: int, statusText: string, payload: Payload)

  /** What one fetch yields: a response, or a rejection. */
  datatype Outcome = Responded(response: Response) | NetworkFailure

  /** A thrown error: an `Error` with its message, a body that is not JSON, or a rejected fetch. */
  datatype ApiError = Message(msg: string) | InvalidJson | NetworkError

  /** What `request` resolves to (the parsed JSON object) or rejects with. */
  datatype ApiResult = Success(data: map<string, string>) | Failed(error: ApiError)

  // ---------------------------------------------------------------------------
  // URLs and query strings
  // ---------------------------------------------------------------------------

  /** `s.replace(/\/$/, "")`: drops one trailing slash, if there is one. */
  function StripTrailingSlash(s: string): (r: string)
    ensures EndsWith(s, "/") ==> r + "/" == s
    ensures !EndsWith(s, "/") ==> r == s
  {
    if EndsWith(s, "/") then s[..|s| - 1] else s
  }

  /** The base without its trailing slash, then the endpoint with a leading slash. */
  function JoinUrl(base: string, endpoint: string): (r: string)
    ensures StartsWith(r, StripTrailingSlash(base))
    ensures |r| > |StripTrailingSlash(base)| && r[|StripTrailingSlash(base)|] == '/'
    ensures EndsWith(r, endpoint)
  {
    var tail := if StartsWith(endpoint, "/") then endpoint else "/" + endpoint;
    assert (StripTrailingSlash(base) + tail)[..|StripTrailingSlash(base)|] == StripTrailingSlash(base);
    assert (StripTrailingSlash(base) + tail)[|StripTrailingSlash(base) + tail| - |endpoint|..] == endpoint;
    StripTrailingSlash(base) + tail
  }

  /** `String(value)` for a present value. */
  function ValueText(v: Value): string
    requires v != Null
  {
    match v
    case Str(s) => s
    case Num(n) => IntToString(n)
  }

  /** The pairs `params.append` receives: entries whose value is present, stringified, in order. */
  function Surviving(entries: seq<(string, Value)>): (r: seq<(string, string)>)
    ensures |r| <= |entries|
    ensures r == [] <==> forall i :: 0 <= i < |entries| ==> entries[i].1 == Null
    ensures forall i :: 0 <= i < |entries| && entries[i].1 != Null ==> (entries[i].0, ValueText(entries[i].1)) in r
    ensures forall p :: p in r ==> exists i :: 0 <= i < |entries| && entries[i].1 != Null && p == (entries[i].0, ValueText(entries[i].1))
  {
    if entries == [] then []
    else
      var rest := Surviving(entries[1..]);
      assert forall i :: 1 <= i < |entries| ==> entries[i] == entries[1..][i - 1];
      if entries[0].1 == Null then rest
      else [(entries[0].0, ValueText(entries[0].1))] + rest
  }

  /** One `key=value` pair of `URLSearchParams.toString()`; the form encoding itself is left abstract. */
  function EncodedPair(p: (string, string), encode: string -> string): string {
    encode(p.0) + "=" + encode(p.1)
  }

  /** `params.toString()`: the encoded pairs joined by `&`. */
  function QueryString(pairs: seq<(string, string)>, encode: string -> string): (r: string)
    ensures r == "" <==> pairs == []
  {
    if pairs == [] then ""
    else if |pairs| == 1 then EncodedPair(pairs[0], encode)
    else EncodedPair(pairs[0], encode) + "&" + QueryString(pairs[1..], encode)
  }

  /** The query-string step shared by `get`, `put` and `delete`. */
  function WithQuery(endpoint: string, entries: seq<(string, Value)>, encode: string -> string): (url: string)
    ensures url == endpoint <==> forall i :: 0 <= i < |entries| ==> entries[i].1 == Null
    ensures url != endpoint ==>
      url == endpoint + (if '?' in endpoint then "&" else "?") + QueryString(Surviving(entries), encode)
  {
    var qs := QueryString(Surviving(entries), encode);
    if qs == "" then endpoint
    else
      var url := endpoint + (if '?' in endpoint then "&" else "?") + qs;
      assert |url| > |endpoint|;
      url
  }

  // ---------------------------------------------------------------------------
  // Headers, bodies and the per-verb helpers
  // ---------------------------------------------------------------------------

  /** `Bearer <stored access token>`, or `Bearer <configured token>` when none is stored. */
  function AuthHeader(cfg: Config, accessToken: Option<string>): string {
    "Bearer " + (if accessToken.Some? then accessToken.value else cfg.token)
  }

  /**
   * The headers `request` sends: Content-Type JSON unless the body is a
   * `FormData`, the Authorization header, then the caller's headers spread
   * last.
   */
  function RequestHeaders(cfg: Config, body: Body, accessToken: Option<string>, caller: map<string, string>): (h: map<string, string>)
    ensures h.Keys == caller.Keys + {"Authorization"} + (if body.FormBody? then {} else {"Content-Type"})
    ensures forall k :: k in caller ==> h[k] == caller[k]
    ensures "Authorization" !in caller ==>
      h["Authorization"] == "Bearer " + (if accessToken.Some? then accessToken.value else cfg.token)
    ensures "Content-Type" !in caller ==>
      ("Content-Type" in h <==> !body.FormBody?) && (!body.FormBody? ==> h["Content-Type"] == JsonContentType)
  {
    var authorization := map["Authorization" := AuthHeader(cfg, accessToken)];
    (if body.FormBody? then authorization else map["Content-Type" := JsonContentType] + authorization) + caller
  }

  /** The fetch `request` issues for a call, given the access token in the store. */
  function BuildRequest(cfg: Config, call: Call, accessToken: Option<string>): (req: FetchRequest)
    ensures req.verb == call.options.verb && req.body == call.options.body
    ensures req.url == JoinUrl(cfg.baseURL, call.endpoint)
    ensures req.headers == RequestHeaders(cfg, call.options.body, accessToken, call.options.headers)
  {
    FetchRequest(
      JoinUrl(cfg.baseURL, call.endpoint),
      call.options.verb,
      RequestHeaders(cfg, call.options.body, accessToken, call.options.headers),
      call.options.body)
  }

  /** The body `post` and `put` send: `FormData` passed through, other data stringified. */
  function StringifiedBody(data: Data): (b: Body)
    ensures data.Form? <==> b.FormBody?
    ensures data.NoData? <==> b.NoBody?
    ensures data.Plain? ==> b == JsonBody(data.entries)
    ensures data.Form? ==> b == FormBody(data.parts)
  {
    match data
    case NoData => NoBody
    case Form(parts) => FormBody(parts)
    case Plain(entries) => JsonBody(entries)
  }

  /** The headers `post` and `put` pass on: a JSON Content-Type unless the data is a `FormData`. */
  function HelperHeaders(data: Data, caller: map<string, string>): map<string, string> {
    if data.Form? then caller else map["Content-Type" := JsonContentType] + caller
  }

  /** `get(endpoint, data, options)`: a plain object becomes the query string, a `FormData` the body. */
  function GetCall(endpoint: string, data: Data, options: Options, encode: string -> string): (c: Call)
    ensures c.options.verb == GET && c.options.headers == options.headers
    ensures c.endpoint == if data.Plain? then WithQuery(endpoint, data.entries, encode) else endpoint
    ensures c.options.body == if data.Form? then FormBody(data.parts) else NoBody
  {
    Call(
      if data.Plain? then WithQuery(endpoint, data.entries, encode) else endpoint,
      Options(GET, if data.Form? then FormBody(data.parts) else NoBody, options.headers))
  }

  /** `post(endpoint, data, options)` */
  function PostCall(endpoint: string, data: Data, options: Options): (c: Call)
    ensures c.endpoint == endpoint && c.options.verb == POST
  {
    Call(endpoint, Options(POST, StringifiedBody(data), HelperHeaders(data, options.headers)))
  }

  /** `postForm(endpoint, formData, options)`: a `post` of the form. */
  function PostFormCall(endpoint: string, parts: seq<(string, string)>, options: Options): (c: Call)
    ensures c == PostCall(endpoint, Form(parts), options)
    ensures c.options.body == FormBody(parts) && c.options.headers == options.headers
  {
    PostCall(endpoint, Form(parts), options)
  }

  /** `put(endpoint, data, queryParams, options)`; absent query parameters are the empty list. */
  function PutCall(endpoint: string, data: Data, query: seq<(string, Value)>, options: Options, encode: string -> string): (c: Call)
    ensures c.options.verb == PUT
    ensures c.endpoint == WithQuery(endpoint, query, encode) && c.options.body == StringifiedBody(data)
    ensures c.options.headers == HelperHeaders(data, options.headers)
  {
    Call(WithQuery(endpoint, query, encode), Options(PUT, StringifiedBody(data), HelperHeaders(data, options.headers)))
  }

  /** `patch(endpoint, data, options)`: any data is stringified, a `FormData` to the empty object. */
  function PatchCall(endpoint: string, data: Data, options: Options): (c: Call)
    ensures c.endpoint == endpoint && c.options.verb == PATCH && c.options.headers == options.headers
    ensures !c.options.body.FormBody?
  {
    Call(endpoint, Options(PATCH,
      match data
      case NoData => NoBody
      case Form(_) => JsonBody([])
      case Plain(entries) => JsonBody(entries),
      options.headers))
  }

  /** `delete(endpoint, queryParams, options)`: the caller's body is kept. */
  function DeleteCall(endpoint: string, query: seq<(string, Value)>, options: Options, encode: string -> string): (c: Call)
    ensures c.options.verb == DELETE && c.options.body == options.body && c.options.headers == options.headers
    ensures c.endpoint == WithQuery(endpoint, query, encode)
  {
    Call(WithQuery(endpoint, query, encode), Options(DELETE, options.body, options.headers))
  }

  // ---------------------------------------------------------------------------
  // Responses
  // ---------------------------------------------------------------------------

  /** `response.ok` */
  predicate IsOk(r: Response) {
    200 <= r.status <= 299
  }

  predicate Is401(o: Outcome) {
    o.Responded? && o.response.status == 401
  }

  /** A JSON field read as a string; a missing field is "". */
  function Field(fields: map<string, string>, key: string): (v: string)
    ensures key !in fields ==> v == ""
  {
    if key in fields then fields[key] else ""
  }

  /** `errorData.message || fallback`, where an unparseable body gives `{}`. */
  function ErrorMessage(r: Response, fallback: string): (msg: string)
    ensures r.payload.JsonObject? && Field(r.payload.fields, "message") != "" ==>
      msg == Field(r.payload.fields, "message")
    ensures !(r.payload.JsonObject? && Field(r.payload.fields, "message") != "") ==> msg == fallback
    ensures msg != fallback ==> msg != ""
  {
    if r.payload.JsonObject? && Field(r.payload.fields, "message") != "" then r.payload.fields["message"]
    else fallback
  }

  /** `<prefix>: <status> <statusText>` */
  function StatusLine(prefix: string, r: Response): string {
    prefix + ": " + IntToString(r.status) + " " + r.statusText
  }

  /**
   * How `request` (prefix "API Error") and `upload` (prefix "Upload Error")
   * treat a response they do not retry: a non-ok status throws, an ok one
   * resolves to its JSON.
   */
  function Interpret(o: Outcome, prefix: string): (r: ApiResult)
    ensures o.NetworkFailure? ==> r == Failed(NetworkError)
    ensures r.Success? <==> o.Responded? && IsOk(o.response) && o.response.payload.JsonObject?
    ensures r.Success? ==> r.data == o.response.payload.fields
    ensures o.Responded? && !IsOk(o.response) ==>
      r == Failed(Message(ErrorMessage(o.response, StatusLine(prefix, o.response))))
  {
    match o
    case NetworkFailure => Failed(NetworkError)
    case Responded(resp) =>
      if !IsOk(resp) then Failed(Message(ErrorMessage(resp, StatusLine(prefix, resp))))
      else
        match resp.payload
        case NotJson => Failed(InvalidJson)
        case JsonObject(fields) => Success(fields)
  }

  /** The error thrown when a 401 could not be cured by a refresh. */
  function AuthFailure(r: Response): ApiResult {
    Failed(Message(ErrorMessage(r, AuthFailedMessage)))
  }

  /** The `RefreshTokenResponse` as `saveTokens` stores it. */
  function TokensFromJson(fields: map<string, string>): (t: Tokens)
    ensures t.accessToken == Field(fields, "access_token")
    ensures t.refreshToken == Field(fields, "refresh_token")
  {
    Tokens(
      Field(fields, "access_token"),
      Text(Field(fields, "access_token_expires_at")),
      Field(fields, "refresh_token"),
      Text(Field(fields, "refresh_token_expires_at")),
      Field(fields, "token_type"))
  }

  // ---------------------------------------------------------------------------
  // The reference model of a logical call
  // ---------------------------------------------------------------------------

  /** The outcome the next fetch sees. */
  function NextOutcome(pending: seq<Outcome>): Outcome {
    if pending == [] then NetworkFailure else pending[0]
  }

  /** The outcomes left after one fetch. */
  function Remaining(pending: seq<Outcome>): (rest: seq<Outcome>)
    ensures |rest| == if pending == [] then 0 else |pending| - 1
  {
    if pending == [] then [] else pending[1..]
  }

  /** The configuration, the side the code runs on, the date parser, and the clock reading. */
  datatype Env = Env(cfg: Config, isClient: bool, parse: string -> Option<int>, now: int)

  /** The refresh request of `refreshAccessToken`. */
  function TokenRequest(cfg: Config, refreshToken: string): (req: FetchRequest)
    ensures req.verb == GET && req.body == NoBody
    ensures req.headers == map["Authorization" := "Bearer " + refreshToken]
  {
    FetchRequest(StripTrailingSlash(cfg.baseURL) + TokenPath, GET, map["Authorization" := "Bearer " + refreshToken], NoBody)
  }

  /** An ok JSON response that carries a non-empty `access_token`. */
  predicate GrantsToken(o: Outcome) {
    o.Responded? && IsOk(o.response) && o.response.payload.JsonObject?
    && Field(o.response.payload.fields, "access_token") != ""
  }

  /** An ok JSON response without `access_token`: refused without clearing. */
  predicate LacksToken(o: Outcome) {
    o.Responded? && IsOk(o.response) && o.response.payload.JsonObject?
    && Field(o.response.payload.fields, "access_token") == ""
  }

  datatype Refreshed = Refreshed(ok: bool, slot: Option<Stored>, pending: seq<Outcome>, sent: seq<FetchRequest>)

  /** `refreshAccessToken` of the client: its answer, the new slot, the outcomes left and the fetches sent. */
  function RefreshModel(env: Env, slot: Option<Stored>, pending: seq<Outcome>): Refreshed {
    var tokens := TokensInSlot(env.isClient, slot);
    var refreshToken := RefreshTokenOf(tokens);
    if refreshToken.None? then Refreshed(false, slot, pending, [])
    else if IsRefreshTokenExpired(tokens, env.now, env.parse) then Refreshed(false, None, pending, [])
    else
      var o := NextOutcome(pending);
      var sent := [TokenRequest(env.cfg, refreshToken.value)];
      if GrantsToken(o) then
        Refreshed(true, Some(Json(TokensFromJson(o.response.payload.fields))), Remaining(pending), sent)
      else if LacksToken(o) then Refreshed(false, slot, Remaining(pending), sent)
      else Refreshed(false, None, Remaining(pending), sent)
  }

  datatype Step = Step(result: ApiResult, slot: Option<Stored>, pending: seq<Outcome>, sent: seq<FetchRequest>)

  /** One fetch whose answer is interpreted as it stands: what `request` does once the 401 rule does not apply. */
  function AttemptModel(env: Env, slot: Option<Stored>, pending: seq<Outcome>, call: Call): Step {
    var first := BuildRequest(env.cfg, call, AccessTokenOf(TokensInSlot(env.isClient, slot)));
    Step(Interpret(NextOutcome(pending), "API Error"), slot, Remaining(pending), [first])
  }

  /**
   * `request(endpoint, options, isRetry)`. The re-entered call has
   * `isRetry` set, so the 401 rule does not apply to it and it is a plain
   * attempt.
   */
  function RequestModel(env: Env, slot: Option<Stored>, pending: seq<Outcome>, call: Call, isRetry: bool): Step {
    var first := BuildRequest(env.cfg, call, AccessTokenOf(TokensInSlot(env.isClient, slot)));
    var o := NextOutcome(pending);
    if Is401(o) && !isRetry then
      var refreshed := RefreshModel(env, slot, Remaining(pending));
      if refreshed.ok then
        var retry := AttemptModel(env, refreshed.slot, refreshed.pending, call);
        Step(retry.result, retry.slot, retry.pending, [first] + (refreshed.sent + retry.sent))
      else Step(AuthFailure(o.response), refreshed.slot, refreshed.pending, [first] + refreshed.sent)
    else AttemptModel(env, slot, pending, call)
  }

  /** The single fetch of `upload`: a POST of the form with no Content-Type of its own. */
  function UploadRequest(cfg: Config, endpoint: string, parts: seq<(string, string)>, options: Options, accessToken: Option<string>): (req: FetchRequest)
    ensures req.verb == POST && req.body == FormBody(parts)
    ensures req.headers.Keys == options.headers.Keys + {"Authorization"}
    ensures req.url == JoinUrl(cfg.baseURL, endpoint)
    ensures forall k :: k in options.headers ==> req.headers[k] == options.headers[k]
    ensures "Authorization" !in options.headers ==>
      req.headers["Authorization"] == "Bearer " + (if accessToken.Some? then accessToken.value else cfg.token)
  {
    FetchRequest(
      JoinUrl(cfg.baseURL, endpoint),
      POST,
      map["Authorization" := AuthHeader(cfg, accessToken)] + options.headers,
      FormBody(parts))
  }

  // ---------------------------------------------------------------------------
  // Properties of URLs, helpers and the request pipeline
  // ---------------------------------------------------------------------------

  /**
   * The base and the endpoint meet at exactly one slash, whether or not the
   * base ends in one and whether or not the endpoint starts with one.
   */
  lemma JoinUrlSingleSlash(b: string, path: string)
    requires !EndsWith(b, "/") && !StartsWith(path, "/")
    ensures JoinUrl(b, path) == b + "/" + path
    ensures JoinUrl(b + "/", path) == b + "/" + path
    ensures JoinUrl(b, "/" + path) == b + "/" + path
    ensures JoinUrl(b + "/", "/" + path) == b + "/" + path
  {
    assert EndsWith(b + "/", "/") by {
      assert (b + "/")[|b + "/"| - 1..] == "/";
    }
    assert StartsWith("/" + path, "/");
    assert (b + "/")[..|b|] == b;
  }

  /** Only one trailing slash is removed: a base ending in two keeps one of them. */
  lemma JoinUrlStripsOneSlash(b: string, endpoint: string)
    requires StartsWith(endpoint, "/")
    ensures JoinUrl(b + "//", endpoint) == b + "/" + endpoint
  {
    assert EndsWith(b + "//", "/") by {
      assert (b + "//")[|b + "//"| - 1..] == "/";
    }
    assert (b + "//")[..|b + "//"| - 1] == b + "/";
  }

  /** The refresh request goes where `request` would send the token path. */
  lemma TokenRequestUrl(cfg: Config, refreshToken: string)
    ensures TokenRequest(cfg, refreshToken).url == JoinUrl(cfg.baseURL, TokenPath)
  {
    assert StartsWith(TokenPath, "/") by {
      assert TokenPath[..1] == "/";
    }
  }

  /** A query parameter is appended with `&` after an existing query and with `?` otherwise. */
  lemma QueryExample(encode: string -> string)
    ensures WithQuery("/orders?status=pending", [("page", Num(2)), ("q", Null)], encode)
      == "/orders?status=pending&" + encode("page") + "=" + encode("2")
    ensures WithQuery("/orders", [("q", Null)], encode) == "/orders"
  {
    var entries := [("page", Num(2)), ("q", Null)];
    assert IntToString(2) == "2";
    assert Surviving(entries[1..]) == [];
    assert Surviving(entries) == [("page", "2")];
    assert "/orders?status=pending"[7] == '?';
  }

  /**
   * `post` and `put` stringify non-form data and pass a `FormData` through;
   * the request then carries a JSON Content-Type exactly when the body is not
   * a form, unless the caller set its own.
   */
  lemma PostBodyAndContentType(cfg: Config, endpoint: string, data: Data, options: Options, accessToken: Option<string>)
    ensures var req := BuildRequest(cfg, PostCall(endpoint, data, options), accessToken);
      req.body == StringifiedBody(data)
      && ("Content-Type" !in options.headers ==>
        ("Content-Type" in req.headers <==> !data.Form?)
        && (!data.Form? ==> req.headers["Content-Type"] == JsonContentType))
      && ("Content-Type" in options.headers ==> req.headers["Content-Type"] == options.headers["Content-Type"])
  {
  }

  lemma PutBodyAndContentType(cfg: Config, endpoint: string, data: Data, query: seq<(string, Value)>, options: Options, encode: string -> string, accessToken: Option<string>)
    ensures var req := BuildRequest(cfg, PutCall(endpoint, data, query, options, encode), accessToken);
      req.body == StringifiedBody(data)
      && ("Content-Type" !in options.headers ==>
        ("Content-Type" in req.headers <==> !data.Form?)
        && (!data.Form? ==> req.headers["Content-Type"] == JsonContentType))
  {
  }

  /** A `get` never sends a JSON body; its plain-object data lands in the URL. */
  lemma GetSendsQuery(cfg: Config, endpoint: string, entries: seq<(string, Value)>, options: Options, encode: string -> string, accessToken: Option<string>)
    ensures var req := BuildRequest(cfg, GetCall(endpoint, Plain(entries), options, encode), accessToken);
      req.body == NoBody && req.verb == GET
      && req.url == JoinUrl(cfg.baseURL, WithQuery(endpoint, entries, encode))
  {
  }

  /** `patch` always declares JSON, even when handed a `FormData` (sent as `{}`). */
  lemma PatchIsJson(cfg: Config, endpoint: string, data: Data, options: Options, accessToken: Option<string>)
    requires "Content-Type" !in options.headers
    ensures var req := BuildRequest(cfg, PatchCall(endpoint, data, options), accessToken);
      req.headers["Content-Type"] == JsonContentType
      && (data.Form? ==> req.body == JsonBody([]))
  {
  }

  /**
   * The fetches of one logical call: the request itself, the refresh request
   * exactly when the first answer is a 401 on a first attempt and a usable
   * refresh token is stored, and the retry exactly when that refresh granted
   * an access token, which the retry then carries.
   */
  lemma {:induction false} RequestTrace(env: Env, slot: Option<Stored>, pending: seq<Outcome>, call: Call, isRetry: bool)
    ensures var m := RequestModel(env, slot, pending, call, isRetry);
      var tokens := TokensInSlot(env.isClient, slot);
      var refreshToken := RefreshTokenOf(tokens);
      var refreshes := Is401(NextOutcome(pending)) && !isRetry && refreshToken.Some?
        && !IsRefreshTokenExpired(tokens, env.now, env.parse);
      var grant := NextOutcome(Remaining(pending));
      var retries := refreshes && GrantsToken(grant);
      m.sent == [BuildRequest(env.cfg, call, AccessTokenOf(tokens))]
        + (if refreshes then [TokenRequest(env.cfg, refreshToken.value)] else [])
        + (if retries then [BuildRequest(env.cfg, call, Some(Field(grant.response.payload.fields, "access_token")))] else [])
  {
    if Is401(NextOutcome(pending)) && !isRetry {
      TraceAfter401(env, slot, pending, call);
      RefreshOutcomes(env, slot, Remaining(pending));
    }
  }

  /** After a first-attempt 401 the trace is the request, the refresh's fetches and, when it succeeded, the retry. */
  lemma TraceAfter401(env: Env, slot: Option<Stored>, pending: seq<Outcome>, call: Call)
    requires Is401(NextOutcome(pending))
    ensures var m := RequestModel(env, slot, pending, call, false);
      var rf := RefreshModel(env, slot, Remaining(pending));
      m.sent == [BuildRequest(env.cfg, call, AccessTokenOf(TokensInSlot(env.isClient, slot)))] + rf.sent
        + (if rf.ok then [BuildRequest(env.cfg, call, AccessTokenOf(TokensInSlot(env.isClient, rf.slot)))] else [])
  {
    var rf := RefreshModel(env, slot, Remaining(pending));
    var first := BuildRequest(env.cfg, call, AccessTokenOf(TokensInSlot(env.isClient, slot)));
    if rf.ok {
      ConcatAssoc([first], rf.sent, AttemptModel(env, rf.slot, rf.pending, call).sent);
    } else {
      assert [first] + rf.sent + [] == [first] + rf.sent;
    }
  }

  /** Each logical call makes at most three fetches, of which at most two go to the endpoint. */
  lemma RequestFetchBound(env: Env, slot: Option<Stored>, pending: seq<Outcome>, call: Call, isRetry: bool)
    ensures var m := RequestModel(env, slot, pending, call, isRetry);
      1 <= |m.sent| <= 3
      && m.sent[0] == BuildRequest(env.cfg, call, AccessTokenOf(TokensInSlot(env.isClient, slot)))
      && (|m.sent| >= 2 ==> m.sent[1].headers.Keys == {"Authorization"} && m.sent[1].verb == GET)
      && (isRetry ==> |m.sent| == 1)
  {
    if Is401(NextOutcome(pending)) && !isRetry {
      RefreshSent(env, slot, Remaining(pending));
    }
  }

  /** `refreshAccessToken` sends at most the one token request, and sends it whenever it succeeds. */
  lemma RefreshSent(env: Env, slot: Option<Stored>, pending: seq<Outcome>)
    ensures var rf := RefreshModel(env, slot, pending);
      |rf.sent| <= 1 && (rf.ok ==> |rf.sent| == 1 && rf.pending == Remaining(pending))
      && (|rf.sent| == 1 ==> rf.sent[0].headers.Keys == {"Authorization"} && rf.sent[0].verb == GET)
  {
  }

  /**
   * What a logical call resolves to: without a first-attempt 401 the answer
   * is interpreted directly; a 401 whose refresh fails throws the
   * authentication error; after a successful refresh the retry's answer is
   * interpreted and a second 401 is reported as an ordinary API error.
   */
  lemma RequestResult(env: Env, slot: Option<Stored>, pending: seq<Outcome>, call: Call, isRetry: bool)
    ensures var m := RequestModel(env, slot, pending, call, isRetry);
      var o := NextOutcome(pending);
      var refreshed := RefreshModel(env, slot, Remaining(pending));
      ((!Is401(o) || isRetry) ==>
        m.result == Interpret(o, "API Error") && m.slot == slot && m.pending == Remaining(pending))
      && (Is401(o) && !isRetry && !refreshed.ok ==> m.result == AuthFailure(o.response) && m.slot == refreshed.slot)
      && (Is401(o) && !isRetry && refreshed.ok ==>
        m.result == Interpret(NextOutcome(Remaining(Remaining(pending))), "API Error")
        && m.slot == refreshed.slot)
  {
    if Is401(NextOutcome(pending)) && !isRetry {
      RefreshSent(env, slot, Remaining(pending));
    }
  }

  /** The error a failed refresh surfaces: the body's message, else the fixed text. */
  lemma AuthFailureMessage(status: int, statusText: string)
    ensures AuthFailure(Response(status, statusText, NotJson)) == Failed(Message(AuthFailedMessage))
    ensures AuthFailure(Response(status, statusText, JsonObject(map["message" := "Session revoked"])))
      == Failed(Message("Session revoked"))
  {
  }

  /** A non-ok answer without a message reads `API Error: <status> <statusText>`. */
  lemma ApiErrorMessage(statusText: string)
    ensures Interpret(Responded(Response(401, statusText, NotJson)), "API Error")
      == Failed(Message("API Error: 401 " + statusText))
    ensures Interpret(Responded(Response(500, statusText, JsonObject(map[]))), "Upload Error")
      == Failed(Message("Upload Error: 500 " + statusText))
  {
    assert IntToString(401) == "401" by {
      assert NatToString(4) == "4";
      assert NatToString(40) == "40";
    }
    assert IntToString(500) == "500" by {
      assert NatToString(5) == "5";
      assert NatToString(50) == "50";
    }
    assert "API Error" + ": " + "401" + " " + statusText == "API Error: 401 " + statusText;
    assert "Upload Error" + ": " + "500" + " " + statusText == "Upload Error: 500 " + statusText;
  }

  /**
   * `refreshAccessToken`: without a refresh token nothing happens; an expired
   * one is cleared without a fetch; otherwise one GET with the refresh token
   * is sent, a granted access token is stored and reported, an ok answer
   * without one leaves the slot alone, and every other answer clears it.
   */
  lemma RefreshOutcomes(env: Env, slot: Option<Stored>, pending: seq<Outcome>)
    ensures var rf := RefreshModel(env, slot, pending);
      var tokens := TokensInSlot(env.isClient, slot);
      var refreshToken := RefreshTokenOf(tokens);
      var o := NextOutcome(pending);
      (refreshToken.None? ==> rf == Refreshed(false, slot, pending, []))
      && (refreshToken.Some? && IsRefreshTokenExpired(tokens, env.now, env.parse) ==>
        !rf.ok && TokensInSlot(env.isClient, rf.slot) == None && rf.sent == [] && rf.pending == pending)
      && (refreshToken.Some? && !IsRefreshTokenExpired(tokens, env.now, env.parse) ==>
        rf.sent == [TokenRequest(env.cfg, refreshToken.value)] && rf.pending == Remaining(pending)
        && (rf.ok <==> GrantsToken(o))
        && (rf.ok ==>
          TokensInSlot(env.isClient, rf.slot) == Some(TokensFromJson(o.response.payload.fields))
          && AccessTokenOf(TokensInSlot(env.isClient, rf.slot)) == Some(Field(o.response.payload.fields, "access_token")))
        && (LacksToken(o) ==> rf.slot == slot)
        && (!GrantsToken(o) && !LacksToken(o) ==> TokensInSlot(env.isClient, rf.slot) == None))
  {
  }

  /** After a successful refresh the retry carries the new access token, unless the caller set Authorization. */
  lemma RetryCarriesNewToken(env: Env, slot: Option<Stored>, pending: seq<Outcome>, call: Call)
    requires "Authorization" !in call.options.headers
    ensures var m := RequestModel(env, slot, pending, call, false);
      |m.sent| == 3 ==>
        var grant := NextOutcome(Remaining(pending));
        GrantsToken(grant)
        && m.sent[2].headers["Authorization"] == "Bearer " + Field(grant.response.payload.fields, "access_token")
  {
    RequestTrace(env, slot, pending, call, false);
  }

  /** `upload` adds no Content-Type of its own and reports failures as upload errors. */
  lemma UploadShape(cfg: Config, endpoint: string, parts: seq<(string, string)>, options: Options, accessToken: Option<string>, o: Outcome)
    requires "Content-Type" !in options.headers
    ensures "Content-Type" !in UploadRequest(cfg, endpoint, parts, options, accessToken).headers
    ensures o.Responded? && !IsOk(o.response) ==>
      Interpret(o, "Upload Error") == Failed(Message(ErrorMessage(o.response, StatusLine("Upload Error", o.response))))
  {
  }

  /** `upload` sends the headers `request` sends for a form body: the bearer, then the caller's. */
  lemma UploadHeadersAsRequest(cfg: Config, endpoint: string, parts: seq<(string, string)>, options: Options, accessToken: Option<string>)
    ensures UploadRequest(cfg, endpoint, parts, options, accessToken).headers
      == RequestHeaders(cfg, FormBody(parts), accessToken, options.headers)
  {
  }

  lemma ConcatAssoc<T>(a: seq<T>, b: seq<T>, c: seq<T>)
    ensures (a + b) + c == a + (b + c)
  {
  }

  // ---------------------------------------------------------------------------
  // The client
  // ---------------------------------------------------------------------------

  /** The network as the client sees it. */
  class Network {
    /** The outcomes the coming fetches will see, in order. */
    var pending: seq<Outcome>
    /** Every request sent so far. */
    var log: seq<FetchRequest>

    constructor (pending: seq<Outcome>)
      ensures this.pending == pending && log == []
    {
      this.pending := pending;
      log := [];
    }

    /** `fetch(url, init)` */
    method Fetch(req: FetchRequest) returns (o: Outcome)
      modifies this
      ensures o == NextOutcome(old(pending))
      ensures pending == Remaining(old(pending))
      ensures log == old(log) + [req]
    {
      o := NextOutcome(pending);
      pending := Remaining(pending);
      log := log + [req];
    }
  }

  /** One `useApi()` instance over the shared token store. */
  class Client {
    const cfg: Config
    const store: ClientState
    const net: Network

    constructor (apiBaseUrl: string, apiToken: string, store: ClientState, net: Network)
      ensures cfg == MakeConfig(apiBaseUrl, apiToken)
      ensures this.store == store && this.net == net
    {
      cfg := MakeConfig(apiBaseUrl, apiToken);
      this.store := store;
      this.net := net;
    }

    /** The model's view of this client at clock reading `now`. */
    function EnvAt(now: int): Env {
      Env(cfg, store.isClient, store.parseInstant, now)
    }

    /** `refreshAccessToken`, with `now` the clock reading it sees. */
    method RefreshAccessToken(now: int) returns (ok: bool)
      modifies store, net
      ensures var m := RefreshModel(EnvAt(now), old(store.slot), old(net.pending));
        ok == m.ok && store.slot == m.slot && net.pending == m.pending && net.log == old(net.log) + m.sent
      ensures store.userProfile == old(store.userProfile) && store.isLoadingProfile == old(store.isLoadingProfile)
    {
      var refreshToken := store.GetRefreshToken();
      if refreshToken.None? {
        return false;
      }
      if IsRefreshTokenExpired(store.GetTokens(), now, store.parseInstant) {
        store.ClearTokens();
        return false;
      }
      var o := net.Fetch(TokenRequest(cfg, refreshToken.value));
      if o.NetworkFailure? || !IsOk(o.response) || o.response.payload.NotJson? {
        store.ClearTokens();
        return false;
      }
      var data := o.response.payload.fields;
      if Field(data, "access_token") != "" {
        store.SaveTokens(TokensFromJson(data));
        return true;
      }
      return false;
    }

    /** `request(call.endpoint, call.options, isRetry)` */
    method Request(call: Call, isRetry: bool, now: int) returns (r: ApiResult)
      modifies store, net
      decreases if isRetry then 0 else 2
      ensures var m := RequestModel(EnvAt(now), old(store.slot), old(net.pending), call, isRetry);
        r == m.result && store.slot == m.slot && net.pending == m.pending && net.log == old(net.log) + m.sent
      ensures store.userProfile == old(store.userProfile) && store.isLoadingProfile == old(store.isLoadingProfile)
    {
      ghost var env, slot0, pending0, log0 := EnvAt(now), store.slot, net.pending, net.log;
      var first := BuildRequest(cfg, call, store.GetAccessToken());
      var o := net.Fetch(first);
      if Is401(o) && !isRetry {
        r := RetryAfterRefresh(call, o.response, now);
        ghost var rf := RefreshModel(env, slot0, Remaining(pending0));
        ghost var retry := AttemptModel(env, rf.slot, rf.pending, call);
        ghost var tail := if rf.ok then rf.sent + retry.sent else rf.sent;
        ConcatAssoc(log0, [first], tail);
      } else {
        r := Interpret(o, "API Error");
      }
    }

    /** The 401 branch of a first attempt: refresh, then re-issue the call once, or throw the authentication error. */
    method RetryAfterRefresh(call: Call, rejected: Response, now: int) returns (r: ApiResult)
      modifies store, net
      decreases 1
      ensures var rf := RefreshModel(EnvAt(now), old(store.slot), old(net.pending));
        var retry := AttemptModel(EnvAt(now), rf.slot, rf.pending, call);
        (rf.ok ==>
          r == retry.result && store.slot == retry.slot && net.pending == retry.pending
          && net.log == old(net.log) + (rf.sent + retry.sent))
        && (!rf.ok ==>
          r == AuthFailure(rejected) && store.slot == rf.slot && net.pending == rf.pending
          && net.log == old(net.log) + rf.sent)
      ensures store.userProfile == old(store.userProfile) && store.isLoadingProfile == old(store.isLoadingProfile)
    {
      var refreshed := RefreshAccessToken(now);
      if refreshed {
        ghost var log0, log1 := old(net.log), net.log;
        r := Request(call, true, now);
        ConcatAssoc(log0, log1[|log0|..], net.log[|log1|..]);
      } else {
        r := AuthFailure(rejected);
      }
    }

    /** `upload(endpoint, formData, options)`: one fetch, and no refresh on a 401. */
    method Upload(endpoint: string, parts: seq<(string, string)>, options: Options) returns (r: ApiResult)
      modifies net
      ensures net.log == old(net.log) + [UploadRequest(cfg, endpoint, parts, options, store.GetAccessToken())]
      ensures net.pending == Remaining(old(net.pending))
      ensures r == Interpret(NextOutcome(old(net.pending)), "Upload Error")
    {
      var o := net.Fetch(UploadRequest(cfg, endpoint, parts, options, store.GetAccessToken()));
      r := Interpret(o, "Upload Error");
    }
  }
}
