/**
 * The credential store and token lifecycle of app/composables/useAuth.ts.
 *
 * One durable slot (the localStorage key "kiki_packaging_auth_tokens") holds the
 * access/refresh pair; the expiry predicates read it against a clock value `now`
 * (milliseconds since the epoch) supplied by the caller.
 */
module Auth {
  import opened Wrappers
  import opened Strings

  /**
   * An expiry field as it sits in the slot. `IsoOf(ms)` is a string the client
   * rendered itself with `toISOString()` (the model identifies it with the
   * instant it renders); `Text(s)` is a string received from the server.
   */
  datatype Stamp = IsoOf(ms: int) | Text(text: string)

  /** The `AuthTokens` record (missing fields of a server response read as ""). */
  datatype Tokens = Tokens(
    accessToken: string,
    accessExpiresAt: Stamp,
    refreshToken: string,
    refreshExpiresAt: Stamp,
    tokenType: string)

  /** What the slot holds: a JSON rendering of tokens, or text `JSON.parse` rejects. */
  datatype Stored = Json(tokens: Tokens) | Unparseable(raw: string)

  /** The global `userProfile` state. */
  datatype UserProfile = UserProfile(id: Id, name: string, email: Option<string>, role: string)

  /** A JavaScript `Date`: a valid instant, or the Invalid Date (time value NaN). */
  datatype Date = Instant(ms: int) | InvalidDate

  /** The access token counts as expired this many milliseconds early. */
  const AccessSkewMs: int := 30000

  /** The largest distance from the epoch, in milliseconds, a JavaScript `Date` can hold. */
  const MaxDateMs: int := 8640000000000000

  /** `new Date(ms).toISOString()` succeeds exactly for these instants; otherwise it throws a RangeError. */
  predicate Representable(ms: int) {
    -MaxDateMs <= ms <= MaxDateMs
  }

  /** The string already names its zone: it ends in `Z` or carries a `+` offset. */
  predicate HasZoneMarker(s: string) {
    EndsWith(s, "Z") || '+' in s
  }

  /**
   * The rewriting `parseUTCDate` applies before `new Date(...)`: a zone-less
   * string is made UTC by appending `Z`, and a string without `T` first has
   * its first space turned into `T`. Only `+` counts as an offset, so a
   * negative offset such as `-05:00` also receives a `Z`.
   */
  function NormalizeUTC(s: string): (r: string)
    ensures HasZoneMarker(r)
    ensures HasZoneMarker(s) ==> r == s
    ensures |r| <= |s| + 1
  {
    if !EndsWith(s, "Z") && '+' !in s && 'T' !in s then
      ReplaceFirst(s, ' ', 'T') + "Z"
    else if !EndsWith(s, "Z") && 'T' in s && '+' !in s then
      s + "Z"
    else
      s
  }

  /**
   * `parseUTCDate`: none for the empty string, otherwise the `Date` built from
   * the normalised text by `parse` (JavaScript's date parser, left
   * uninterpreted; `None` from it is the Invalid Date).
   */
  function ParseUTCDate(s: string, parse: string -> Option<int>): (r: Option<Date>)
    ensures r.None? <==> s == ""
    ensures r.Some? && r.value.Instant? ==> parse(NormalizeUTC(s)) == Some(r.value.ms)
  {
    if s == "" then None
    else
      match parse(NormalizeUTC(s))
      case Some(ms) => Some(Instant(ms))
      case None => Some(InvalidDate)
  }

  /** The `Date` an expiry field denotes; none exactly when the field is falsy (""). */
  function ExpiryDate(stamp: Stamp, parse: string -> Option<int>): (r: Option<Date>)
    ensures r.None? <==> stamp == Text("")
  {
    match stamp
    case IsoOf(ms) => Some(Instant(ms))
    case Text(s) => ParseUTCDate(s, parse)
  }

  /**
   * `now >= expiresAt - skew` as JavaScript evaluates it: a falsy field counts
   * as expired, and an Invalid Date makes the comparison false.
   */
  predicate ExpiredWithin(stamp: Stamp, skew: int, now: int, parse: string -> Option<int>) {
    match ExpiryDate(stamp, parse)
    case None => true
    case Some(InvalidDate) => false
    case Some(Instant(ms)) => now >= ms - skew
  }

  /** `isAccessTokenExpired` over the tokens `getTokens` returned. */
  predicate IsAccessTokenExpired(tokens: Option<Tokens>, now: int, parse: string -> Option<int>) {
    tokens.None? || ExpiredWithin(tokens.value.accessExpiresAt, AccessSkewMs, now, parse)
  }

  /** `isRefreshTokenExpired`: no skew. */
  predicate IsRefreshTokenExpired(tokens: Option<Tokens>, now: int, parse: string -> Option<int>) {
    tokens.None? || ExpiredWithin(tokens.value.refreshExpiresAt, 0, now, parse)
  }

  /** `isAuthenticated`: tokens are stored and the refresh token has not expired. */
  predicate IsAuthenticated(tokens: Option<Tokens>, now: int, parse: string -> Option<int>) {
    tokens.Some? && !IsRefreshTokenExpired(tokens, now, parse)
  }

  /** `tokens?.access_token || null` */
  function AccessTokenOf(tokens: Option<Tokens>): (r: Option<string>)
    ensures r.Some? <==> tokens.Some? && tokens.value.accessToken != ""
    ensures r.Some? ==> r.value == tokens.value.accessToken
  {
    if tokens.Some? && tokens.value.accessToken != "" then Some(tokens.value.accessToken) else None
  }

  /** `tokens?.refresh_token || null` */
  function RefreshTokenOf(tokens: Option<Tokens>): (r: Option<string>)
    ensures r.Some? <==> tokens.Some? && tokens.value.refreshToken != ""
    ensures r.Some? ==> r.value == tokens.value.refreshToken
  {
    if tokens.Some? && tokens.value.refreshToken != "" then Some(tokens.value.refreshToken) else None
  }

  /** The tokens a slot yields to `getTokens`: none on the server or for unparseable text. */
  function TokensInSlot(isClient: bool, slot: Option<Stored>): (r: Option<Tokens>)
    ensures r.Some? <==> isClient && slot.Some? && slot.value.Json?
    ensures r.Some? ==> slot == Some(Json(r.value))
  {
    if isClient && slot.Some? && slot.value.Json? then Some(slot.value.tokens) else None
  }

  /**
   * The browser-side state the auth code shares: the token slot and the global
   * `userProfile` / `isLoadingProfile` states. On the server (`isClient`
   * false) the slot is never read or written.
   */
  class ClientState {
    const isClient: bool
    /** JavaScript's `new Date(string)` parser, left uninterpreted. */
    const parseInstant: string -> Option<int>
    var slot: Option<Stored>
    var userProfile: Option<UserProfile>
    var isLoadingProfile: Option<bool>

    constructor (isClient: bool, parseInstant: string -> Option<int>, slot: Option<Stored>)
      ensures this.isClient == isClient && this.slot == slot
      ensures userProfile == None && isLoadingProfile == None
    {
      this.isClient := isClient;
      this.parseInstant := parseInstant;
      this.slot := slot;
      userProfile := None;
      isLoadingProfile := None;
    }

    /** `getTokens`: what was last saved, or none (no slot, unparseable text, or server side). */
    function GetTokens(): (r: Option<Tokens>)
      reads this
      ensures r.Some? ==> isClient && slot == Some(Json(r.value))
      ensures isClient && slot.Some? && slot.value.Json? ==> r == Some(slot.value.tokens)
    {
      TokensInSlot(isClient, slot)
    }

    /** `getAccessToken` */
    function GetAccessToken(): (r: Option<string>)
      reads this
      ensures r.Some? ==> r.value != "" && GetTokens().Some? && GetTokens().value.accessToken == r.value
      ensures r.None? ==> GetTokens().None? || GetTokens().value.accessToken == ""
    {
      AccessTokenOf(GetTokens())
    }

    /** `getRefreshToken` */
    function GetRefreshToken(): (r: Option<string>)
      reads this
      ensures r.Some? ==> r.value != "" && GetTokens().Some? && GetTokens().value.refreshToken == r.value
      ensures r.None? ==> GetTokens().None? || GetTokens().value.refreshToken == ""
    {
      RefreshTokenOf(GetTokens())
    }

    /** `saveTokens`: overwrites the slot on the client; a no-op on the server. */
    method SaveTokens(t: Tokens)
      modifies this
      ensures slot == (if isClient then Some(Json(t)) else old(slot))
      ensures isClient ==> GetTokens() == Some(t)
      ensures userProfile == old(userProfile) && isLoadingProfile == old(isLoadingProfile)
    {
      if isClient {
        slot := Some(Json(t));
      }
    }

    /** `clearTokens`: empties the slot on the client. */
    method ClearTokens()
      modifies this
      ensures slot == (if isClient then None else old(slot))
      ensures GetTokens() == None
      ensures userProfile == old(userProfile) && isLoadingProfile == old(isLoadingProfile)
    {
      if isClient {
        slot := None;
      }
    }

    /**
     * `logout`: the remote sign-out is not modelled; afterwards the slot is
     * empty and, on the client, the profile state is null.
     */
    method Logout()
      modifies this
      ensures GetTokens() == None
      ensures slot == (if isClient then None else old(slot))
      ensures userProfile == (if isClient then None else old(userProfile))
      ensures isLoadingProfile == old(isLoadingProfile)
    {
      ClearTokens();
      if isClient {
        userProfile := None;
      }
    }
  }

  // ---------------------------------------------------------------------------
  // Properties of the timestamp normalisation and the expiry predicates
  // ---------------------------------------------------------------------------

  /** Normalising twice is normalising once. */
  lemma NormalizeIdempotent(s: string)
    ensures NormalizeUTC(NormalizeUTC(s)) == NormalizeUTC(s)
  {
  }

  /**
   * A `T` timestamp without a zone parses exactly like the same text with an
   * explicit `Z`: it is read as UTC, not local time.
   */
  lemma ZonelessIsUTC(s: string, parse: string -> Option<int>)
    requires 'T' in s && '+' !in s && !EndsWith(s, "Z")
    ensures NormalizeUTC(s) == s + "Z"
    ensures ParseUTCDate(s, parse) == ParseUTCDate(s + "Z", parse)
  {
    assert EndsWith(s + "Z", "Z") by {
      assert (s + "Z")[|s + "Z"| - 1..] == "Z";
    }
  }

  /**
   * A space-separated timestamp without `T`, `Z` or `+` has its first space
   * turned into `T` and is then read as UTC.
   */
  lemma SpaceSeparatedIsUTC(s: string, parse: string -> Option<int>)
    requires 'T' !in s && '+' !in s && !EndsWith(s, "Z") && ' ' in s
    ensures var i := IndexOf(s, ' ');
      NormalizeUTC(s) == s[..i] + "T" + s[i + 1..] + "Z"
  {
    var i := IndexOf(s, ' ');
    assert ReplaceFirst(s, ' ', 'T') == s[..i] + "T" + s[i + 1..];
  }

  /** The worked example for the `T` format: the zone marker `Z` is appended. */
  lemma NormalizeExampleT()
    ensures NormalizeUTC("2024-11-17T10:00:00") == "2024-11-17T10:00:00Z"
  {
    var a := "2024-11-17T10:00:00";
    assert a[10] == 'T';
    assert a[18] != 'Z';
    assert forall i :: 0 <= i < |a| ==> a[i] != '+';
    ZonelessIsUTC(a, _ => None);
  }

  lemma ReplaceFirstSpaceExample()
    ensures ReplaceFirst("2024-11-17 10:00:00", ' ', 'T') == "2024-11-17T10:00:00"
  {
    var joined := "2024-11-17" + "T" + "10:00:00";
    assert joined == "2024-11-17T10:00:00";
    var b := "2024-11-17 10:00:00";
    assert b[..10] == "2024-11-17" && b[10] == ' ' && b[11..] == "10:00:00";
    IndexOfIsFirst(b, ' ', 10);
  }

  lemma SpaceExampleHasNoZone()
    ensures var b := "2024-11-17 10:00:00";
      'T' !in b && '+' !in b && !EndsWith(b, "Z")
  {
    var b := "2024-11-17 10:00:00";
    assert forall i :: 0 <= i < |b| ==> b[i] in "0123456789-: ";
    assert b[18] != 'Z';
  }

  /** The space-separated format normalises to the same UTC text. */
  lemma NormalizeExampleSpace()
    ensures NormalizeUTC("2024-11-17 10:00:00") == "2024-11-17T10:00:00Z"
  {
    var b := "2024-11-17 10:00:00";
    calc {
      NormalizeUTC(b);
      { SpaceExampleHasNoZone(); NoZoneNoT(b); }
      ReplaceFirst(b, ' ', 'T') + "Z";
      { ReplaceFirstSpaceExample(); }
      "2024-11-17T10:00:00" + "Z";
    }
  }

  /** Without `T`, `Z` or `+`, normalisation turns the first space into `T` and appends `Z`. */
  lemma NoZoneNoT(s: string)
    requires 'T' !in s && '+' !in s && !EndsWith(s, "Z")
    ensures NormalizeUTC(s) == ReplaceFirst(s, ' ', 'T') + "Z"
  {
  }

  /** Only `+` is recognised as an offset: a negative offset still receives a `Z`. */
  lemma NormalizeExampleNegativeOffset()
    ensures NormalizeUTC("2024-11-17T10:00:00-05:00") == "2024-11-17T10:00:00-05:00Z"
  {
    var e := "2024-11-17T10:00:00-05:00";
    assert e[10] == 'T';
    assert e[24] != 'Z';
    assert forall i :: 0 <= i < |e| ==> e[i] != '+';
    ZonelessIsUTC(e, _ => None);
  }

  /**
   * With a valid expiry instant the access token is expired exactly from 30
   * seconds before that instant on; with an Invalid Date it never is.
   */
  lemma AccessExpiryRule(t: Tokens, now: int, parse: string -> Option<int>)
    requires ExpiryDate(t.accessExpiresAt, parse).Some?
    ensures ExpiryDate(t.accessExpiresAt, parse) == Some(InvalidDate) ==>
      !IsAccessTokenExpired(Some(t), now, parse)
    ensures ExpiryDate(t.accessExpiresAt, parse).value.Instant? ==>
      (IsAccessTokenExpired(Some(t), now, parse) <==>
        now >= ExpiryDate(t.accessExpiresAt, parse).value.ms - 30000)
  {
  }

  /** The clock readings 31 s and 29 s before expiry, at expiry and 1 s after it. */
  lemma AccessSkewExamples(t: Tokens, ms: int, parse: string -> Option<int>)
    requires t.accessExpiresAt == IsoOf(ms)
    ensures !IsAccessTokenExpired(Some(t), ms - 31000, parse)
    ensures IsAccessTokenExpired(Some(t), ms - 29000, parse)
    ensures IsAccessTokenExpired(Some(t), ms, parse)
    ensures IsAccessTokenExpired(Some(t), ms + 1000, parse)
  {
  }

  /** The refresh token has no skew: expired exactly from its expiry instant on. */
  lemma RefreshExpiryRule(t: Tokens, now: int, parse: string -> Option<int>)
    requires ExpiryDate(t.refreshExpiresAt, parse).Some?
    ensures ExpiryDate(t.refreshExpiresAt, parse) == Some(InvalidDate) ==>
      !IsRefreshTokenExpired(Some(t), now, parse)
    ensures ExpiryDate(t.refreshExpiresAt, parse).value.Instant? ==>
      (IsRefreshTokenExpired(Some(t), now, parse) <==>
        now >= ExpiryDate(t.refreshExpiresAt, parse).value.ms)
  {
  }

  /** Once expired, always expired as the clock advances (both predicates). */
  lemma ExpiryMonotone(tokens: Option<Tokens>, now: int, later: int, parse: string -> Option<int>)
    requires now <= later
    ensures IsAccessTokenExpired(tokens, now, parse) ==> IsAccessTokenExpired(tokens, later, parse)
    ensures IsRefreshTokenExpired(tokens, now, parse) ==> IsRefreshTokenExpired(tokens, later, parse)
    ensures IsAuthenticated(tokens, later, parse) ==> IsAuthenticated(tokens, now, parse)
  {
  }

  /** Authenticated exactly when tokens are stored and the refresh token is still valid. */
  lemma AuthenticatedIff(tokens: Option<Tokens>, now: int, parse: string -> Option<int>)
    ensures IsAuthenticated(tokens, now, parse) <==>
      tokens.Some? &&
      match ExpiryDate(tokens.value.refreshExpiresAt, parse)
      case None => false
      case Some(InvalidDate) => true
      case Some(Instant(ms)) => now < ms
  {
  }
}
