# kiki-packaging client logic, modelled in Dafny

kiki-packaging is a Nuxt web application for a packaging business: staff keep a
catalogue of packaging products with stock levels, take orders, watch an
activity log and dashboard, and invite colleagues by email. Almost all of its
logic lives in client-side composables that talk to a Supabase backend. This
project models that logic in Dafny, with the backend tables held in memory, and
proves what the code promises.

The model is made up of:

- **Credential store and token lifecycle** (`auth.dfy`, `authrefresh.dfy`,
  `authsync.dfy`, `authclient.dfy`, `guard.dfy`). One durable slot holds the
  access/refresh pair (`Auth.ClientState`). Server timestamps without a zone are
  normalised to UTC. The access token expires 30 s early and the refresh token
  expires exactly on time. Failed refreshes clear the slot. The auth-event
  handler saves or clears the slot. A profile is restored on reload, and a
  route guard redirects between `/login` and the protected pages.
- **Authenticated request pipeline** (`api.dfy`). URL joining, query strings,
  headers and body choice are pure functions. `Api.Client.Request` consumes a
  sequence of network answers and follows the single-retry-on-401 rule: at
  most two fetches and one refresh per logical call.
- **Catalogue and orders** (`packaging.dfy`, `orders.dfy`). The product and
  order tables are `map` fields of a class. Stock adjustment reads and then
  writes, and never goes negative. SKUs are unique. Products are soft-deleted
  and reactivated. Orders are checked for stock and priced. Owners and admins
  have their own permission rules, and there is a visibility filter and a
  search over orders.
- **Client-side data structures** (`cart.dfy`, `csv.dfy`, `activity.dfy`,
  `dashboard.dfy`):
  - a cart kept as a sequence and changed in place;
  - a CSV writer that quotes fields as in section 2 of RFC 4180, with a
    reader that proves the round trip;
  - the activity log with its pagination window and counting loops;
  - the dashboard's status counts, top-product aggregation and low-stock
    alerts.
- **Invitations** (`invitations.dfy`, `invitationemail.dfy`). An invitation
  moves from pending to accepted. The send path never creates a second pending
  invitation for one address. There is expiry arithmetic, token validation, and
  the mail edge function's request checks, email pattern and invitation URL.

Shared modules used throughout:

- `Wrappers`: Option and Result.
- `Strings`: text helpers and ASCII case folding.
- `Sorting`: an insertion sort by an integer key, proved sorted and a
  permutation.
- `Counting`: tallies.

The conventions:

- Instants are integer milliseconds. A date string the client wrote itself
  is represented by the instant it renders (`IsoOf(ms)`). Any other string
  goes through an uninterpreted partial parser (`parse: string ->
  Option<int>`). A string the parser rejects is an Invalid Date: every
  comparison with it is false, so it never counts as expired.
- Prices are integers (cents), and ids are natural numbers.
- A backend query that can fail, where the code reports the failure, is
  either a nondeterministic choice inside the method or an explicit boolean
  parameter (`readFails`, `productReadFails`, `fetchFails`, …) where the
  contract speaks about the result. A failure the code ignores, such as an
  error on the SKU duplicate lookup, is always an explicit boolean
  parameter.
- The authentication provider, the mail provider and the network are
  oracle parameters.

Notes on `parseUTCDate` (app/composables/useAuth.ts:73-88):

- Only `+` is recognised as an offset. A string with a negative offset such
  as `2024-11-17T10:00:00-05:00` therefore gets a `Z` appended
  (`Auth.NormalizeExampleNegativeOffset`).
- The result of that case is left to the date parser. If the parser rejects
  it, the token never counts as expired.

## Model

| member | source | states |
|---|---|---|
| Activity.PageSize | app/composables/useActivityLogs.ts:121-123 | the page size is positive and equals the limit when one is given (`limit || 10`) |
| Activity.RangeBounds | app/composables/useActivityLogs.ts:121-123 | the inclusive window starts at the offset and spans exactly the page size |
| Activity.Paginate | app/composables/useActivityLogs.ts:117-123 | with an offset the page is a contiguous slice of at most one page starting at the offset, full whenever enough rows exist, non-empty whenever the offset is in range, and of length exactly the page size, the rows left after the offset, or 0 past the end; without one it is the first `limit` rows (all rows when no limit) |
| Activity.PaginateKeepsOrder | app/composables/useActivityLogs.ts:98-123 | a page of a newest-first list is newest first |
| Activity.Newest | app/composables/useActivityLogs.ts:92-115 | the result is sorted by descending creation time, is a permutation of exactly the records passing every given filter, and contains nothing else |
| Activity.ActivityLog.LogActivity | app/composables/useActivityLogs.ts:42-74 | without a profile it reports not-authenticated and writes nothing; on success exactly one record with the next id, the profile's user id, the entry and the clock reading is appended; on an insert failure nothing changes |
| Activity.ActivityLog.GetAllActivityLogs | app/composables/useActivityLogs.ts:79-137 | the data is the requested page of the newest-first matching records and the count is the number of all matching records, independent of the page |
| Activity.ActivityLog.GetMyActivityLogs | app/composables/useActivityLogs.ts:142-176 | without a profile it fails with "User not authenticated"; otherwise the page of the newest-first records whose user id is the caller's |
| Activity.MyLogsAreOwn | app/composables/useActivityLogs.ts:150-161 | every record on such a page belongs to the caller, comes from the log, and the page is newest first |
| Activity.ActivityLog.GetActivityStats | app/composables/useActivityLogs.ts:243-312 | on a failed query every count is zero and the maps are empty; otherwise the stats describe exactly the records inside the date bounds |
| Activity.CountBy | app/composables/useActivityLogs.ts:292-298 | the map holds exactly the keys that occur, each with its number of occurrences |
| Activity.Tally | app/composables/useActivityLogs.ts:282-300 | the total is the number of logs and the per-action and per-entity maps are the exact occurrence counts; the per-user list stays empty |
| Activity.ActionListedOnce | app/composables/useActivityLogs.ts:11-22 | every action value appears exactly once in the list of actions |
| Activity.EntityListedOnce | app/composables/useActivityLogs.ts:23 | every entity type appears exactly once in the list of entity types |
| Activity.StatsAddUp | app/composables/useActivityLogs.ts:285-298 | the per-action counts and the per-entity-type counts each sum to the total |
| Api.MakeConfig | app/composables/useApi.ts:24-27 | the base URL is never empty: the configured one when set, else the default; the token is the configured one or "" |
| Api.StripTrailingSlash | app/composables/useApi.ts:95 | exactly one trailing slash is removed when present, otherwise the text is unchanged |
| Api.JoinUrl | app/composables/useApi.ts:94-97 | the URL starts with the stripped base, has a slash right after it, and ends with the endpoint |
| Api.JoinUrlSingleSlash | app/composables/useApi.ts:94-97 | base and endpoint meet at exactly one slash for all four combinations of trailing and leading slashes |
| Api.JoinUrlStripsOneSlash | app/composables/useApi.ts:95 | a base ending in two slashes keeps one of them |
| Api.Surviving | app/composables/useApi.ts:178-182 | the appended pairs are exactly the entries whose value is present, stringified; none survive iff every value is null |
| Api.QueryString | app/composables/useApi.ts:183 | the query string is empty iff there are no pairs |
| Api.WithQuery | app/composables/useApi.ts:176-187 | the URL is the endpoint unchanged iff no entry has a value; otherwise the endpoint, then `&` if it already has a `?` else `?`, then the query string |
| Api.QueryExample | app/composables/useApi.ts:176-187 | a concrete endpoint with a query gets `&page=2` and a null-only object leaves the URL alone |
| Api.RequestHeaders | app/composables/useApi.ts:99-117 | the headers are the caller's keys plus Authorization plus Content-Type unless the body is form data; caller headers win; otherwise Authorization is the bearer of the stored or configured token and Content-Type is JSON |
| Api.BuildRequest | app/composables/useApi.ts:94-123 | the fetch keeps the call's method and body, goes to the joined URL and carries the request headers |
| Api.StringifiedBody | app/composables/useApi.ts:208 | form data passes through as form data and absent data sends no body; any other data is sent as its JSON text |
| Api.GetCall | app/composables/useApi.ts:163-194 | a GET with the caller's headers; plain-object data goes to the query string, form data to the body |
| Api.GetSendsQuery | app/composables/useApi.ts:163-194 | a GET of plain-object data sends no body and its URL carries the query |
| Api.PostCall | app/composables/useApi.ts:199-221 | a POST to the endpoint with the stringified body and a JSON Content-Type unless the data is a form |
| Api.PostBodyAndContentType | app/composables/useApi.ts:199-221 | the request carries a JSON Content-Type exactly when the body is not a form, unless the caller set one |
| Api.PostFormCall | app/composables/useApi.ts:226-232 | `postForm` is `post` of the form, sending it as the body |
| Api.PutCall | app/composables/useApi.ts:237-275 | a PUT whose URL carries the query parameters and whose body is stringified as for `post` |
| Api.PutBodyAndContentType | app/composables/useApi.ts:237-275 | as for `post`: JSON Content-Type exactly for non-form bodies unless the caller set one |
| Api.PatchCall | app/composables/useApi.ts:280-290 | a PATCH with the caller's headers whose body is never form data |
| Api.PatchIsJson | app/composables/useApi.ts:280-290 | a PATCH always declares JSON, even when handed form data |
| Api.DeleteCall | app/composables/useApi.ts:295-319 | a DELETE keeping the caller's body and headers, with the query parameters in the URL |
| Api.Field | app/composables/useApi.ts:140-146 | a missing JSON field reads as "" |
| Api.ErrorMessage | app/composables/useApi.ts:139-149 | the message is the body's `message` when it is a non-empty field of a JSON body, otherwise the fallback |
| Api.Interpret | app/composables/useApi.ts:144-157 | a rejected fetch is a network error; an ok JSON answer succeeds with its fields; a non-ok answer throws its message or `<prefix>: <status> <statusText>`; an ok answer that is not JSON throws a parse error |
| Api.ApiErrorMessage | app/composables/useApi.ts:145-149 | concrete non-ok answers without a message read `API Error: 401 …` and `Upload Error: 500 …` (the upload repeats the rule at lines 354-356) |
| Api.AuthFailureMessage | app/composables/useApi.ts:139-140 | a failed refresh surfaces the body's message, or "Authentication failed. Please login again." |
| Api.TokensFromJson | app/composables/useApi.ts:67-71 | the stored record takes the access and refresh tokens from the response fields |
| Api.Remaining | app/composables/useApi.ts:120-123 | one fetch consumes exactly one pending outcome |
| Api.TokenRequest | app/composables/useApi.ts:50-59 | the refresh is a GET without a body whose only header is `Bearer <refresh token>` |
| Api.TokenRequestUrl | app/composables/useApi.ts:50-51 | the refresh goes to the base joined with `/api/v1/auth/token` |
| Api.RefreshOutcomes | app/composables/useApi.ts:33-81 | without a refresh token nothing happens; an expired one is cleared without a fetch; otherwise one GET is sent, a granted access token is stored and reported, an ok answer without one leaves the slot and reports failure, and every other answer clears the slot |
| Api.RequestTrace | app/composables/useApi.ts:119-142 | the fetches of one call are the request, then the refresh exactly on a first-attempt 401 with a usable refresh token, then the retry exactly when that refresh granted a token |
| Api.TraceAfter401 | app/composables/useApi.ts:126-136 | after a first-attempt 401 the fetches are the request, the refresh's own fetches and, exactly when the refresh succeeded, the retry carrying the access token it stored |
| Api.RequestFetchBound | app/composables/useApi.ts:126-135 | one logical call makes at most three fetches, at most two of them to the endpoint (no retry loop) |
| Api.RequestResult | app/composables/useApi.ts:125-157 | without a first-attempt 401 the answer is interpreted directly; a 401 whose refresh fails throws the authentication error; after a refresh the retry's answer is interpreted, a second 401 being an ordinary API error |
| Api.RetryCarriesNewToken | app/composables/useApi.ts:130-135 | after a successful refresh the retry carries the new access token, unless the caller set Authorization |
| Api.UploadRequest | app/composables/useApi.ts:329-350 | the upload is one POST of the form to the base URL joined with the endpoint; its headers are the caller's plus Authorization, the caller's values win, and without a caller Authorization it is the stored access token's bearer, or the configured token's |
| Api.UploadShape | app/composables/useApi.ts:338-357 | an upload adds no Content-Type of its own and reports a non-ok answer as an upload error |
| Api.UploadHeadersAsRequest | app/composables/useApi.ts:335-342 | `upload` sends exactly the headers `request` would send for a form body: the bearer, overridden by the caller's headers, and no Content-Type |
| Api.Network.Fetch | app/composables/useApi.ts:120-123 | a fetch returns the next pending outcome, consumes it and logs the request |
| Api.Client.constructor | app/composables/useApi.ts:19-27 | the client's configuration is the configured one with its fallbacks |
| Api.Client.RefreshAccessToken | app/composables/useApi.ts:33-81 | the answer, the new slot, the outcomes left and the requests sent are those of the refresh model; the profile state is untouched |
| Api.Client.Request | app/composables/useApi.ts:89-158 | the result, the new slot, the outcomes left and the requests sent are those of the request model; the profile state is untouched |
| Api.Client.RetryAfterRefresh | app/composables/useApi.ts:126-142 | after a 401 the refresh runs; when it succeeds the retry's result, slot, outcomes and request follow the refresh's, otherwise the call fails with the authentication error and only the refresh's effects remain |
| Api.Client.Upload | app/composables/useApi.ts:324-364 | exactly one request is sent, one outcome consumed, the result is it interpreted with the upload prefix, and the slot is untouched |
| Auth.NormalizeUTC | app/composables/useAuth.ts:76-85 | the rewritten text always names a zone (`Z` or `+`), text that already did is unchanged, and at most one character is added |
| Auth.ParseUTCDate | app/composables/useAuth.ts:73-88 | no date exactly for the empty string; a valid date is what the parser gives for the normalised text |
| Auth.ExpiryDate | app/composables/useAuth.ts:96-100 | an expiry field yields no date exactly when it is empty |
| Auth.AccessTokenOf | app/composables/useAuth.ts:54-57 | `tokens?.access_token \|\| null`: present exactly when tokens are stored with a non-empty access token, and then that token |
| Auth.RefreshTokenOf | app/composables/useAuth.ts:63-66 | present exactly when tokens are stored with a non-empty refresh token, and then that token |
| Auth.TokensInSlot | app/composables/useAuth.ts:36-48 | tokens are read exactly on the client from a slot holding parseable JSON, and they are what that slot holds |
| Auth.ClientState.constructor | app/composables/useAuth.ts:16-20 | a store starts with the given slot and with no profile and no loading flag |
| Auth.ClientState.GetTokens | app/composables/useAuth.ts:36-48 | the tokens returned are exactly the saved record, and only on the client |
| Auth.ClientState.GetAccessToken | app/composables/useAuth.ts:54-57 | a returned access token is non-empty and is the stored one; none means nothing stored or an empty token |
| Auth.ClientState.GetRefreshToken | app/composables/useAuth.ts:63-66 | a returned refresh token is non-empty and is the stored one; none means nothing stored or an empty token |
| Auth.ClientState.SaveTokens | app/composables/useAuth.ts:26-30 | on the client the slot then holds exactly the given tokens and reading it back gives them; on the server nothing changes; the profile state is untouched |
| Auth.ClientState.ClearTokens | app/composables/useAuth.ts:146-150 | on the client the slot is emptied; afterwards no tokens can be read; the profile state is untouched |
| Auth.ClientState.Logout | app/composables/useAuth.ts:155-168 | afterwards no tokens can be read and, on the client, the profile is null |
| Auth.NormalizeIdempotent | app/composables/useAuth.ts:78-85 | normalising a normalised timestamp changes nothing |
| Auth.ZonelessIsUTC | app/composables/useAuth.ts:82-85 | a `T` timestamp without a zone gets `Z` appended and parses exactly like the same text written with `Z` |
| Auth.SpaceSeparatedIsUTC | app/composables/useAuth.ts:79-81 | a space-separated timestamp has its first space replaced by `T` and `Z` appended |
| Auth.NormalizeExampleT | app/composables/useAuth.ts:82-84 | `2024-11-17T10:00:00` becomes `2024-11-17T10:00:00Z` |
| Auth.ReplaceFirstSpaceExample | app/composables/useAuth.ts:81 | `replace(" ", "T")` turns `2024-11-17 10:00:00` into `2024-11-17T10:00:00` |
| Auth.SpaceExampleHasNoZone | app/composables/useAuth.ts:79-80 | the space-separated example has no `T`, no `+` and no trailing `Z`, so it takes the first branch |
| Auth.NormalizeExampleSpace | app/composables/useAuth.ts:79-81 | `2024-11-17 10:00:00` becomes `2024-11-17T10:00:00Z` |
| Auth.NormalizeExampleNegativeOffset | app/composables/useAuth.ts:82-85 | only `+` counts as an offset: `…T10:00:00-05:00` gets a `Z` appended after the offset |
| Auth.AccessExpiryRule | app/composables/useAuth.ts:94-108 | with a valid expiry instant the access token is expired exactly from 30 seconds before it; an unparseable date never counts as expired |
| Auth.AccessSkewExamples | app/composables/useAuth.ts:106-107 | 31 s before expiry the access token is live; 29 s before, at expiry and after it, it is expired |
| Auth.RefreshExpiryRule | app/composables/useAuth.ts:114-127 | the refresh token is expired exactly from its expiry instant on, with no skew; an unparseable date never counts as expired |
| Auth.ExpiryMonotone | app/composables/useAuth.ts:94-141 | once expired, a token stays expired as the clock advances, and a user not authenticated now is not authenticated later |
| Auth.AuthenticatedIff | app/composables/useAuth.ts:133-141 | authenticated exactly when tokens are stored and the refresh expiry is an unparseable date or lies in the future |
| ProfileRestore.DisplayName | app/plugins/auth.client.ts:41 | the name is never empty: the profile name if set, else the email's part before `@` if non-empty, else "User" |
| ProfileRestore.RoleOf | app/plugins/auth.client.ts:43 | the role is never empty: the stored role if set, else "staff" |
| ProfileRestore.RestoreOutcome | app/plugins/auth.client.ts:19-54 | a cleared slot comes with no profile; a profile is set only for a session user with a profile row, carries that user's id and email and a non-empty name and role; a session without a user changes nothing |
| ProfileRestore.RestoreProfile | app/plugins/auth.client.ts:6-60 | on the server nothing changes; on the client the loading flag is initialised to `isAuthenticated()`, and the restore runs only when authenticated with no profile, then clears or sets the profile as the outcome says and ends with loading false |
| ProfileRestore.RestoreFailClosed | app/plugins/auth.client.ts:45-54 | the slot is cleared exactly when a remote call throws or the profile query fails for a session user; a profile is set exactly when that query yields a row |
| ProfileRestore.LocalPartExample | app/plugins/auth.client.ts:41 | `somchai@example.com` splits at `@` into `somchai` |
| ProfileRestore.NameFromEmailExample | app/plugins/auth.client.ts:41 | with no profile name the email's local part is the display name |
| ProfileRestore.DefaultNameExamples | app/plugins/auth.client.ts:41 | an empty local part or no email gives "User" |
| ProfileRestore.ProfileFieldsWin | app/plugins/auth.client.ts:41-43 | a stored name wins over the email; an empty role becomes "staff" and a set one is kept |
| AuthRefresh.RefreshCall | app/composables/useAuthRefresh.ts:39-43 | the refresh is a GET of `/api/v1/auth/token` without a body whose headers are exactly `Authorization: Bearer <refresh token>` |
| AuthRefresh.RefreshAccessToken | app/composables/useAuthRefresh.ts:22-57 | the tokens returned, the new slot, the network outcomes consumed and the fetches sent are those of the refresh model; the profile is untouched |
| AuthRefresh.EnsureValidToken | app/composables/useAuthRefresh.ts:63-71 | the token returned, the new slot and the fetches sent are those of the model of `ensureValidToken`; the profile state is untouched |
| AuthRefresh.RenewOutcomes | app/composables/useAuthRefresh.ts:22-57 | no refresh token changes nothing; an expired one is cleared with no request; a thrown request clears the slot; returned tokens carry an access token and are the ones then stored |
| AuthRefresh.RenewSendsRefreshToken | app/composables/useAuthRefresh.ts:39-43 | the first fetch goes to the token endpoint with the refresh token, not the stored access token, as bearer |
| AuthRefresh.RenewOn401AsksTwice | app/composables/useAuthRefresh.ts:39-43 | a 401 from the token endpoint makes the client's own refresh ask the same URL with the same bearer a second time |
| AuthRefresh.RenewSendsTrace | app/composables/useAuthRefresh.ts:39-43 | with a stored, unexpired refresh token the fetches of the refresh are exactly those of its one `get` |
| AuthRefresh.RefreshCallRequest | app/composables/useAuthRefresh.ts:39-43 | that `get` goes to the token endpoint and its Authorization header is the bearer refresh token, the caller's header overriding the client's |
| AuthRefresh.EnsureValidTokenCases | app/composables/useAuthRefresh.ts:63-71 | a live access token is returned as stored with no request; an expired one is replaced by the refreshed access token, or none when the refresh fails |
| AuthSync.SessionTokens | app/plugins/auth-sync.client.ts:12-19 | a record is saved exactly when the session expiry exists and both instants are representable dates; it carries the session's access token, refresh token and token type |
| AuthSync.Router.constructor | app/plugins/auth-sync.client.ts:4 | the router starts at the given path with no navigations |
| AuthSync.Router.Push | app/plugins/auth-sync.client.ts:25 | the router moves to the target and records exactly that one navigation |
| AuthSync.OnAuthStateChange | app/plugins/auth-sync.client.ts:6-28 | sign-in and token refresh save the session's record (when it can be built) and do not navigate; sign-out empties the slot and navigates to `/login` once, unless already there; other events change nothing; the profile state is untouched |
| AuthSync.SavedSessionLifetime | app/plugins/auth-sync.client.ts:14-17 | a session saved at time t keeps the user authenticated exactly until t + 7 days, and its access token counts as expired from 30 s before the session's expiry |
| RouteGuard.Guard | app/middleware/auth.global.ts:6-27 | nothing on the server; `/login` exactly for an unauthenticated visit to a non-public path; `/dashboard` exactly for an authenticated visit to `/login`; a redirect never targets the current path |
| RouteGuard.GuardFor | app/middleware/auth.global.ts:10-26 | a redirect happens only on the client and never to the current path; `/login` only when not authenticated, `/dashboard` only when authenticated |
| RouteGuard.PublicPrefixes | app/middleware/auth.global.ts:13-16 | every path starting with `/login` is public, `/loginfoo` included; `/dashboard`, `/` and `/log` are not |
| RouteGuard.RedirectSettles | app/middleware/auth.global.ts:18-26 | the page a redirect lands on passes the guard under the same authentication, so redirects never loop |
| Catalogue.OrNull | app/composables/usePackaging.ts:134-140 | `value \|\| null`: null exactly for the empty string, otherwise the value |
| Catalogue.NewRow | app/composables/usePackaging.ts:132-142 | the inserted row carries the supplied name, SKU, unit, price and stock; empty optional texts become null; it is active unless `is_active` was given as false; both timestamps are the clock reading |
| Catalogue.ApplyPatch | app/composables/usePackaging.ts:191-198 | each of the nine updatable fields takes the supplied value when one is given and keeps the row's otherwise; the id and creation time never change and `updated_at` is the clock reading |
| Catalogue.RowsBelow | app/composables/usePackaging.ts:60-63 | the listed rows all come from the table and every row with an id below the bound is listed |
| Catalogue.AdjustedQuantity | app/composables/usePackaging.ts:371-376 | the adjustment succeeds exactly when the new quantity is not negative, and then gives stock + adjustment; otherwise it fails with "Insufficient stock" |
| Catalogue.CategoriesOf | app/composables/usePackaging.ts:321-324 | a value is listed exactly when some row has it as its (non-null) category |
| Catalogue.FirstSeen | app/composables/usePackaging.ts:328 | `[...new Set(xs)]` keeps exactly the values of `xs`, each once |
| Catalogue.Catalogue.constructor | app/composables/usePackaging.ts:45-49 | an empty product table attached to the given activity log |
| Catalogue.Catalogue.CreatePackaging | app/composables/usePackaging.ts:116-169 | "SKU already exists" exactly when the lookup answers and another row has that SKU; on an error nothing is inserted or logged; on success exactly the new row is inserted under the next id and one create entry with the SKU, price and stock is logged; SKUs stay unique when the duplicate lookup answers (the code ignores a failed lookup and inserts anyway, so a duplicate SKU can then enter the table) |
| Catalogue.Catalogue.UpdatePackaging | app/composables/usePackaging.ts:174-224 | "SKU already exists" exactly for a non-empty supplied SKU held by another row; a missing row errs; on an error nothing changes; on success only that row is replaced by the patched row and an update entry is logged whose details (`Catalogue.PatchDetails`) hold every supplied field; SKUs stay unique when a SKU is supplied non-empty and the duplicate lookup answers (a failed lookup is ignored by the code) |
| Catalogue.PatchDetails | app/composables/usePackaging.ts:212-214 | the logged `changes` hold exactly the supplied fields of the update, each under its column name with its value as JSON text (numbers as decimals, `is_active` as "true"/"false"), and no other key |
| Catalogue.Catalogue.LoggedName | app/composables/usePackaging.ts:232-250 | the logged name is never empty: the product's name when it can be read and is non-empty, and "Unknown Product" exactly otherwise |
| Catalogue.Catalogue.DeletePackaging | app/composables/usePackaging.ts:229-260 | a soft delete: no row is removed; on success the table is the old one with only the target's `is_active` set to false and its `updated_at` set to now, and a delete entry with the product's name is logged; on an error nothing changes |
| Catalogue.Catalogue.ReactivatePackaging | app/composables/usePackaging.ts:283-314 | no row is added or removed; on success the table is the old one with only the target's `is_active` set to true and its `updated_at` set to now, and a reactivate entry is logged; on an error nothing changes |
| Catalogue.Catalogue.PermanentlyDeletePackaging | app/composables/usePackaging.ts:265-278 | on success exactly the target row is removed; nothing is logged; on an error nothing changes |
| Catalogue.Catalogue.AdjustStock | app/composables/usePackaging.ts:360-395 | a missing row errs; "Insufficient stock" exactly when the result would be negative; on success only that row's stock becomes stock + adjustment; no stock ever goes negative |
| Catalogue.Catalogue.GetAllPackaging | app/composables/usePackaging.ts:54-90 | a failed query answers the error and no rows; otherwise newest first, and a product is listed exactly when it is in the table and passes the active, search (name or SKU, ignoring case) and category filters |
| Catalogue.Catalogue.GetCategories | app/composables/usePackaging.ts:319-334 | a failed query answers the error; otherwise each category appears once, and a value is listed exactly when it is non-empty and some product has it |
| Catalogue.Catalogue.GetLowStockProducts | app/composables/usePackaging.ts:339-355 | a failed query answers the error; otherwise sorted by ascending stock, and a product is listed exactly when it is in the table, active and below the threshold |
| Catalogue.FilterKeepsDistinct | app/composables/usePackaging.ts:328 | dropping empty categories from a repeat-free list leaves it repeat-free |
| Catalogue.AdjustRoundTrip | app/composables/usePackaging.ts:371-376 | a successful adjustment undone by the opposite one restores the stock |
| Catalogue.ApplyPatchIdempotent | app/composables/usePackaging.ts:191-198 | applying the same update twice is applying it once |
| Catalogue.EmptyPatchTouchesOnlyUpdatedAt | app/composables/usePackaging.ts:191-194 | an update that supplies no field changes only `updated_at` |
| Orders.OrderName | app/composables/useOrders.ts:220 | the logged name is never empty: the product's name when it can be read and is non-empty, and "Order" exactly otherwise |
| Orders.Reprice | app/composables/useOrders.ts:273-285 | the corrected recomputation never yields NaN; a new price is the unit price of the order's product after the update times its quantity after the update; an update supplying neither product nor quantity keeps the price; one supplying either is repriced exactly when the lookup answers and the order's product is in the table, and a failed lookup keeps the price |
| Orders.ApplyOrderPatch | app/composables/useOrders.ts:268-284 | supplied product, quantity, status and notes replace the row's, absent ones are kept; the id, owner and creation time never change; `updated_at` is the clock reading; the price is the recomputed one when there is one |
| Orders.StatusAction | app/composables/useOrders.ts:402 | the action is "cancel" exactly for the cancelled status, and "status_change" otherwise |
| Orders.OrderBook.constructor | app/composables/useOrders.ts:30-36 | an empty order table over the given product table and activity log |
| Orders.OrderBook.CreateOrder | app/composables/useOrders.ts:162-235 | no profile gives "User not authenticated" and logs nothing; a failed product read or a missing product gives the database error; "Insufficient stock" exactly when the product is read and its stock is below the quantity; on success exactly one pending order, owned by the caller and priced at unit price × quantity, is inserted under the next id and a create entry is logged; product stock is never changed |
| Orders.OrderBook.UpdateOrder | app/composables/useOrders.ts:240-330 | "Order not found" exactly when the row cannot be read; "Access denied" exactly for a caller who is neither owner nor admin; "Cannot edit non-pending order" exactly for a non-admin owner of a non-pending order; on an error nothing changes; on success only that row is replaced by the patched and repriced row and an update entry is logged |
| Orders.OrderBook.DeleteOrder | app/composables/useOrders.ts:335-371 | a non-admin gets "Admin access required"; on an error nothing changes; on success exactly that order is removed, a delete entry under the product's name is logged and no stock changes |
| Orders.OrderBook.UpdateOrderStatus | app/composables/useOrders.ts:376-419 | any status may follow any other with no permission check; on success only the status and `updated_at` of that order change and a cancel or status-change entry with the old and new status is logged; on an error nothing changes |
| Orders.OrderBook.CancelOrder | app/composables/useOrders.ts:424-426 | cancelling is setting the status to cancelled, with a cancel entry logged |
| Orders.OrderBook.GetOrderById | app/composables/useOrders.ts:117-157 | the order is returned exactly when the read answers, the order exists and the caller owns it or is an admin; a failed read or a missing order gives the database error; an existing order of someone else gives "Access denied" to a non-admin |
| Orders.OrderBook.GetAllOrders | app/composables/useOrders.ts:41-112 | a failed query answers the error; otherwise newest first, and an order is listed exactly when it is in the table, passes the status, user and date filters (admins see all, others their own unless a user id is given) and the case-insensitive search over product name, SKU, user name and notes |
| Orders.PermissionRules | app/composables/useOrders.ts:254-266 | whoever may edit may read; an admin may read and edit any order; a non-admin may edit exactly their own pending orders; a caller without a profile may read nothing |
| Orders.ByIdAgreesWithList | app/composables/useOrders.ts:145-149 | `getOrderById` grants exactly the orders the unfiltered `getAllOrders` shows the same caller |
| Orders.RepricedTotalMatchesRow | app/composables/useOrders.ts:273-285 | after a corrected update that reprices, the stored price is the unit price of the stored product times the stored quantity |
| Orders.RepriceAgreesWhenBothSupplied | app/composables/useOrders.ts:274-284 | when a product and a non-zero quantity are both supplied, the code as written and the corrected recomputation agree |
| Orders.ProductOnlyUpdateGivesNaN | app/composables/useOrders.ts:243-284 | as written, an update supplying only a product prices the order at NaN (sent as `null` in the JSON body); corrected, at the unit price times the kept quantity |
| Orders.QuantityOnlyUpdateKeepsStalePrice | app/composables/useOrders.ts:275-282 | as written, an update supplying only a quantity keeps the old price; corrected, it is repriced |
| Orders.ZeroQuantityUpdate | app/composables/useOrders.ts:274-284 | a supplied quantity of 0 is falsy in the code, so the price is kept while the stored quantity becomes 0; the corrected recomputation prices the order at 0, matching the stored quantity |
| Cart.FindIndex | app/composables/useCart.ts:45 | `findIndex`: -1 exactly when no item is for the product, otherwise the index of the first item that is |
| Cart.Cart.constructor | app/composables/useCart.ts:16 | the cart starts empty |
| Cart.Cart.AddToCart | app/composables/useCart.ts:23-39 | the cart becomes the added-to cart: the held item gains one, or a new item of quantity 1 at the product's unit price is appended; the item count rises by exactly one; at most one item per product is kept |
| Cart.Cart.RemoveFromCart | app/composables/useCart.ts:44-49 | the first item for the product is spliced out; in a cart with one item per product, none for it is left |
| Cart.Cart.UpdateQuantity | app/composables/useCart.ts:54-63 | the cart becomes the updated cart, and at most one item per product is kept |
| Cart.Cart.ClearCart | app/composables/useCart.ts:68-70 | the cart is empty and both totals are zero |
| Cart.AddedTotals | app/composables/useCart.ts:23-84 | adding raises `totalItems` by exactly one; for a held product the length stays, that item's quantity rises by one and `total` grows by its captured price; for a new one an item of quantity 1 is appended and `total` grows by the unit price |
| Cart.AddedKeepsDistinct | app/composables/useCart.ts:24-37 | adding keeps at most one item per product, and afterwards the cart holds the product |
| Cart.RemovedProperties | app/composables/useCart.ts:44-49 | removing an absent product changes nothing; otherwise the other items keep their order; with one item per product, none for it is left |
| Cart.SpliceShape | app/composables/useCart.ts:47 | `splice(index, 1)` shortens the list by one and shifts the later items down by one |
| Cart.SpliceDistinct | app/composables/useCart.ts:47 | splicing out an item of a cart with one item per product leaves no item for that product |
| Cart.WithQuantityProperties | app/composables/useCart.ts:54-63 | an absent product changes nothing; a quantity of zero or less removes the item; a positive one replaces only that item's quantity; one item per product is kept |
| Csv.DoubleQuotes | app/composables/useCSVExport.ts:26 | text without a double quote is unchanged |
| Csv.Escape | app/composables/useCSVExport.ts:20-28 | a value without a comma, double quote or line break is written as is; any other value is enclosed in double quotes |
| Csv.RowValues | app/composables/useCSVExport.ts:18-22 | one value per header, in header order; null and undefined become "" |
| Csv.EscapeAll | app/composables/useCSVExport.ts:19-29 | every value is escaped, in order |
| Csv.Lines | app/composables/useCSVExport.ts:17-31 | one line per record, each the record's escaped fields joined by commas |
| Csv.ArrayToCSV | app/composables/useCSVExport.ts:10-34 | no rows give ""; otherwise the text starts with the header row |
| Csv.QuotedRoundTrip | app/composables/useCSVExport.ts:26 | a value with its quotes doubled, then a closing quote, reads back as the value (RFC 4180, section 2, rule 7) |
| Csv.UnquotedRoundTrip | app/composables/useCSVExport.ts:28 | a value without comma or line break reads back unquoted |
| Csv.FieldRoundTrip | app/composables/useCSVExport.ts:20-28 | every escaped value reads back as itself |
| Csv.RecordRoundTrip | app/composables/useCSVExport.ts:17-30 | every line reads back as its record of values |
| Csv.DocumentRoundTrip | app/composables/useCSVExport.ts:33 | records joined by line breaks read back as the same records |
| Csv.ArrayToCSVRoundTrip | app/composables/useCSVExport.ts:10-34 | the CSV of non-empty data reads back as the header row followed by each row's values in header order, whatever the values contain |
| Csv.CollapseDoubled | app/composables/useCSVExport.ts:26 | collapsing doubled quotes undoes the doubling |
| Csv.EscapeRoundTrip | app/composables/useCSVExport.ts:20-28 | unescaping an escaped value gives the value back |
| Csv.JoinStartsWithFirst | app/composables/useCSVExport.ts:14-33 | a non-empty list joined by a separator starts with its first part |
| Csv.ItemsText | app/composables/useCSVExport.ts:69-79 | with items, the column is the items' texts (`<name> x<qty>`, "Unknown" for a missing name) joined by "; "; without items, the legacy product as `<name> x<quantity or 1>`, else "No items" |
| Csv.ItemsTextSplits | app/composables/useCSVExport.ts:71-74 | when no product name holds a `;`, splitting the column at "; " gives back each item's text in order |
| Csv.ItemsTextTwoItems | app/composables/useCSVExport.ts:72-74 | two items, one without a product, give `Box x2; Unknown x3` |
| Csv.ItemsTextLegacyDefaultsToOne | app/composables/useCSVExport.ts:76 | a legacy product with a zero quantity is listed as ` x1` |
| Dashboard.FirstFailure | app/composables/useDashboard.ts:28-52 | no message exactly when every answer is a count; otherwise the message of the earliest failed answer |
| Dashboard.FirstFailureAt | app/composables/useDashboard.ts:135-141 | the first error met in asking order is the one that aborts |
| Dashboard.GetMetrics | app/composables/useDashboard.ts:21-67 | success exactly when all four counts answer; otherwise the first failure's message, in asking order; on success each metric is its count, with a null count read as 0 |
| Dashboard.NullCountsAreZero | app/composables/useDashboard.ts:57-60 | null counts become 0 and present ones are kept |
| Dashboard.Answers | app/composables/useDashboard.ts:132-139 | the four answers, asked in the order pending, processing, completed, cancelled |
| Dashboard.GetOrdersByStatus | app/composables/useDashboard.ts:130-150 | an error exactly when some count fails, carrying the first failure's message; otherwise the map filled status by status |
| Dashboard.StatusCountsComplete | app/composables/useDashboard.ts:132-143 | the chart data has exactly the keys pending, processing, completed and cancelled, each holding its count or 0 |
| Dashboard.FetchedLines | app/composables/useDashboard.ts:158-171 | the query fetches exactly `min(limit, number of orders)` rows, in non-increasing quantity: the row of each order `TopOrders` picks, in its order, so no order left out has a larger quantity than a fetched one |
| Dashboard.TopOrders | app/composables/useDashboard.ts:170-171 | `min(limit, number of orders)` orders in non-increasing quantity, taken from the stored orders without repetition (a sub-multiset), and every order left out has a quantity no larger than any order taken |
| Dashboard.GroupIndex | app/composables/useDashboard.ts:182 | `productMap.has`: -1 exactly when no entry is for the product, otherwise the position of the entry that is |
| Dashboard.GetTopProducts | app/composables/useDashboard.ts:155-203 | on success, the entries of the fold over the fetched rows, sorted by descending total and cut to `limit` |
| Dashboard.Fold | app/composables/useDashboard.ts:176-191 | the `forEach` with its id-keyed map yields the entries of the reference aggregation |
| Dashboard.UpdateKeepsIndexes | app/composables/useDashboard.ts:182-183 | adding to an existing entry keeps the id-to-position map exact |
| Dashboard.AppendKeepsIndexes | app/composables/useDashboard.ts:184-189 | a new entry is appended at the end and the map records it there |
| Dashboard.AppendIndex | app/composables/useDashboard.ts:185 | appending an entry for a new id puts that id at the end and moves no other |
| Dashboard.AddLineIds | app/composables/useDashboard.ts:178-191 | after one step the entries are for the previous products plus the row's |
| Dashboard.SameIdsSameIndex | app/composables/useDashboard.ts:183 | updating a total does not move any entry |
| Dashboard.AggregateDistinct | app/composables/useDashboard.ts:176-191 | one entry per product, and no more entries than rows |
| Dashboard.AggregateCovers | app/composables/useDashboard.ts:178-191 | an entry exists exactly for the products that have a fetched row |
| Dashboard.AggregateTotals | app/composables/useDashboard.ts:182-189 | each entry's total is the sum of its product's fetched quantities |
| Dashboard.NoLineSumsToZero | app/composables/useDashboard.ts:178-191 | a product without rows sums to zero |
| Dashboard.AggregateNames | app/composables/useDashboard.ts:180-189 | each entry keeps the name (or "Unknown") of the first row for its product |
| Dashboard.AggregateSum | app/composables/useDashboard.ts:176-191 | the totals of all entries add up to the sum of all fetched quantities |
| Dashboard.PermutationKeepsDistinct | app/composables/useDashboard.ts:194-195 | sorting the entries keeps one entry per product |
| Dashboard.TopProductsProperties | app/composables/useDashboard.ts:194-196 | at most `limit` entries, by non-increasing total, one per product, each holding its product's sum; with no more rows than `limit` every fetched product is listed |
| Dashboard.GetLowStockAlerts | app/composables/useDashboard.ts:108-125 | a failed query answers the error; otherwise at most five alerts, a prefix of the low-stock list, and that whole list when it has five or fewer entries |
| Dashboard.LowStockAlertsProperties | app/composables/useDashboard.ts:110-116 | the alerts are active products below the threshold, by ascending stock |
| InvitationEmail.InvitationUrl | supabase/functions/send-invitation-email/index.ts:65-66 | the link starts with `https://kiki-packaging.vercel.app/accept-invitation?token=` and what follows is exactly the token |
| InvitationEmail.CheckBody | supabase/functions/send-invitation-email/index.ts:52-66 | a body passes exactly when it parses, email, name and token are all non-empty and the email has the required form; a missing field gives "Missing required fields: email, name, or inviteToken"; a passing body yields the mail from the fixed sender with the fixed subject to that email, with that name and the token's link |
| InvitationEmail.ErrorResponse | supabase/functions/send-invitation-email/index.ts:134-145 | every thrown error becomes status 400 with `success: false`, the message and the JSON headers |
| InvitationEmail.Handle | supabase/functions/send-invitation-email/index.ts:17-146 | OPTIONS answers "ok" with the CORS headers and sends nothing; the status is 200 or 400 and is 400 exactly for a failure body; a missing Authorization header or an unknown caller fails without sending; a mail is sent exactly when every check passes, and it is the checked body's mail; the answer is a success exactly when a mail was sent and the provider accepted it, else "Failed to send email: …" |
| InvitationEmail.PlainSplit | supabase/functions/send-invitation-email/index.ts:59 | a text is free of whitespace and `@` exactly when both parts of any split are |
| InvitationEmail.FormatGivesPattern | supabase/functions/send-invitation-email/index.ts:59-60 | an email with one `@`, no whitespace, a non-empty local part and an inner `.` in the domain matches the pattern |
| InvitationEmail.PatternGivesFormat | supabase/functions/send-invitation-email/index.ts:59-60 | every match of the pattern has that form |
| InvitationEmail.EmailPatternIff | supabase/functions/send-invitation-email/index.ts:59-62 | `^[^\s@]+@[^\s@]+\.[^\s@]+$` accepts an email exactly when it has one `@`, no whitespace, a non-empty local part and a `.` that is neither the domain's first nor its last character |
| InvitationEmail.EmailAcceptedExample | supabase/functions/send-invitation-email/index.ts:59 | `a@b.co` is accepted |
| InvitationEmail.EmailDotExamples | supabase/functions/send-invitation-email/index.ts:59 | `a@b.` and `a@.b` are refused: the dot may not end or begin the domain |
| InvitationEmail.EmailAtExamples | supabase/functions/send-invitation-email/index.ts:59 | `@b.co` (empty local part) and `a@b@c.co` (two `@`) are refused |
| InvitationEmail.EmailSpaceExample | supabase/functions/send-invitation-email/index.ts:59 | `a b@c.co` is refused for its space |
| InvitationEmail.InvitationUrlRoundTrip | supabase/functions/send-invitation-email/index.ts:66 | two links are equal exactly when their tokens are, so the token can be read back from the link |
| InvitationEmail.WellFormedRequestSends | supabase/functions/send-invitation-email/index.ts:23-133 | an authorised request from a known caller with all fields and a well-formed email sends the mail to that address with the token's link, and answers 200 exactly when the provider accepts it |
| Invitations.PendingWithToken | app/composables/useInvitations.ts:74-79 | the query's rows are exactly the unaccepted invitations carrying the token, by ascending id |
| Invitations.ValidateToken | app/composables/useInvitations.ts:72-98 | valid exactly when the query answers with a single unaccepted row for the token whose expiry has not passed; "Invalid token" exactly when the query errs or does not give a single row; "Token expired" exactly for a single row whose expiry lies before now; a valid answer is that pending row |
| Invitations.Accepted | app/composables/useInvitations.ts:141-144 | marking accepted sets only that row's `accepted_at` to now and keeps every other row |
| Invitations.Resent | app/composables/useInvitations.ts:214-220 | a resend sets only that row's expiry, to seven days after now; an unknown id changes nothing |
| Invitations.AcceptedTokens | app/composables/useInvitations.ts:170-180 | a record is saved exactly when the session has an expiry whose instants are representable dates; it carries the session's tokens and token type |
| Invitations.PendingInvitations | app/composables/useInvitations.ts:236-259 | the unaccepted invitations and only those, newest first |
| Invitations.RowsOf | app/composables/useInvitations.ts:238-250 | every row with an id below the bound is read, and only rows of the table are |
| Invitations.InvitationBook.constructor | app/composables/useInvitations.ts:1-4 | empty invitation, account and profile tables over the given client store |
| Invitations.InvitationBook.Rows | app/composables/useInvitations.ts:238-250 | every stored invitation with an id below the next id is read, and nothing else is |
| Invitations.InvitationBook.SendInvitation | app/composables/useInvitations.ts:9-67 | without a session "User not authenticated"; "Invitation already exists" exactly when the query answers and an unaccepted invitation for the address exists; on an error nothing is inserted; on success exactly one row, from the caller, unaccepted, with the issued token and expiry, is inserted under the next id, whatever becomes of the mail; when the duplicate query answers, no address gains a second pending invitation (the code ignores a failed query and inserts anyway) |
| Invitations.InvitationBook.Validate | app/composables/useInvitations.ts:72-98 | a valid answer is a stored, unaccepted invitation with that token that has not expired |
| Invitations.InvitationBook.AcceptInvitation | app/composables/useInvitations.ts:103-189 | an invalid token changes nothing and returns the validation's error; a failed sign-up changes nothing; on success the account and profile row are created, the invitation is marked accepted, the profile state is set and the session's tokens are saved; afterwards the token no longer validates; no address gains a second pending invitation |
| Invitations.InvitationBook.AcceptPending | app/composables/useInvitations.ts:115-189 | once the one pending row with the token is found: a failed sign-up changes nothing; on success the account, profile row, acceptance and session are as in `acceptInvitation`, and the token no longer matches a pending row |
| Invitations.InvitationBook.Register | app/composables/useInvitations.ts:115-146 | sign-up, profile insert and accepted-at update in order: a failed sign-up changes nothing; on success the account and profile exist, the row is accepted at now and no pending row carries the token; no address gains a second pending invitation |
| Invitations.InvitationBook.CreateAccount | app/composables/useInvitations.ts:115-138 | a sign-up error or a missing user fails with its message or "User creation failed" and creates nothing; a created account stays even when the profile insert fails; on success the profile row has the invitation's name and role |
| Invitations.InvitationBook.MarkAccepted | app/composables/useInvitations.ts:141-146 | on success the row is marked accepted at now; on failure nothing changes |
| Invitations.InvitationBook.StartSession | app/composables/useInvitations.ts:149-180 | a sign-in error fails with its message and leaves the profile state; otherwise the profile state is the new user's and, when a session is returned, its tokens are the ones stored |
| Invitations.InvitationBook.ResendInvitation | app/composables/useInvitations.ts:212-231 | on success the table is the resent table; on failure nothing changes; no address gains a second pending invitation |
| Invitations.InvitationBook.RevokeInvitation | app/composables/useInvitations.ts:194-207 | on success exactly that row is deleted; on failure nothing changes |
| Invitations.InvitationBook.GetPendingInvitations | app/composables/useInvitations.ts:236-259 | a failed query answers the error; otherwise newest first, and exactly the stored unaccepted invitations |
| Invitations.DropMatch | app/composables/useInvitations.ts:76-78 | removing or accepting one row drops the number of rows matching a token by one exactly when that row matched |
| Invitations.AcceptedOnlyMatch | app/composables/useInvitations.ts:141-144 | once the only pending row for a token is accepted, no pending row carries it |
| Invitations.ResendKeepsPending | app/composables/useInvitations.ts:217-220 | a resend changes no row's accepted state or address |
| Invitations.ResendKeepsMatches | app/composables/useInvitations.ts:217-220 | a resend leaves the same rows matching every token |
| Invitations.ResendRenews | app/composables/useInvitations.ts:212-220 | after a resend the token validates again until seven days after the resend |
| Invitations.RevokedTokenInvalid | app/composables/useInvitations.ts:196 | after a revoke the invitation's token is "Invalid token" |
| Invitations.ExpiryBoundary | app/composables/useInvitations.ts:89 | at the expiry instant the token is still valid; one millisecond later it is expired |
| Invitations.UnparseableNeverExpires | app/composables/useInvitations.ts:86-89 | an expiry the date parser rejects never counts as passed |
| Invitations.AcceptedTokensLifetimes | app/composables/useInvitations.ts:173-177 | the refresh expiry is one day past the access expiry; the user stays authenticated until then, and the access token counts as expired from 30 s before the session's expiry |
| Invitations.AcceptKeepsAtMostOnePending | app/composables/useInvitations.ts:141-144 | marking an invitation accepted gives no address a second pending invitation |

## Left out

- Network and backend I/O: the Supabase client, `fetch` and the Resend mail call are replaced by oracle answers and in-memory tables.
  - Query builders (`eq`, `gte`, `ilike`, `order`, `limit`, `range`, `or`) get ideal filter and sort semantics.
  - The PostgREST `or` filter text is not parsed.
  - `ilike` wildcards in the search term are treated as literal characters.
- Case-insensitive search folds ASCII letters only, because Dafny strings have no Unicode case mapping.
- Toasts, i18n, `$toast` and `t(...)` calls, and the loading delay of 300 ms in the profile-restore plugin are user interface and timing.
- `downloadCSV`, `toFixed(2)` and `toLocaleString` are browser and locale formatting.
- The rest of the two CSV exporters is formatting: `exportPackagingToCSV`, and `exportActivityLogsToCSV` with its `JSON.stringify` details. The shared item-string rule is modelled (`Csv.ItemsText`).
- JSON encoding of the stored credential record is abstract. A blob that does not parse is an explicit `Unparseable` value.
- `URLSearchParams` percent-encoding is an uninterpreted `encode` function.
- `getOrderStats`, `getRecentActivity`, `getEntityActivityLogs` and `getPackagingById` are plain reads with no rule beyond the filters, which are modelled elsewhere.
- `supabase/functions/delete-user/index.ts` is a chain of remote admin calls and is not part of this model.
- `useValidation.ts` and `useDebouncedValidation.ts` are not part of this model. Their numeric bounds (price at least 0, stock at least 0, order quantity at least 1) are not imposed: the operations accept any integer, and only `Catalogue.AdjustRoundTrip` starts from a non-negative stock.
- A failed list query answers `Err` with the fixed database message. The empty `data` list the code returns beside the error is not a separate value.
- `getPendingInvitations` joins the inviter's profile. The join is not modelled, and the rows are returned as stored.
- The activity-log reads join the acting user's name, and the order reads join the user and the product. These joins are not modelled; rows are returned as stored. The order search reads the user and product names from `userNames` and the product table.
- The password given to `acceptInvitation` is passed to the auth provider, which is an oracle. No password is stored.
- The HTML body of the invitation email, the Deno environment lookup and the Resend API key are left out.
- The invite token and the default expiry of a new invitation are generated by the database. They come in as an `Issued` parameter.
- On the edge function:
  - the caller's identity (`getUser`) and the mail provider's answer are oracle parameters (`callerKnown`, `reply`);
  - a thrown value that is not an `Error` would give "Unknown error", but the model only throws messages.
  - InvitationEmail.Handle: a rejected `fetch` or a reply body that is not JSON throws before the `res.ok` test and answers 400 with that error's own message, without the "Failed to send email: " prefix. The `reply` parameter cannot express either case, and the model folds every provider failure into `!reply.ok`.
- Calendar arithmetic: `setDate(getDate() + 7)` works in local time and can shift across a daylight-saving change. It is modelled as exactly 7 × 86 400 000 ms.
- The clock is an integer. Dates outside the representable JavaScript range appear only where the code turns seconds into dates (`Invitations.AcceptedTokens`).
- Concurrency is left out (races between read-then-write steps, and overlapping refreshes); one sequential caller is modelled.
- Stock is not decremented when an order is created, and not restored on delete or cancel. Multi-item `order_items` rows are not handled. The code does none of these, so neither does the model.
- Catalogue.Catalogue.UpdatePackaging: SKU uniqueness is checked only when a non-empty SKU is supplied, as in the code. An update that passes the empty string bypasses the check, so the table-wide uniqueness invariant is stated for non-empty SKUs.
- Orders.Reprice: the corrected recomputation tests whether a quantity is supplied, not whether it is truthy. A supplied quantity of 0 therefore reprices at 0, and a product change with quantity 0 is priced with 0 rather than with the stored quantity, so the total always matches the stored row. The code's `data.quantity` truthiness is modelled in `Orders.RepriceAsWritten`, and `Orders.ZeroQuantityUpdate` exhibits the difference.
- Orders.OrderBook.UpdateOrder: implements the corrected repricing (`Orders.Reprice`) rather than the code as written. The as-written behaviour is modelled separately (see Findings).

## Findings

| source | as written | input that shows it | evidently intended | confidence | as-written member | corrected member |
|---|---|---|---|---|---|---|
| app/composables/useOrders.ts:243-285 | the existing order is fetched with only `user_id, status`, so the fallbacks `existingOrder.packaging_product_id` and `existingOrder.quantity` read undefined | an update that supplies only `packaging_product_id` sends a NaN total (serialised as `null` in the JSON body); one that supplies only `quantity` keeps the old price | reprice with the stored product and quantity as fallbacks, so the stored total matches the stored product and quantity | not executed | Orders.ProductOnlyUpdateGivesNaN | Orders.RepricedTotalMatchesRow |
