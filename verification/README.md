# TIDAL OAuth client and playlist helpers, in Dafny

This project models the server side of jennysongs, a playlist site that reads a user's TIDAL
playlist and tags each track with a time of day. It models:

- **TidalApiClient** (`netlify/functions/tidal/tidalClient.js`). This is an OAuth 2.0
  bearer-token client. Its state is `accessToken`, `refreshToken` and `tokenExpiry`. It uses the
  authorization-code grant with PKCE (section 4.1.3 of RFC 6749, section 4.3 of RFC 7636) and the
  refresh-token grant (section 6 of RFC 6749). Its retry engine retries a request as follows:
  - a 401 carrying sub-status 6004, or a message saying "token expired", gets a token refresh;
  - a 429 waits for the Retry-After seconds (section 10.2.3 of RFC 9110), or backs off;
  - four transport error codes and any 5xx response back off exponentially with jitter;
  - everything else surfaces to the caller.

  The catalog facade methods build the request paths and parameters.
- **The shared client instance** (`netlify/functions/tidal/index.js`). It adds
  `setTokensFromCookies`, `needsRefresh` and `setTokens`.
- **The playlist function** (`netlify/functions/get-playlist.js`) and its Express twin
  (`routes/playlist.js`). These cover:
  - cookie extraction;
  - the country-code fallback;
  - the paginated fetch (pages of 100 items, offset equal to the items collected so far);
  - track formatting;
  - the keyword time-of-day classifier;
  - each handler's decision table.
- **The OAuth playlist function** (`netlify/functions/get-playlist-oauth.js`). It covers the
  cookie parser, the song classifier with its duration rules, the cookie gate and the mapping
  of errors to statuses.
- **The client-credentials token cache** (`netlify/functions/auth-tidal.js`). It follows
  section 4.4 of RFC 6749 and keeps its token one minute short of the token's lifetime.
- **The OAuth callback** (`netlify/functions/tidal-callback.js`). It exchanges the code and
  serialises three Set-Cookie headers (section 4.1 of RFC 6265).
- **The Express auth routes** `/login`, `/callback`, `/logout` and `/status` (`routes/auth.js`).

The model replaces everything outside the code with inputs:

- **The network** is a finite script of outcomes. The catalog host and the token endpoint each
  have a script of `Attempt`s, and each attempt carries the jitter that `Math.random() * 1000`
  would have drawn. Each HTTP call consumes the next attempt. The playlist pages come from a
  script of page outcomes.
- **The clock** `Date.now()` is the integer parameter `now`, in milliseconds.
- **Random choices** are parameters: `coin(k)` stands for `Math.random() > 0.5` for the k-th
  song.
- **Encoders** are function parameters: `decodeURIComponent` and `encodeURIComponent`.

The model has these shapes:

- **Mutable state is imperative.** The client object is the class `TidalClient.TidalApiClient`.
  Its methods update its token fields and are proved equal to specification functions over
  `TokenState`. The module-level cache of `auth-tidal.js` is the class
  `AuthCache.TokenCache`. The two retry loops and the pagination loop are `while` loops with
  invariants.
- **Handlers are pure.** Each handler is a function from an abstract event to a response, plus
  the requests and cookie actions it issues.

The modules follow the source files:

- `Common`: JavaScript value semantics, i.e. truthiness, the string methods used, template
  rendering of integers and `parseInt`.
- `Forms`: the URL-encoded forms and queries.
- `ClientRetry`: the retry engine.
- `TidalClient`: the client and its specification functions.
- `ClientProperties`: what a request promises.
- `TidalSingleton`: `index.js`.
- `Playlist`, `PlaylistRoute`, `PlaylistOAuth`, `AuthCache`, `TidalCallback`, `AuthRoutes`: one
  module per remaining source file.

`Playlist.Track.previews` stands for `track.mediaMetadata.previews`.

## Model

| member | source | states |
|---|---|---|
| `Common.Split` | netlify/functions/get-playlist-oauth.js:7-8 | `split` gives at least one piece and no piece contains the separator |
| `Common.ParseIntRoundTrip` | routes/auth.js:122 | `parseInt` reads back exactly the integer a template string printed, negative numbers included |
| `Common.ParseInt` | routes/auth.js:122 | white space alone (any of JavaScript's white-space characters) is NaN; a negative result only comes from a '-' right after the white space |
| `Common.ParseIntReadsHex` | routes/auth.js:122 | without a radix, '0x' followed by hexadecimal digits is read in base 16 |
| `Common.ParseIntMinus` | routes/auth.js:122 | a leading '-' negates whatever the digits after it read as, in either base |
| `Common.ParseIntBareHexPrefix` | routes/auth.js:122 | '0x' with no digit after it is NaN |
| `ClientRetry.IsRetriableError` | netlify/functions/tidal/tidalClient.js:182-192 | a retriable error is never a refreshable 401 nor a 429, and no response below 500 is retriable |
| `ClientRetry.BackoffDelay` | netlify/functions/tidal/tidalClient.js:194-200 | the delay is at most 30000; with a non-negative jitter it is at least min(1000·2^(attempt−1), 30000); with a jitter below 1000 it is below 1000·2^(attempt−1) + 1000 |
| `ClientRetry.RateLimitDelay` | netlify/functions/tidal/tidalClient.js:154-155 | a 429 waits Retry-After × 1000 ms when the header is present, else the exponential backoff of the attempt |
| `ClientRetry.TerminalFailure` | netlify/functions/tidal/tidalClient.js:174-178 | a new Error carrying the body's `error` field exactly when the response body has a truthy one; otherwise the original error is rethrown |
| `ClientRetry.TokenRequestSpec` | netlify/functions/tidal/tidalClient.js:206-247 | the token request never uses more attempts than offered; a success took at least one attempt; its only failures are the rethrown error, 'Token request rate limit exceeded' or the end of the script |
| `ClientRetry.TokenRequestWithRetry` | netlify/functions/tidal/tidalClient.js:206-247 | the loop with its `attempt` counter returns the result, attempt count and sleeps of the recursive definition |
| `ClientRetry.TokenRetriesBounded` | netlify/functions/tidal/tidalClient.js:222-241 | a token request sleeps at most maxRetries + 1 − attempt times, and every sleep is followed by exactly one more attempt |
| `ClientRetry.TokenDelaysBounded` | netlify/functions/tidal/tidalClient.js:225 | with jitter in [0, 1000) and no Retry-After, every sleep of a token request lies in [1000, 30000] ms |
| `ClientRetry.TokenRequestRethrows401` | netlify/functions/tidal/tidalClient.js:243-245 | a 401 from the token endpoint is rethrown after one attempt, with no refresh and no sleep |
| `TidalClient.AuthorizationUrl` | netlify/functions/tidal/tidalClient.js:16-28 | the authorize URL is `/auth` under the auth base and carries exactly the seven PKCE parameters: `code`, `S256`, scope `r_usr+w_usr`, client id, redirect URI, state and challenge |
| `TidalClient.CodeForm` | netlify/functions/tidal/tidalClient.js:31-37 | the code grant sends exactly grant_type, code, redirect_uri, client_id and code_verifier, and no secret |
| `TidalClient.RefreshForm` | netlify/functions/tidal/tidalClient.js:60-64 | the refresh grant sends exactly grant_type=refresh_token, the refresh token and client_id, with no secret and no scope |
| `TidalClient.ExchangeSpec` | netlify/functions/tidal/tidalClient.js:39-52 | on success all three token fields come from the response, with expiry now + expires_in·1000; on failure nothing changes |
| `TidalClient.RefreshSpec` | netlify/functions/tidal/tidalClient.js:55-82 | without a refresh token it fails with 'No refresh token available', changes nothing and makes no request; on success it sets access and expiry and replaces the refresh token only when one is returned; a failed request changes nothing |
| `TidalClient.EnsureSpec` | netlify/functions/tidal/tidalClient.js:84-95 | it fails without an access token; it refreshes exactly when the expiry is truthy (a Date, whatever its instant) and strictly before now + 300000; otherwise nothing changes |
| `TidalClient.FullUrl` | netlify/functions/tidal/tidalClient.js:101 | a URL starting with "http" is used verbatim, any other is prefixed with the catalog base; the result always starts with "http" and ends with the URL |
| `TidalClient.InitialHeaders` | netlify/functions/tidal/tidalClient.js:103-107 | the headers are Bearer and JSON, and caller headers override same-named keys |
| `TidalClient.MaxRetriesOf` | netlify/functions/tidal/tidalClient.js:100 | `maxRetries` defaults to 3 |
| `TidalClient.Decide` | netlify/functions/tidal/tidalClient.js:131-178 | a rejected attempt refreshes iff it is a refreshable 401, whatever the attempt number; it sleeps iff it is a 429 or retriable and attempt ≤ maxRetries; an exhausted 429 is 'Rate limit exceeded'; anything else takes the terminal path |
| `TidalClient.RetrySpec` | netlify/functions/tidal/tidalClient.js:119-180 | a request never uses more catalog or token attempts than offered |
| `TidalClient.RequestSpec` | netlify/functions/tidal/tidalClient.js:97-117 | `request` checks the token, then runs the retry engine on the resulting tokens and headers; it uses no more attempts than offered |
| `TidalClient.Call` | netlify/functions/tidal/tidalClient.js:249-338 | every facade path starts with `/v2/`; every GET carries countryCode 'NO'; POST and DELETE carry no params |
| `TidalClient.TidalApiClient.constructor` | netlify/functions/tidal/tidalClient.js:7-14 | a new client holds no token, no refresh token and no expiry |
| `TidalClient.TidalApiClient.GetAuthUrl` | netlify/functions/tidal/tidalClient.js:16-28 | the authorize URL is built from the client's own id and redirect URI |
| `TidalClient.TidalApiClient.ExchangeCodeForTokens` | netlify/functions/tidal/tidalClient.js:30-53 | it posts the code form and leaves the fields as `ExchangeSpec` says |
| `TidalClient.TidalApiClient.RefreshTokens` | netlify/functions/tidal/tidalClient.js:55-82 | it posts the refresh form only when a refresh token is held, and leaves the fields as `RefreshSpec` says |
| `TidalClient.TidalApiClient.EnsureValidToken` | netlify/functions/tidal/tidalClient.js:84-95 | the fields end as `EnsureSpec` says |
| `TidalClient.TidalApiClient.RequestWithRetry` | netlify/functions/tidal/tidalClient.js:119-180 | the loop, which rewrites the Authorization header in place after each refresh, returns what the recursive definition does, and the client keeps that run's tokens |
| `TidalClient.TidalApiClient.Request` | netlify/functions/tidal/tidalClient.js:97-117 | the full URL and the run are as `RequestSpec` says, and the client keeps the final tokens |
| `TidalClient.TidalApiClient.Perform` | netlify/functions/tidal/tidalClient.js:249-338 | a facade method issues its `Call` through `request` |
| `TidalClient.TidalApiClient.SetTokensForTesting` | netlify/functions/tidal/tidalClient.js:341-345 | both tokens are stored verbatim; a truthy expiry is stored as given and a falsy one (0) leaves the expiry unset |
| `TidalClient.TidalApiClient.GetAccessToken` | netlify/functions/tidal/tidalClient.js:347-349 | it returns the held access token |
| `ClientProperties.RetryAccounting` | netlify/functions/tidal/tidalClient.js:133-171 | a request makes at most maxRetries + 1 − attempt retries after a 429 or retriable error; every catalog attempt but the last is followed by a sleep or a refresh; each refresh costs a token call |
| `ClientProperties.NoRefreshWithout401` | netlify/functions/tidal/tidalClient.js:133-148 | without a refreshable 401 the token endpoint is never called, and the tokens and headers are unchanged |
| `ClientProperties.HeadersTrackToken` | netlify/functions/tidal/tidalClient.js:141 | after a refresh the Authorization header is the bearer of the token now held, and every other header is unchanged |
| `ClientProperties.PersistentRateLimit` | netlify/functions/tidal/tidalClient.js:152-162 | constant 429s from attempt 1 cost maxRetries + 1 attempts and maxRetries sleeps, then fail with 'Rate limit exceeded', with the tokens untouched |
| `ClientProperties.PersistentRetriableError` | netlify/functions/tidal/tidalClient.js:164-178 | a recurring ENOTFOUND or 5xx is retried maxRetries times, then surfaces as itself or as the body's error |
| `ClientProperties.NonRetriableNetworkErrorIsImmediate` | netlify/functions/tidal/tidalClient.js:178 | a transport error with another code is thrown after one attempt, with no sleep |
| `ClientProperties.RequestDelaysBounded` | netlify/functions/tidal/tidalClient.js:166-170 | with jitter in [0, 1000) and no Retry-After, every sleep of a request, including its refreshes' sleeps, lies in [1000, 30000] ms |
| `ClientProperties.RefreshedTokenExpiresLater` | netlify/functions/tidal/tidalClient.js:69-74 | a successful refresh with a positive `expires_in` holds the new token and an expiry later than now |
| `ClientProperties.ReactiveRefreshScenario` | netlify/functions/tidal/tidalClient.js:133-143 | a 401 (6004) then a 200 gives two catalog calls and one token call, and the retry carries `Bearer NEW2` |
| `ClientProperties.ProactiveRefreshScenario` | netlify/functions/tidal/tidalClient.js:89-94 | a token expiring in 270 s is refreshed before the one catalog call |
| `ClientProperties.InvalidRefreshTokenScenario` | netlify/functions/tidal/tidalClient.js:144-147 | an invalid_grant from the token endpoint surfaces unchanged after one catalog call, with the tokens unchanged |
| `ClientProperties.RepeatedRefreshesAsWritten` | netlify/functions/tidal/tidalClient.js:143 | n refreshable 401s in a row cost n refreshes at the same attempt, whatever maxRetries is |
| `ClientProperties.RetryOnceSpec` | netlify/functions/tidal/tidalClient.js:133-148 | the corrected 401 path refreshes at most once per request |
| `ClientProperties.RetryOnceAgreesWithout401` | netlify/functions/tidal/tidalClient.js:119-180 | without refreshable 401s, the corrected and the written recursion give the same run |
| `ClientProperties.TwoExpired401s` | netlify/functions/tidal/tidalClient.js:136-143 | on two 401s (6004), the code as written refreshes twice, while the corrected path surfaces the second 401 |
| `TidalSingleton.CookieTokens` | netlify/functions/tidal/index.js:8-14 | both tokens are overwritten, absent ones included; the expiry changes only for a truthy `expiresIn` |
| `TidalSingleton.MergeTokens` | netlify/functions/tidal/index.js:26-36 | each field is replaced only by a truthy datum |
| `TidalSingleton.SetTokensFromCookies` | netlify/functions/tidal/index.js:8-14 | the client's fields become `CookieTokens` of the old ones |
| `TidalSingleton.SetTokens` | netlify/functions/tidal/index.js:26-36 | the client's fields become `MergeTokens` of the old ones |
| `TidalSingleton.NeedsRefresh` | netlify/functions/tidal/index.js:17-24 | true without an access token; with one, true exactly when the client's own `ensureValidToken` test says the token expires within five minutes |
| `TidalSingleton.GetNeedsRefresh` | netlify/functions/tidal/index.js:17-24 | true without an access token; false without a truthy expiry; else expiry < now + 300000 |
| `TidalSingleton.ZeroExpiryNeverRefreshes` | netlify/functions/tidal/tidalClient.js:341-345 | after `setTokensForTesting(access, refresh, 0)` with an access token, neither `needsRefresh` nor `ensureValidToken` asks for a new token |
| `TidalSingleton.NeedsRefreshAgreesWithEnsure` | netlify/functions/tidal/index.js:17-24 | with an access token, `needsRefresh` is true exactly when `ensureValidToken` refreshes; without one, both refuse |
| `TidalSingleton.CookieTokensNeedRefresh` | netlify/functions/tidal/index.js:8-23 | tokens set from cookies need a refresh iff their lifetime is under 300 s |
| `TidalSingleton.MergeNothing` | netlify/functions/tidal/index.js:26-36 | `setTokens({})` changes nothing |
| `TidalSingleton.MergeIdempotent` | netlify/functions/tidal/index.js:26-36 | applying the same data twice at one instant is applying it once |
| `TidalSingleton.MergeCompleteOverrides` | netlify/functions/tidal/index.js:26-36 | complete data overrides every field |
| `Playlist.ClassifyTimeOfDay` | netlify/functions/get-playlist.js:11-20 | 'morning' iff the lower-cased title has a morning word; 'evening' iff it has an evening word and no morning word; else 'day' |
| `Playlist.MorningWordWins` | netlify/functions/get-playlist.js:12-15 | a morning word in any letter case anywhere makes the title 'morning', even beside "night" |
| `Playlist.EveningWordWithoutMorning` | netlify/functions/get-playlist.js:16-18 | an evening word in any case and no morning word gives 'evening' |
| `Playlist.ClassifyIgnoresCase` | netlify/functions/get-playlist.js:12 | lower-casing the title first changes nothing |
| `Playlist.FindCookie` | netlify/functions/get-playlist.js:62 | a match is found iff the key is followed by a non-';' character somewhere; the capture is the run of non-';' characters after the leftmost such match, so non-empty and free of ';' |
| `Playlist.ExtractCookie` | netlify/functions/get-playlist.js:60-71 | a falsy header gives null; otherwise a value is found iff `name=` is followed by a non-';' character, and it is the capture after the leftmost such `name=`, up to the next ';' |
| `Playlist.ExtractFirstCookie` | netlify/functions/get-playlist.js:60-64 | `name=v;rest` reads back exactly v |
| `Playlist.CountryCode` | netlify/functions/get-playlist.js:74-87 | the profile's truthy country, else TIDAL_COUNTRY_CODE, else DEFAULT_COUNTRY, else 'US'; never empty |
| `Playlist.ArtistNames` | netlify/functions/get-playlist.js:179 | one name per artist |
| `Playlist.FindWidth320` | netlify/functions/get-playlist.js:182 | the first image of width 320 (every image before it has another width), and none when no image has width 320 |
| `Playlist.CoverUrl` | netlify/functions/get-playlist.js:182 | the 320-wide image's truthy url, else the first image's url; null without an album or covers |
| `Playlist.FormatTrack` | netlify/functions/get-playlist.js:175-186 | every output field: the artists joined by ", " or 'Unknown Artist', the album or 'Unknown Album', the cover, the first preview, the track URL and the time of day |
| `Playlist.TrackItems` | netlify/functions/get-playlist.js:174 | the output keeps exactly the track items that have a resource, never grows, and each kept item is a track |
| `Playlist.FormatTracks` | netlify/functions/get-playlist.js:173-187 | one formatted row per track item, in order |
| `Playlist.TrackItemsConcat` | netlify/functions/get-playlist.js:173-187 | filtering commutes with concatenation, so order is preserved |
| `Playlist.FormatTracksConcat` | netlify/functions/get-playlist.js:173-187 | formatting commutes with concatenation |
| `Playlist.PassThrough` | netlify/functions/get-playlist.js:48-54 | an error mentioning 'please log in again' passes unchanged; any other becomes 'Failed to fetch playlist tracks' |
| `Playlist.FetchSpec` | netlify/functions/get-playlist.js:33-55 | at least one request is made, the first at the starting offset |
| `Playlist.FetchContract` | netlify/functions/get-playlist.js:33-55 | the k-th offset is the number of items collected before it; every page but the last was full with a next page and the last stops; success is the in-order concatenation; errors pass through |
| `Playlist.FetchAllPlaylistTracks` | netlify/functions/get-playlist.js:22-57 | the loop returns `FetchSpec`'s result; the URLs carry limit 100 and its offsets; the client's tokens are set from the cookie with a null refresh token |
| `Playlist.ErrorResponse` | netlify/functions/get-playlist.js:209-216 | the status is the response's status or 500; the message or a fixed one; requiresAuth iff the message mentions 'authentication' or 'log in' |
| `Playlist.PageUrls` | netlify/functions/get-playlist.js:34 | one URL per request, at its offset |
| `Playlist.PageUrl` | netlify/functions/get-playlist.js:34 | the URL is the playlist's items URL for the country with limit 100, followed by the offset in decimal |
| `Playlist.PageUrlsDistinct` | netlify/functions/get-playlist.js:34 | pages at different offsets are requested at different URLs |
| `Playlist.FetchTokens` | netlify/functions/get-playlist.js:29-31 | the fetch leaves the cookie's access token, a null refresh token and one hour |
| `Playlist.HandlePlaylist` | netlify/functions/get-playlist.js:121-218 | the profile is requested exactly for a non-preflight request with a user cookie; without that, the tokens are untouched and no page is requested |
| `Playlist.HandlerDecisions` | netlify/functions/get-playlist.js:130-218 | OPTIONS gives 204; no user cookie gives 302 to /login.html with no request; no id gives 400 `{error: 'Missing playlist ID'}`; otherwise a 200 with the formatted pages, or a non-200 on error |
| `Playlist.HandlerFetchErrors` | netlify/functions/get-playlist.js:195-217 | a failed fetch asking to log in again redirects to /login.html; any other is 500 `{error: 'Failed to fetch playlist tracks', requiresAuth: false}` |
| `Playlist.PlainErrorResponse` | netlify/functions/get-playlist.js:209-216 | a message mentioning neither 'authentication' nor 'log in' gives 500 with that message and `requiresAuth` false |
| `Playlist.HandlerDropsRefreshToken` | netlify/functions/get-playlist.js:153-171 | as written, the page requests run without the cookie's refresh token, so any refresh fails with 'No refresh token available' |
| `Playlist.FetchTokensCorrected` | netlify/functions/get-playlist.js:29-31 | the corrected fetch keeps the cookie's refresh token |
| `Playlist.CorrectedFetchKeepsRefreshToken` | netlify/functions/get-playlist.js:153-171 | with the correction, the fetch leaves the tokens the handler set from the cookies untouched, so a refresh no longer fails with 'No refresh token available' |
| `PlaylistRoute.PlaylistRoute` | routes/playlist.js:89-149 | the status is one of 200, 302, 400, 401 and 500; the profile is requested exactly with a user cookie; without it the tokens are untouched and no page is requested |
| `PlaylistRoute.RouteDecisions` | routes/playlist.js:89-149 | 302 iff no user cookie; 400 iff no id; 200 iff the pages were fetched; 401 iff the error asks to log in again; a 500 carries 'Failed to fetch playlist tracks' |
| `PlaylistRoute.RouteAgreesWithHandler` | routes/playlist.js:89-149 | the Express route and the Netlify handler leave the same tokens, make the same requests and agree on 200 and 302 |
| `PlaylistOAuth.PieceName` | netlify/functions/get-playlist-oauth.js:8 | a cookie name never contains '=' |
| `PlaylistOAuth.PieceValue` | netlify/functions/get-playlist-oauth.js:8 | a value never contains '=' (the text after the second '=' is dropped), and is 'undefined' when the trimmed piece has no '=' |
| `PlaylistOAuth.FoldCookies` | netlify/functions/get-playlist-oauth.js:7-10 | parsing never loses a name already set |
| `PlaylistOAuth.ParseCookiesSpec` | netlify/functions/get-playlist-oauth.js:4-13 | a falsy header gives the empty object |
| `PlaylistOAuth.ParseCookies` | netlify/functions/get-playlist-oauth.js:4-13 | the `forEach` loop gives the parse, and stops at a malformed escape |
| `PlaylistOAuth.FoldLastWins` | netlify/functions/get-playlist-oauth.js:7-10 | a later piece overwrites an earlier one of the same name |
| `PlaylistOAuth.SecondEqualsDropsRest` | netlify/functions/get-playlist-oauth.js:8-9 | `name=value=rest` sets name to value, and rest is dropped |
| `PlaylistOAuth.ClassifySong` | netlify/functions/get-playlist-oauth.js:122-143 | never 'day'; under 180 s 'morning' and over 300 s 'evening', whatever the words |
| `PlaylistOAuth.CoinDecidesOnlyWhenNoRuleFires` | netlify/functions/get-playlist-oauth.js:137-142 | the random choice matters iff no duration or keyword rule fires |
| `PlaylistOAuth.SongMorningWord` | netlify/functions/get-playlist-oauth.js:126-139 | within the band, a morning word in any case anywhere in the title gives 'morning' |
| `PlaylistOAuth.TodayIsMorning` | netlify/functions/get-playlist-oauth.js:126-139 | 'day' matches inside "Today" |
| `PlaylistOAuth.FormatSong` | netlify/functions/get-playlist-oauth.js:69-83 | the defaults: duration 240, 'Unknown Artist', 'Unknown Album', an empty cover; the classification uses that duration |
| `PlaylistOAuth.MissingDurationSkipsDurationRules` | netlify/functions/get-playlist-oauth.js:71 | a missing duration is 240, so only words or the coin decide |
| `PlaylistOAuth.FormatSongs` | netlify/functions/get-playlist-oauth.js:69-83 | the mapping succeeds iff every item has a resource, and then gives one row per item, in order |
| `PlaylistOAuth.ErrorToResponse` | netlify/functions/get-playlist-oauth.js:100-118 | 401 iff the message contains '401' or 'authentication', else 500 |
| `PlaylistOAuth.HandleOAuth` | netlify/functions/get-playlist-oauth.js:18-119 | the status is 200, 401 or 500; the playlist is requested only after the user cookie parses and the token is renewed, with the new token; songs come only from a fetched playlist, one per item |
| `PlaylistOAuth.CookiesGateTheRequest` | netlify/functions/get-playlist-oauth.js:33-62 | without both cookies truthy the answer is 401 'Not authenticated' with no request; an unparsable user cookie or a failed renewal goes to the catch block, with no request |
| `PlaylistOAuth.RenewalRequestsPlaylist` | netlify/functions/get-playlist-oauth.js:61-97 | with a renewed token the playlist is requested through `getPlaylist` with that token and country 'NO', whatever the user's country; total equals the row count |
| `PlaylistOAuth.FetchedPlaylistAnswers` | netlify/functions/get-playlist-oauth.js:66-117 | once the playlist is requested, a failed request is answered by the catch block with its message; an item without a resource gives the catch block's answer to the TypeError; otherwise 200 with exactly `FormatSongs` of the items and their count |
| `PlaylistOAuth.AsWrittenNeverFetches` | netlify/functions/get-playlist-oauth.js:56-62 | as written, the renewal throws a TypeError: no playlist request is made and the answer is never 200 |
| `PlaylistOAuth.NoCookieIsNotAuthenticated` | netlify/functions/get-playlist-oauth.js:34-43 | no Cookie header gives 401 |
| `AuthCache.CredentialsForm` | netlify/functions/auth-tidal.js:32-37 | the form is exactly client_credentials, the id, the secret and scope r_usr |
| `AuthCache.HandleSpec` | netlify/functions/auth-tidal.js:8-78 | a request is made iff the cache misses; the status is 200 or 500; a 500 keeps the cache |
| `AuthCache.TokenCache.constructor` | netlify/functions/auth-tidal.js:3-4 | the cache starts empty |
| `AuthCache.TokenCache.Handle` | netlify/functions/auth-tidal.js:8-78 | the handler's answer and its new cache are those of `HandleSpec`; it posts the credentials form iff it misses |
| `AuthCache.HitReportsWholeSecondsLeft` | netlify/functions/auth-tidal.js:12-25 | a hit serves the cached token unchanged and reports the floor of the seconds left |
| `AuthCache.MissCachesWithBuffer` | netlify/functions/auth-tidal.js:44-60 | a miss caches until now + expires_in·1000 − 60000, yet reports the server's expires_in |
| `AuthCache.FailureKeepsCache` | netlify/functions/auth-tidal.js:40-42 | a non-ok status gives 500 'Authentication failed: <status>', with the cache kept and the status readable back |
| `AuthCache.FetchThenHit` | netlify/functions/auth-tidal.js:12-47 | after a fetch, a later call hits iff it is more than a minute before the real expiry |
| `AuthCache.ShortLivedTokenNeverCached` | netlify/functions/auth-tidal.js:47 | a token of 60 s or less is never served from the cache |
| `TidalCallback.JsString` | netlify/functions/tidal-callback.js:57-59 | an absent token prints as 'undefined' |
| `TidalCallback.CodeExchangeForm` | netlify/functions/tidal-callback.js:31-35 | the form is exactly authorization_code, the code and the redirect URI |
| `TidalCallback.Cookies` | netlify/functions/tidal-callback.js:57-59 | three cookies, in order: access token for expires_in, refresh token for 2592000 s, and expiry at now + expires_in·1000 |
| `TidalCallback.HandleCallback` | netlify/functions/tidal-callback.js:4-92 | the code is exchanged exactly for a non-preflight request with a code, with the authorization-code form; cookies are set only after a successful exchange |
| `TidalCallback.CallbackDecisions` | netlify/functions/tidal-callback.js:12-90 | OPTIONS gives 204 and no code gives 400, neither with a request; success gives 302 to /success.html with exactly the three cookies built from the token response and now; an error response's status passes; else 500 |
| `TidalCallback.SetCookieHeaderText` | netlify/functions/tidal-callback.js:57 | the header is `name=value; Max-Age=n; HttpOnly; Secure; SameSite=Lax; Path=/` |
| `TidalCallback.SetCookieSplits` | netlify/functions/tidal-callback.js:57-59 | a header splits on ';' back into its six pieces |
| `TidalCallback.MaxAgeReadsBack` | netlify/functions/tidal-callback.js:57 | the Max-Age attribute parses back to the lifetime |
| `TidalCallback.CallbackCookiesSplit` | netlify/functions/tidal-callback.js:57-59 | each of the three cookies splits back into its pair, Max-Age and attributes |
| `TidalCallback.CallbackCookiesReadBack` | netlify/functions/tidal-callback.js:55-59 | the playlist function's extraction reads the access token back, and the expiry parses to now + expires_in·1000 |
| `AuthRoutes.Login` | routes/auth.js:6-27 | no client id gives 400; otherwise the authorize redirect carries exactly code, the id, the redirect URI (with its localhost default) and the fixed scope |
| `AuthRoutes.Callback` | routes/auth.js:30-103 | always a redirect; the code is exchanged exactly when there is no error and a code, with the redirect URI or its default and the `id:secret` Basic credentials; cookies are set only after a successful exchange, redirecting to / |
| `AuthRoutes.CallbackCookies` | routes/auth.js:30-103 | an error (redirected to the login page with the encoded error) or a missing code makes no request and sets no cookie; a failed exchange sets no cookie; success sets tidalUser, tidalRefresh (only with a refresh token) and tidalExpiry, in order, each lasting expires_in·1000 ms |
| `AuthRoutes.LogoutClearsExactly` | routes/auth.js:106-111 | logout removes exactly the three cookies |
| `AuthRoutes.Status` | routes/auth.js:114-130 | authenticated iff a token is present and the clock is not strictly past a parsable expiry (`parseInt` without a radix: decimal, or hexadecimal after '0x'); an expired token clears the three cookies |
| `AuthRoutes.Logout` | routes/auth.js:106-111 | answers logged out and clears each of the three auth cookies once, and nothing else |
| `AuthRoutes.LogoutThenStatus` | routes/auth.js:106-130 | after a logout the status is not authenticated |
| `AuthRoutes.ExpiredThenStatus` | routes/auth.js:114-130 | after an expired report, asking again gives not authenticated |
| `AuthRoutes.CallbackThenStatus` | routes/auth.js:65-129 | after a successful callback the status is authenticated exactly until now + expires_in·1000 |

## Left out

- HTTP transport, the axios and node-fetch options (timeouts, the form content type) and logging are not modelled. Base64 of the Basic credentials is not modelled either; the token requests of TidalCallback.HandleCallback and AuthRoutes.Callback keep the `id:secret` text.
- `URLSearchParams` and `new URL` are not modelled beyond their fields. A form or query is a map from field to value, so parameter order and percent-encoding (including how `+` in the scopes is encoded) are not captured.
- `toLowerCase` is modelled on ASCII letters only.
- ClientRetry.BackoffDelay: the jitter is an integer, whereas `Math.random() * 1000` is fractional, so delays are whole milliseconds.
- ClientRetry.RateLimitDelay: the Retry-After header is taken as already parsed to a whole number of seconds. A non-numeric header, which makes `parseInt` NaN, is not modelled.
- `now` is one clock reading per operation. Sleeps do not advance it, and `new Date` objects are integer milliseconds.
- The single-flight `refreshPromise` of the OAuth playlist function is not modelled, because it is concurrency.
- PlaylistOAuth.HandleOAuth: the outcome of renewing and installing the access token (lines 54-62) is the input `renewed`, and the answer to the playlist request is the input `fetched`. As written, `renewed` is always the TypeError `MissingRefreshMethod` (see Findings).
- PlaylistOAuth.AsWrittenNeverFetches: it states that the catch block answers with the TypeError's message, but not which status that gives. Proving that the message contains neither '401' nor 'authentication' means evaluating a 52-character literal, which the verifier does not finish.
- TidalClient.ExchangeSpec: a token response without `expires_in` is not modelled. `expires_in` is always an integer, whereas JavaScript would store an Invalid Date.
- TidalClient.RefreshSpec: likewise, a refresh response without `expires_in` is not modelled.
- AuthCache.HandleSpec: likewise, a client-credentials response without `expires_in` is not modelled. JavaScript would cache a NaN expiry.
- TidalCallback.Cookies: likewise, a token response without `expires_in` is not modelled. JavaScript would print `Max-Age=undefined` and `tidalExpiry=NaN`.
- AuthRoutes.Callback: likewise, a token response without `expires_in` is not modelled.
- Common.ParseInt: the result is an exact integer. JavaScript's `parseInt` rounds beyond 2^53.
- TidalClient.TidalApiClient.SetTokensForTesting: the expiry argument is a number of milliseconds. A falsy one (0) is stored as unset, since every reader only tests it for truthiness. A Date object at the epoch instant, which would be truthy, cannot be passed.
- `JSON.parse` of the user cookie is an input outcome, not a parser.
- Playlist.HandlePlaylist: the profile request of `getUserCountryCode` is an outcome input. Its own token refreshes and retries are not replayed on the client.
- Playlist.CoverUrl: `None` stands both for `null` (no album, or no cover list) and for `undefined` (an empty cover list, or a first image without a url). `JSON.stringify` writes the first as `"coverArtUrl": null` and drops the key for the second; the model does not tell the two apart.
- TidalCallback.JsString: `None` is an absent field and prints as `undefined`. A token response carrying `"refresh_token": null` would print `null` in the cookie; the model does not represent a JSON `null` field.
- A page response without a `data` object, which would throw a TypeError inside the fetch loop, is not modelled. A missing `data.data` is modelled.
- Track titles are assumed to be strings.
- The 'undefined' rendering is modelled only where the model states it (`JsString`, `PieceValue`). Environment variables that are unset in a form or in the Basic credentials are otherwise strings of the caller's choice.
- AuthRoutes.Apply: cookie Max-Age expiry in the browser jar is not modelled. The jar changes only by the route's own set and clear actions.
- `decodeURIComponent` and `encodeURIComponent` are parameters. A `None` from the decoder stands for the URIError.
- PlaylistOAuth.ErrorToResponse: an error without a message is not modelled. The message is always a string.
- Not modelled: netlify/functions/tidal-login.js, server.js and routes/tidal.js, which are wiring and a connectivity probe with no logic of their own. test-tidal-client.js and the configuration files are not part of this model.

## Findings

| source | as written | input that shows it | evidently intended | confidence | as-written member | corrected member |
|---|---|---|---|---|---|---|
| netlify/functions/tidal/tidalClient.js:143 | After a successful refresh on a 401 (sub-status 6004), the request is re-issued at the same `attempt`, with no bound on how many times this happens | a catalog that keeps answering 401 with sub-status 6004 while the token endpoint keeps granting tokens: the request refreshes and re-issues for as long as this lasts, whatever `maxRetries` is | refresh once per request and treat a second refreshable 401 as terminal | not executed; medium | `ClientProperties.RepeatedRefreshesAsWritten` | `ClientProperties.RetryOnceSpec` |
| netlify/functions/get-playlist-oauth.js:57 | `client.refreshAccessToken.call(...)` reads a method that `TidalApiClient` does not have, and so does `client.setTokens` at line 62, so a TypeError is thrown before any request | Cookie `tidalRefresh=R; tidalUser={"countryCode":"SE"}`: the answer comes from the catch block ('Cannot read properties of undefined (reading \'call\')') and the playlist is never requested | renew the access token with the refresh token (`refreshTokens`), install it, then fetch the playlist | not executed; high | `PlaylistOAuth.AsWrittenNeverFetches` | `PlaylistOAuth.RenewalRequestsPlaylist` |
| netlify/functions/get-playlist.js:30 | `fetchAllPlaylistTracks` calls `setTokensFromCookies(userToken, null, 3600)`, which overwrites the refresh token the handler stored at line 154 (routes/playlist.js:29 does the same) | Cookie `tidalUser=A; tidalRefresh=R` with a playlist id, where the catalog answers 401 (6004): the refresh fails with 'No refresh token available' instead of using R | pass the cookie's refresh token on | not executed; high | `Playlist.HandlerDropsRefreshToken` | `Playlist.FetchTokensCorrected` |

The class `TidalClient.TidalApiClient` and the handler `Playlist.HandlePlaylist` model the
code as written. The corrected definitions stand beside them:

- `ClientProperties.RetryOnceAgreesWithout401` proves that `RetryOnceSpec` agrees with the
  written recursion whenever no refreshable 401 occurs.
- `ClientProperties.TwoExpired401s` exhibits the first discrepancy.
- `PlaylistOAuth.HandleOAuth` takes the renewal outcome as an input, so it covers both the code as
  written (the TypeError) and the intended renewal, which `RenewalRequestsPlaylist` follows to
  the playlist request.
- `Playlist.CorrectedFetchKeepsRefreshToken` proves that the corrected fetch runs on the tokens
  the handler set.
