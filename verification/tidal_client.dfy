/**
 * TidalApiClient (netlify/functions/tidal/tidalClient.js): an OAuth bearer-token client for
 * the TIDAL catalog API. The object holds `accessToken`, `refreshToken` and `tokenExpiry`
 * (integer milliseconds); the token operations update them in place, and `request` runs the
 * retry engine, which refreshes once per refreshable 401 and rewrites the Authorization header.
 *
 * Each state-changing method is proved against a specification function over `TokenState`
 * (RefreshSpec, EnsureSpec, ExchangeSpec, RetrySpec, RequestSpec); the properties the client
 * promises are stated as lemmas about those functions in module ClientProperties.
 *
 * `now` is the reading of `Date.now()` for the whole operation: the model does not advance
 * the clock across sleeps.
 */
module TidalClient {
  import opened Common
  import opened ClientRetry
  import opened Forms

  const ApiBaseUrl := "https://openapi.tidal.com"
  const AuthBaseUrl := "https://auth.tidal.com/v1/oauth2"
  /** Five minutes: a token expiring sooner than this is refreshed before a request. */
  const RefreshWindowMs := 300000
  const AuthorizeScope := "r_usr+w_usr"

  /**
   * The three token fields of the client. `expiry` is the instant `tokenExpiry` holds, in
   * milliseconds: `Some(x)` is a Date, which is truthy whatever its instant; `None` is any falsy
   * value (null, undefined, or the number 0), since every reader of `tokenExpiry` only tests it
   * for truthiness before comparing.
   */
  datatype TokenState = TokenState(access: Option<string>, refresh: Option<string>, expiry: Option<int>)

  /** The body of a 2xx answer from the token endpoint. */
  datatype TokenResponse = TokenResponse(accessToken: string, refreshToken: Option<string>, expiresIn: int)

  type TokenAttempt = Attempt<TokenResponse>

  type Headers = map<string, string>

  // ---------------------------------------------------------------------------
  // Authorization URL and token-endpoint forms

  datatype AuthUrl = AuthUrl(endpoint: string, query: Form)

  /** `getAuthUrl(state, codeChallenge)`: the authorization-code request with PKCE (S256). */
  function AuthorizationUrl(clientId: string, redirectUri: string, state: string, codeChallenge: string): (u: AuthUrl)
    ensures u.endpoint == AuthBaseUrl + "/auth"
    ensures u.query.Keys == {ResponseType, ClientId, RedirectUri, Scope, State, CodeChallenge, CodeChallengeMethod}
    ensures u.query[ResponseType] == "code" && u.query[CodeChallengeMethod] == "S256"
    ensures u.query[ClientId] == clientId && u.query[RedirectUri] == redirectUri
    ensures u.query[Scope] == AuthorizeScope
    ensures u.query[State] == state && u.query[CodeChallenge] == codeChallenge
  {
    AuthUrl(AuthBaseUrl + "/auth",
      map[ResponseType := "code", ClientId := clientId, RedirectUri := redirectUri, Scope := AuthorizeScope,
          State := state, CodeChallenge := codeChallenge, CodeChallengeMethod := "S256"])
  }

  /** The body of the authorization-code grant: the PKCE code verifier and no client secret. */
  function CodeForm(code: string, redirectUri: string, clientId: string, codeVerifier: string): (f: Form)
    ensures f.Keys == {GrantType, Code, RedirectUri, ClientId, CodeVerifier}
    ensures f[GrantType] == "authorization_code"
    ensures f[Code] == code && f[RedirectUri] == redirectUri && f[ClientId] == clientId
    ensures f[CodeVerifier] == codeVerifier
  {
    map[GrantType := "authorization_code", Code := code, RedirectUri := redirectUri,
        ClientId := clientId, CodeVerifier := codeVerifier]
  }

  /** The body of the refresh-token grant: exactly these three fields, no secret and no scope. */
  function RefreshForm(refreshToken: string, clientId: string): (f: Form)
    ensures f.Keys == {GrantType, RefreshToken, ClientId}
    ensures f[GrantType] == "refresh_token"
    ensures f[RefreshToken] == refreshToken && f[ClientId] == clientId
  {
    map[GrantType := "refresh_token", RefreshToken := refreshToken, ClientId := clientId]
  }

  // ---------------------------------------------------------------------------
  // Token operations as functions of the token state

  /** What a token operation did: its result, the new token state, token-endpoint attempts used, sleeps. */
  datatype Step<+T> = Step(result: Result<T, Failure>, tokens: TokenState, authUsed: nat, delays: seq<int>)

  /** `new Date(Date.now() + expires_in * 1000)`, in milliseconds. */
  function ExpiryAt(now: int, expiresIn: int): int {
    now + expiresIn * 1000
  }

  /** `exchangeCodeForTokens`: on success all three fields come from the response. */
  function ExchangeSpec(t: TokenState, auth: seq<TokenAttempt>, now: int): (r: Step<TokenResponse>)
    ensures r.authUsed <= |auth|
    ensures r.result.Err? ==> r.tokens == t
    ensures r.result.Ok? ==>
      r.tokens == TokenState(Some(r.result.value.accessToken), r.result.value.refreshToken,
                             Some(ExpiryAt(now, r.result.value.expiresIn)))
  {
    var run := TokenRequestSpec(auth, DefaultMaxRetries, 1);
    match run.result
    case Ok(resp) =>
      Step(Ok(resp), TokenState(Some(resp.accessToken), resp.refreshToken, Some(ExpiryAt(now, resp.expiresIn))),
           run.used, run.delays)
    case Err(f) => Step(Err(f), t, run.used, run.delays)
  }

  /**
   * `refreshTokens`: without a refresh token it throws 'No refresh token available' and
   * changes nothing; on success it sets the access token and the expiry, and replaces the
   * refresh token only when the response carries one; a failed token request changes nothing.
   */
  function RefreshSpec(t: TokenState, auth: seq<TokenAttempt>, now: int): (r: Step<TokenResponse>)
    ensures r.authUsed <= |auth|
    ensures !Truthy(t.refresh) ==> r == Step(Err(NoRefreshToken), t, 0, [])
    ensures r.result.Ok? ==> r.authUsed >= 1
    ensures r.result != Err(ApiScriptExhausted)
    ensures Truthy(t.refresh) ==> r.result != Err(NoRefreshToken)
    ensures r.result.Err? ==> r.tokens == t
    ensures r.result.Ok? ==>
      && r.tokens.access == Some(r.result.value.accessToken)
      && r.tokens.expiry == Some(ExpiryAt(now, r.result.value.expiresIn))
      && r.tokens.refresh == (if Truthy(r.result.value.refreshToken) then r.result.value.refreshToken else t.refresh)
  {
    if !Truthy(t.refresh) then Step(Err(NoRefreshToken), t, 0, [])
    else
      var run := TokenRequestSpec(auth, DefaultMaxRetries, 1);
      match run.result
      case Ok(resp) =>
        var refresh := if Truthy(resp.refreshToken) then resp.refreshToken else t.refresh;
        Step(Ok(resp), TokenState(Some(resp.accessToken), refresh, Some(ExpiryAt(now, resp.expiresIn))),
             run.used, run.delays)
      case Err(f) => Step(Err(f), t, run.used, run.delays)
  }

  /** The token is set to expire strictly before five minutes from now. */
  predicate ExpiringSoon(t: TokenState, now: int) {
    t.expiry.Some? && t.expiry.value < now + RefreshWindowMs
  }

  /**
   * `ensureValidToken`: throws without an access token; refreshes exactly when the expiry is
   * set and earlier than now + 5 minutes; otherwise changes nothing. `Ok(true)` means it refreshed.
   */
  function EnsureSpec(t: TokenState, auth: seq<TokenAttempt>, now: int): (r: Step<bool>)
    ensures r.authUsed <= |auth|
    ensures !Truthy(t.access) ==> r == Step(Err(NotAuthenticated), t, 0, [])
    ensures Truthy(t.access) && !ExpiringSoon(t, now) ==> r == Step(Ok(false), t, 0, [])
    ensures Truthy(t.access) && ExpiringSoon(t, now) ==>
      var rr := RefreshSpec(t, auth, now);
      && r.tokens == rr.tokens && r.authUsed == rr.authUsed && r.delays == rr.delays
      && r.result == (if rr.result.Ok? then Ok(true) else Err(rr.result.error))
  {
    if !Truthy(t.access) then Step(Err(NotAuthenticated), t, 0, [])
    else if ExpiringSoon(t, now) then
      var rr := RefreshSpec(t, auth, now);
      Step(if rr.result.Ok? then Ok(true) else Err(rr.result.error), rr.tokens, rr.authUsed, rr.delays)
    else Step(Ok(false), t, 0, [])
  }

  // ---------------------------------------------------------------------------
  // Request pipeline

  /** The Authorization header for an access token, as the template string renders it. */
  function Bearer(access: Option<string>): string {
    "Bearer " + (if access.Some? then access.value else "null")
  }

  /** A URL starting with "http" is used verbatim; anything else is a path under the catalog base URL. */
  function FullUrl(url: string): (r: string)
    ensures StartsWith(r, "http") && EndsWith(r, url)
    ensures StartsWith(url, "http") ==> r == url
    ensures !StartsWith(url, "http") ==> r == ApiBaseUrl + url
  {
    if StartsWith(url, "http") then url else ApiBaseUrl + url
  }

  /** The bearer and JSON headers, overridden key by key by the caller's headers. */
  function InitialHeaders(access: Option<string>, custom: Headers): (h: Headers)
    ensures h.Keys == custom.Keys + {"Authorization", "Content-Type"}
    ensures forall k :: k in custom ==> h[k] == custom[k]
    ensures "Authorization" !in custom ==> h["Authorization"] == Bearer(access)
    ensures "Content-Type" !in custom ==> h["Content-Type"] == "application/json"
  {
    map["Authorization" := Bearer(access), "Content-Type" := "application/json"] + custom
  }

  /** A parameter or body value: a string, a number, or an array of strings. */
  datatype Value = Str(s: string) | Num(n: int) | Strs(items: seq<string>)

  datatype RequestOptions = RequestOptions(
    params: seq<(string, Value)>, data: seq<(string, Value)>, headers: Headers, maxRetries: Option<nat>)

  /** `maxRetries = 3` when the option is absent. */
  function MaxRetriesOf(options: RequestOptions): (n: nat)
    ensures options.maxRetries.None? ==> n == DefaultMaxRetries
    ensures options.maxRetries.Some? ==> n == options.maxRetries.value
  {
    if options.maxRetries.Some? then options.maxRetries.value else DefaultMaxRetries
  }

  /**
   * What a catalog request did: its result, the final token state and headers, the catalog
   * and token-endpoint attempts it used, its sleeps in order, how many times it re-issued
   * after a 429 or a retriable error, and how many times after a refresh.
   */
  datatype Run<+B> = Run(
    result: Result<B, Failure>, tokens: TokenState, headers: Headers,
    apiUsed: nat, authUsed: nat, delays: seq<int>, retries: nat, refreshes: nat)

  function AfterSleep<B>(d: int, r: Run<B>): Run<B> {
    r.(apiUsed := r.apiUsed + 1, delays := [d] + r.delays, retries := r.retries + 1)
  }

  function AfterRefresh<B>(rr: Step<TokenResponse>, r: Run<B>): Run<B> {
    r.(apiUsed := r.apiUsed + 1, authUsed := rr.authUsed + r.authUsed, delays := rr.delays + r.delays,
       refreshes := r.refreshes + 1)
  }

  /** What `_requestWithRetry` does with a rejected attempt. */
  datatype Action = Refresh | Sleep(delay: int) | Stop(failure: Failure)

  /**
   * The branch `_requestWithRetry` takes on a rejected attempt. A refreshable 401 refreshes
   * whatever the attempt number. A 429 sleeps (Retry-After seconds, else the backoff) while
   * attempt <= maxRetries and otherwise fails with 'Rate limit exceeded'. A retriable error
   * backs off while attempt <= maxRetries. Everything else is terminal.
   */
  function Decide(e: HttpError, attempt: nat, maxRetries: nat, jitter: int): (act: Action)
    requires attempt >= 1
    ensures act.Refresh? <==> IsRefreshable401(e)
    ensures act.Sleep? <==> !IsRefreshable401(e) && attempt <= maxRetries && (IsRateLimited(e) || IsRetriableError(e))
    ensures act.Sleep? && IsRateLimited(e) ==> act.delay == RateLimitDelay(e, attempt, jitter)
    ensures act.Sleep? && !IsRateLimited(e) ==> act.delay == BackoffDelay(attempt, jitter)
    ensures act == Stop(RateLimitExceeded(maxRetries)) <==> !IsRefreshable401(e) && IsRateLimited(e) && attempt > maxRetries
    ensures act.Stop? && !IsRateLimited(e) ==> act.failure == TerminalFailure(e)
  {
    if IsRefreshable401(e) then Refresh
    else if IsRateLimited(e) then
      if attempt <= maxRetries then Sleep(RateLimitDelay(e, attempt, jitter)) else Stop(RateLimitExceeded(maxRetries))
    else if IsRetriableError(e) && attempt <= maxRetries then Sleep(BackoffDelay(attempt, jitter))
    else Stop(TerminalFailure(e))
  }

  /**
   * The recursion of `_requestWithRetry(..., headers, ..., maxRetries, attempt)`. A 2xx
   * returns. A refresh failure is thrown unchanged; after a successful refresh the
   * Authorization header is rewritten with the new token and the request is re-issued at the
   * SAME attempt. A sleep is followed by a re-issue at attempt + 1.
   */
  function RetrySpec<B>(t: TokenState, headers: Headers, api: seq<Attempt<B>>, auth: seq<TokenAttempt>,
                        maxRetries: nat, attempt: nat, now: int): (r: Run<B>)
    requires attempt >= 1
    ensures r.apiUsed <= |api| && r.authUsed <= |auth|
    decreases |api|
  {
    if api == [] then Run(Err(ApiScriptExhausted), t, headers, 0, 0, [], 0, 0)
    else
      match api[0].outcome
      case Delivered(body) => Run(Ok(body), t, headers, 1, 0, [], 0, 0)
      case Failed(e) =>
        match Decide(e, attempt, maxRetries, api[0].jitter)
        case Refresh =>
          var rr := RefreshSpec(t, auth, now);
          if rr.result.Err? then Run(Err(rr.result.error), rr.tokens, headers, 1, rr.authUsed, rr.delays, 0, 0)
          else
            var h := headers["Authorization" := Bearer(rr.tokens.access)];
            AfterRefresh(rr, RetrySpec(rr.tokens, h, api[1..], auth[rr.authUsed..], maxRetries, attempt, now))
        case Sleep(d) => AfterSleep(d, RetrySpec(t, headers, api[1..], auth, maxRetries, attempt + 1, now))
        case Stop(f) => Run(Err(f), t, headers, 1, 0, [], 0, 0)
  }

  /** `request(method, url, options)`: ensure a valid token, build the headers, run the retry engine. */
  function RequestSpec<B>(t: TokenState, options: RequestOptions, api: seq<Attempt<B>>, auth: seq<TokenAttempt>,
                          now: int): (r: Run<B>)
    ensures r.apiUsed <= |api| && r.authUsed <= |auth|
  {
    var e := EnsureSpec(t, auth, now);
    if e.result.Err? then Run(Err(e.result.error), e.tokens, map[], 0, e.authUsed, e.delays, 0, 0)
    else
      var r := RetrySpec(e.tokens, InitialHeaders(e.tokens.access, options.headers), api, auth[e.authUsed..],
                         MaxRetriesOf(options), 1, now);
      r.(authUsed := e.authUsed + r.authUsed, delays := e.delays + r.delays)
  }

  /** `r`, seen from the attempts, sleeps and re-issues that came before it. */
  function Prefix<B>(i: nat, j: nat, ds: seq<int>, retries: nat, refreshes: nat, r: Run<B>): Run<B> {
    r.(apiUsed := r.apiUsed + i, authUsed := r.authUsed + j, delays := ds + r.delays,
       retries := r.retries + retries, refreshes := r.refreshes + refreshes)
  }

  lemma PrefixAfterSleep<B>(i: nat, j: nat, ds: seq<int>, retries: nat, refreshes: nat, d: int, r: Run<B>)
    ensures Prefix(i, j, ds, retries, refreshes, AfterSleep(d, r)) == Prefix(i + 1, j, ds + [d], retries + 1, refreshes, r)
  {
    assert ds + ([d] + r.delays) == (ds + [d]) + r.delays;
  }

  lemma PrefixAfterRefresh<B>(i: nat, j: nat, ds: seq<int>, retries: nat, refreshes: nat, rr: Step<TokenResponse>, r: Run<B>)
    ensures Prefix(i, j, ds, retries, refreshes, AfterRefresh(rr, r))
         == Prefix(i + 1, j + rr.authUsed, ds + rr.delays, retries, refreshes + 1, r)
  {
    assert ds + (rr.delays + r.delays) == (ds + rr.delays) + r.delays;
  }

  /** One refresh step of the recursion, seen from before it. */
  lemma RetryRefreshStep<B>(t: TokenState, headers: Headers, api: seq<Attempt<B>>, auth: seq<TokenAttempt>,
                            maxRetries: nat, attempt: nat, now: int)
    requires attempt >= 1 && api != [] && api[0].outcome.Failed?
    requires Decide(api[0].outcome.err, attempt, maxRetries, api[0].jitter) == Refresh
    requires RefreshSpec(t, auth, now).result.Ok?
    ensures var rr := RefreshSpec(t, auth, now);
      RetrySpec(t, headers, api, auth, maxRetries, attempt, now)
      == AfterRefresh(rr, RetrySpec(rr.tokens, headers["Authorization" := Bearer(rr.tokens.access)], api[1..],
                                    auth[rr.authUsed..], maxRetries, attempt, now))
  {
  }

  /** One sleep step of the recursion, seen from before it. */
  lemma RetrySleepStep<B>(t: TokenState, headers: Headers, api: seq<Attempt<B>>, auth: seq<TokenAttempt>,
                          maxRetries: nat, attempt: nat, now: int, d: int)
    requires attempt >= 1 && api != [] && api[0].outcome.Failed?
    requires Decide(api[0].outcome.err, attempt, maxRetries, api[0].jitter) == Sleep(d)
    ensures RetrySpec(t, headers, api, auth, maxRetries, attempt, now)
         == AfterSleep(d, RetrySpec(t, headers, api[1..], auth, maxRetries, attempt + 1, now))
  {
  }

  // ---------------------------------------------------------------------------
  // Catalog facade

  datatype CatalogCall = CatalogCall(httpMethod: string, path: string, params: seq<(string, Value)>, data: seq<(string, Value)>)

  datatype FacadeOp =
    | GetCurrentUser
    | GetUserPlaylists(userId: string, limit: Option<int>, offset: Option<int>)
    | GetPlaylist(playlistUuid: string)
    | GetPlaylistTracks(playlistUuid: string, limit: Option<int>, offset: Option<int>)
    | CreatePlaylist(title: string, description: Option<string>)
    | AddTracksToPlaylist(playlistUuid: string, trackIds: seq<string>)
    | GetTrack(trackId: string)
    | SearchTracks(query: string, limit: Option<int>)
    | GetFavoriteTracks(userId: string, limit: Option<int>, offset: Option<int>)
    | AddTrackToFavorites(trackId: string)
    | RemoveTrackFromFavorites(trackId: string)

  function OrDefault(n: Option<int>, d: int): int {
    if n.Some? then n.value else d
  }

  function ParamLookup(params: seq<(string, Value)>, key: string): Option<Value>
    decreases |params|
  {
    if params == [] then None
    else if params[0].0 == key then Some(params[0].1)
    else ParamLookup(params[1..], key)
  }

  /**
   * The request each facade method issues. Every GET carries countryCode 'NO' (hard-coded);
   * paging defaults are limit 50 and offset 0, search defaults to limit 10.
   */
  function Call(op: FacadeOp): (c: CatalogCall)
    ensures StartsWith(c.path, "/v2/")
    ensures c.httpMethod == "GET" ==> ParamLookup(c.params, "countryCode") == Some(Str("NO"))
    ensures c.httpMethod != "GET" ==> c.params == []
    ensures c.httpMethod == "GET" || c.httpMethod == "POST" || c.httpMethod == "DELETE"
  {
    match op
    case GetCurrentUser => CatalogCall("GET", "/v2/users/me", [("countryCode", Str("NO"))], [])
    case GetUserPlaylists(userId, limit, offset) =>
      CatalogCall("GET", "/v2/users/" + userId + "/playlists",
        [("countryCode", Str("NO")), ("limit", Num(OrDefault(limit, 50))), ("offset", Num(OrDefault(offset, 0)))], [])
    case GetPlaylist(uuid) => CatalogCall("GET", "/v2/playlists/" + uuid, [("countryCode", Str("NO"))], [])
    case GetPlaylistTracks(uuid, limit, offset) =>
      CatalogCall("GET", "/v2/playlists/" + uuid + "/items",
        [("countryCode", Str("NO")), ("limit", Num(OrDefault(limit, 50))), ("offset", Num(OrDefault(offset, 0)))], [])
    case CreatePlaylist(title, description) =>
      CatalogCall("POST", "/v2/playlists", [],
        [("title", Str(title)), ("description", Str(if description.Some? then description.value else ""))])
    case AddTracksToPlaylist(uuid, trackIds) =>
      CatalogCall("POST", "/v2/playlists/" + uuid + "/items", [], [("trackIds", Strs(trackIds))])
    case GetTrack(trackId) => CatalogCall("GET", "/v2/tracks/" + trackId, [("countryCode", Str("NO"))], [])
    case SearchTracks(query, limit) =>
      CatalogCall("GET", "/v2/searchresults/tracks",
        [("query", Str(query)), ("countryCode", Str("NO")), ("limit", Num(OrDefault(limit, 10)))], [])
    case GetFavoriteTracks(userId, limit, offset) =>
      CatalogCall("GET", "/v2/users/" + userId + "/favorites/tracks",
        [("countryCode", Str("NO")), ("limit", Num(OrDefault(limit, 50))), ("offset", Num(OrDefault(offset, 0)))], [])
    case AddTrackToFavorites(trackId) =>
      CatalogCall("POST", "/v2/users/me/favorites/tracks", [], [("trackId", Str(trackId))])
    case RemoveTrackFromFavorites(trackId) =>
      CatalogCall("DELETE", "/v2/users/me/favorites/tracks/" + trackId, [], [])
  }

  function CallOptions(c: CatalogCall): RequestOptions {
    RequestOptions(c.params, c.data, map[], None)
  }

  // ---------------------------------------------------------------------------
  // The client object

  class TidalApiClient {
    const clientId: string
    const clientSecret: string
    const redirectUri: string
    var accessToken: Option<string>
    var refreshToken: Option<string>
    var tokenExpiry: Option<int>

    function Tokens(): TokenState
      reads this
    {
      TokenState(accessToken, refreshToken, tokenExpiry)
    }

    /** A client starts with no tokens. */
    constructor (clientId: string, clientSecret: string, redirectUri: string)
      ensures this.clientId == clientId && this.clientSecret == clientSecret && this.redirectUri == redirectUri
      ensures Tokens() == TokenState(None, None, None)
    {
      this.clientId := clientId;
      this.clientSecret := clientSecret;
      this.redirectUri := redirectUri;
      accessToken := None;
      refreshToken := None;
      tokenExpiry := None;
    }

    function GetAuthUrl(state: string, codeChallenge: string): (u: AuthUrl)
      ensures u == AuthorizationUrl(clientId, redirectUri, state, codeChallenge)
    {
      AuthorizationUrl(clientId, redirectUri, state, codeChallenge)
    }

    method ExchangeCodeForTokens(code: string, codeVerifier: string, now: int, auth: seq<TokenAttempt>)
      returns (result: Result<TokenResponse, Failure>, posted: Form, authUsed: nat, delays: seq<int>)
      modifies this
      ensures posted == CodeForm(code, redirectUri, clientId, codeVerifier)
      ensures Step(result, Tokens(), authUsed, delays) == ExchangeSpec(old(Tokens()), auth, now)
    {
      posted := CodeForm(code, redirectUri, clientId, codeVerifier);
      result, authUsed, delays := TokenRequestWithRetry(auth, DefaultMaxRetries);
      if result.Ok? {
        accessToken := Some(result.value.accessToken);
        refreshToken := result.value.refreshToken;
        tokenExpiry := Some(ExpiryAt(now, result.value.expiresIn));
      }
    }

    method RefreshTokens(now: int, auth: seq<TokenAttempt>)
      returns (result: Result<TokenResponse, Failure>, posted: Form, authUsed: nat, delays: seq<int>)
      modifies this
      ensures Truthy(old(refreshToken)) ==> posted == RefreshForm(old(refreshToken).value, clientId)
      ensures !Truthy(old(refreshToken)) ==> posted == map[]
      ensures Step(result, Tokens(), authUsed, delays) == RefreshSpec(old(Tokens()), auth, now)
    {
      if !Truthy(refreshToken) {
        result, posted, authUsed, delays := Err(NoRefreshToken), map[], 0, [];
        return;
      }
      posted := RefreshForm(refreshToken.value, clientId);
      result, authUsed, delays := TokenRequestWithRetry(auth, DefaultMaxRetries);
      if result.Ok? {
        accessToken := Some(result.value.accessToken);
        if Truthy(result.value.refreshToken) {
          refreshToken := result.value.refreshToken;
        }
        tokenExpiry := Some(ExpiryAt(now, result.value.expiresIn));
      }
    }

    method EnsureValidToken(now: int, auth: seq<TokenAttempt>)
      returns (result: Result<bool, Failure>, authUsed: nat, delays: seq<int>)
      modifies this
      ensures Step(result, Tokens(), authUsed, delays) == EnsureSpec(old(Tokens()), auth, now)
    {
      if !Truthy(accessToken) {
        result, authUsed, delays := Err(NotAuthenticated), 0, [];
        return;
      }
      if tokenExpiry.Some? && tokenExpiry.value < now + RefreshWindowMs {
        var r, _, used, ds := RefreshTokens(now, auth);
        result := if r.Ok? then Ok(true) else Err(r.error);
        authUsed, delays := used, ds;
      } else {
        result, authUsed, delays := Ok(false), 0, [];
      }
    }

    /** `_requestWithRetry` with `attempt` starting at 1, as a loop that rewrites `headers` in place. */
    method RequestWithRetry<B>(headers0: Headers, api: seq<Attempt<B>>, auth: seq<TokenAttempt>, maxRetries: nat, now: int)
      returns (run: Run<B>)
      modifies this
      ensures run == RetrySpec(old(Tokens()), headers0, api, auth, maxRetries, 1, now)
      ensures Tokens() == run.tokens
    {
      var headers := headers0;
      var i, j, attempt := 0, 0, 1;
      var delays: seq<int> := [];
      var retries, refreshes := 0, 0;
      ghost var tokens := Tokens();
      ghost var rest := RetrySpec(tokens, headers, api, auth, maxRetries, attempt, now);
      assert api[0..] == api && auth[0..] == auth;
      while true
        invariant 0 <= i <= |api| && 0 <= j <= |auth| && attempt >= 1
        invariant tokens == Tokens()
        invariant rest == RetrySpec(tokens, headers, api[i..], auth[j..], maxRetries, attempt, now)
        invariant RetrySpec(old(Tokens()), headers0, api, auth, maxRetries, 1, now) == Prefix(i, j, delays, retries, refreshes, rest)
        decreases |api| - i
      {
        if i == |api| {
          run := Run(Err(ApiScriptExhausted), Tokens(), headers, i, j, delays, retries, refreshes);
          return;
        }
        var a := api[i];
        assert api[i..][0] == a && api[i..][1..] == api[i + 1..];
        match a.outcome {
          case Delivered(body) =>
            run := Run(Ok(body), Tokens(), headers, i + 1, j, delays, retries, refreshes);
            return;
          case Failed(e) =>
            var act := Decide(e, attempt, maxRetries, a.jitter);
            match act {
              case Refresh =>
                var res, _, used, ds := RefreshTokens(now, auth[j..]);
                ghost var rr := RefreshSpec(tokens, auth[j..], now);
                if res.Err? {
                  run := Run(Err(res.error), Tokens(), headers, i + 1, j + used, delays + ds, retries, refreshes);
                  return;
                }
                RetryRefreshStep(tokens, headers, api[i..], auth[j..], maxRetries, attempt, now);
                tokens := Tokens();
                headers := headers["Authorization" := Bearer(accessToken)];
                assert auth[j..][used..] == auth[j + used..];
                ghost var next := RetrySpec(tokens, headers, api[i + 1..], auth[j + used..], maxRetries, attempt, now);
                PrefixAfterRefresh(i, j, delays, retries, refreshes, rr, next);
                i, j, delays, refreshes := i + 1, j + used, delays + ds, refreshes + 1;
                rest := next;
              case Sleep(d) =>
                RetrySleepStep(tokens, headers, api[i..], auth[j..], maxRetries, attempt, now, d);
                ghost var next := RetrySpec(tokens, headers, api[i + 1..], auth[j..], maxRetries, attempt + 1, now);
                PrefixAfterSleep(i, j, delays, retries, refreshes, d, next);
                delays := delays + [d];
                i, attempt, retries := i + 1, attempt + 1, retries + 1;
                rest := next;
              case Stop(f) =>
                run := Run(Err(f), Tokens(), headers, i + 1, j, delays, retries, refreshes);
                return;
            }
        }
      }
    }

    /** `request(method, url, options)`. */
    method Request<B>(httpMethod: string, url: string, options: RequestOptions, now: int,
                      api: seq<Attempt<B>>, auth: seq<TokenAttempt>)
      returns (run: Run<B>, fullUrl: string)
      modifies this
      ensures fullUrl == FullUrl(url)
      ensures run == RequestSpec(old(Tokens()), options, api, auth, now)
      ensures Tokens() == run.tokens
    {
      var ok, used, ds := EnsureValidToken(now, auth);
      fullUrl := FullUrl(url);
      if ok.Err? {
        run := Run(Err(ok.error), Tokens(), map[], 0, used, ds, 0, 0);
        return;
      }
      var headers := InitialHeaders(accessToken, options.headers);
      var r := RequestWithRetry(headers, api, auth[used..], MaxRetriesOf(options), now);
      run := r.(authUsed := used + r.authUsed, delays := ds + r.delays);
    }

    /** A catalog facade method: the call it builds, issued through `request`. */
    method Perform<B>(op: FacadeOp, now: int, api: seq<Attempt<B>>, auth: seq<TokenAttempt>)
      returns (run: Run<B>, fullUrl: string)
      modifies this
      ensures fullUrl == FullUrl(Call(op).path)
      ensures run == RequestSpec(old(Tokens()), CallOptions(Call(op)), api, auth, now)
      ensures Tokens() == run.tokens
    {
      var c := Call(op);
      run, fullUrl := Request(c.httpMethod, c.path, CallOptions(c), now, api, auth);
    }

    /**
     * `setTokensForTesting`: stores its three arguments verbatim. The expiry argument is a number
     * of milliseconds, so 0 is stored as the falsy value it is.
     */
    method SetTokensForTesting(access: Option<string>, refresh: Option<string>, expiry: Option<int>)
      modifies this
      ensures Tokens() == TokenState(access, refresh, if TruthyNum(expiry) then expiry else None)
    {
      accessToken, refreshToken := access, refresh;
      tokenExpiry := if TruthyNum(expiry) then expiry else None;
    }

    method GetAccessToken() returns (access: Option<string>)
      ensures access == accessToken
    {
      access := accessToken;
    }
  }
}
