/**
 * netlify/functions/auth-tidal.js: a client-credentials access token (section 4.4 of RFC 6749)
 * kept in two module-level variables and served until one minute before it expires.
 *
 * The token endpoint's answer is a parameter; the clock reading `Date.now()` is `now`.
 */
module AuthCache {
  import opened Common
  import opened Forms

  const TokenEndpoint := "https://auth.tidal.com/v1/oauth2/token"
  const ExpiryBufferMs := 60000

  /** What `fetch` gave: a response (its status and, when ok, its JSON fields), or a thrown error. */
  datatype FetchOutcome =
    | Answered(status: int, accessToken: Option<string>, expiresIn: int)
    | FetchThrew(message: string)

  /** `authResponse.ok`. */
  predicate IsOk(status: int) {
    200 <= status <= 299
  }

  /** The JSON body of a 200 answer, or of the 500 answer. */
  datatype AuthBody =
    | TokenJson(accessToken: Option<string>, expiresIn: int)
    | ErrorJson(error: string, message: string)

  datatype AuthResponse = AuthResponse(status: int, body: AuthBody)

  /** `cachedToken` and `tokenExpiry`. */
  datatype CacheState = CacheState(token: Option<string>, expiry: Option<int>)

  const EmptyCache := CacheState(None, None)

  /** The three-part cache test of the handler. */
  predicate Hit(c: CacheState, now: int) {
    Truthy(c.token) && TruthyNum(c.expiry) && now < c.expiry.value
  }

  /** The form of the client-credentials request. */
  function CredentialsForm(clientId: string, clientSecret: string): (f: Form)
    ensures f.Keys == {GrantType, ClientId, ClientSecret, Scope}
    ensures f[GrantType] == "client_credentials" && f[Scope] == "r_usr"
    ensures f[ClientId] == clientId && f[ClientSecret] == clientSecret
  {
    map[GrantType := "client_credentials", ClientId := clientId, ClientSecret := clientSecret, Scope := "r_usr"]
  }

  function FailedMessage(status: int): string {
    "Authentication failed: " + IntToString(status)
  }

  /** The answer, the new cache, and whether the token endpoint was asked. */
  datatype CacheRun = CacheRun(response: AuthResponse, cache: CacheState, requested: bool)

  /** `handler()` against the cache `c` at instant `now`. */
  function HandleSpec(c: CacheState, now: int, fetched: FetchOutcome): (r: CacheRun)
    ensures r.requested <==> !Hit(c, now)
    ensures r.response.status == 200 || r.response.status == 500
    ensures r.response.status == 500 ==> r.cache == c
  {
    if Hit(c, now) then
      CacheRun(AuthResponse(200, TokenJson(c.token, (c.expiry.value - now) / 1000)), c, false)
    else
      match fetched
      case FetchThrew(m) => CacheRun(AuthResponse(500, ErrorJson("Authentication failed", m)), c, true)
      case Answered(status, token, expiresIn) =>
        if !IsOk(status) then
          CacheRun(AuthResponse(500, ErrorJson("Authentication failed", FailedMessage(status))), c, true)
        else
          var c' := CacheState(token, Some(now + expiresIn * 1000 - ExpiryBufferMs));
          CacheRun(AuthResponse(200, TokenJson(token, expiresIn)), c', true)
  }

  /** The module-level cache of the function's instance. */
  class TokenCache {
    var cachedToken: Option<string>
    var tokenExpiry: Option<int>

    function State(): CacheState
      reads this
    {
      CacheState(cachedToken, tokenExpiry)
    }

    constructor ()
      ensures State() == EmptyCache
    {
      cachedToken := None;
      tokenExpiry := None;
    }

    /** `handler()`: `posted` is the form sent to the token endpoint, if any. */
    method Handle(now: int, clientId: string, clientSecret: string, fetched: FetchOutcome)
      returns (response: AuthResponse, posted: Option<Form>)
      modifies this
      ensures var r := HandleSpec(old(State()), now, fetched);
        response == r.response && State() == r.cache
        && posted == (if r.requested then Some(CredentialsForm(clientId, clientSecret)) else None)
    {
      if Truthy(cachedToken) && TruthyNum(tokenExpiry) && now < tokenExpiry.value {
        return AuthResponse(200, TokenJson(cachedToken, (tokenExpiry.value - now) / 1000)), None;
      }
      posted := Some(CredentialsForm(clientId, clientSecret));
      match fetched {
        case FetchThrew(m) =>
          response := AuthResponse(500, ErrorJson("Authentication failed", m));
        case Answered(status, token, expiresIn) =>
          if !IsOk(status) {
            response := AuthResponse(500, ErrorJson("Authentication failed", FailedMessage(status)));
          } else {
            cachedToken := token;
            tokenExpiry := Some(now + expiresIn * 1000 - ExpiryBufferMs);
            response := AuthResponse(200, TokenJson(cachedToken, expiresIn));
          }
      }
    }
  }

  // ---------------------------------------------------------------------------
  // Properties

  /**
   * A hit serves the cached token, changes nothing and reports the whole seconds left:
   * the reported lifetime rounds the remaining milliseconds down.
   */
  lemma HitReportsWholeSecondsLeft(c: CacheState, now: int, fetched: FetchOutcome)
    requires Hit(c, now)
    ensures var r := HandleSpec(c, now, fetched);
      r.cache == c && r.response.status == 200 && r.response.body.accessToken == c.token
      && r.response.body.expiresIn >= 0
      && r.response.body.expiresIn * 1000 <= c.expiry.value - now < (r.response.body.expiresIn + 1) * 1000
  {
  }

  /**
   * A miss answered ok caches the new token one minute short of its lifetime, yet reports the
   * server's own `expires_in`.
   */
  lemma MissCachesWithBuffer(c: CacheState, now: int, status: int, token: Option<string>, expiresIn: int)
    requires !Hit(c, now) && IsOk(status)
    ensures var r := HandleSpec(c, now, Answered(status, token, expiresIn));
      r.cache == CacheState(token, Some(now + expiresIn * 1000 - ExpiryBufferMs))
      && r.response == AuthResponse(200, TokenJson(token, expiresIn))
  {
  }

  /** A failed token request is answered 500 with the status in the message, and the cache is kept. */
  lemma FailureKeepsCache(c: CacheState, now: int, status: int, token: Option<string>, expiresIn: int)
    requires !Hit(c, now) && !IsOk(status)
    ensures var r := HandleSpec(c, now, Answered(status, token, expiresIn));
      r.cache == c && r.response == AuthResponse(500, ErrorJson("Authentication failed", FailedMessage(status)))
      && ParseInt(FailedMessage(status)[|"Authentication failed: "|..]) == Some(status)
  {
    ParseIntRoundTrip(status);
    assert FailedMessage(status)[|"Authentication failed: "|..] == IntToString(status);
  }

  /**
   * After a fresh token of `expiresIn` seconds is fetched at `t0`, a later call at `t1` is a
   * hit exactly while `t1` is more than a minute before the token's real expiry, and reports
   * the whole seconds of that buffered remainder.
   */
  lemma FetchThenHit(c: CacheState, t0: int, status: int, token: string, expiresIn: int, t1: int, later: FetchOutcome)
    requires !Hit(c, t0) && IsOk(status) && token != []
    requires t0 + expiresIn * 1000 - ExpiryBufferMs != 0
    ensures var c1 := HandleSpec(c, t0, Answered(status, Some(token), expiresIn)).cache;
      var left := t0 + expiresIn * 1000 - ExpiryBufferMs - t1;
      && (Hit(c1, t1) <==> left > 0)
      && (Hit(c1, t1) ==> HandleSpec(c1, t1, later).response == AuthResponse(200, TokenJson(Some(token), left / 1000)))
  {
  }

  /** A token that lives one minute or less is never served from the cache at or after its fetch. */
  lemma ShortLivedTokenNeverCached(c: CacheState, t0: int, status: int, token: Option<string>, expiresIn: int,
                                   t1: int)
    requires !Hit(c, t0) && IsOk(status) && expiresIn <= 60 && t1 >= t0
    ensures !Hit(HandleSpec(c, t0, Answered(status, token, expiresIn)).cache, t1)
  {
  }
}
