/**
 * The shared client instance of netlify/functions/tidal/index.js and the three functions the
 * module attaches to it: `setTokensFromCookies`, `needsRefresh` and `setTokens`.
 */
module TidalSingleton {
  import opened Common
  import opened ClientRetry
  import opened TidalClient

  /** The token fields of a `setTokens(tokenData)` argument. */
  datatype TokenData = TokenData(accessToken: Option<string>, refreshToken: Option<string>, expiresIn: Option<int>)

  /**
   * `setTokensFromCookies(access, refresh, expiresIn)`: both tokens are stored as given
   * (absent included); the expiry is recomputed only for a truthy `expiresIn`.
   */
  function CookieTokens(t: TokenState, access: Option<string>, refresh: Option<string>, expiresIn: Option<int>,
                        now: int): (r: TokenState)
    ensures r.access == access && r.refresh == refresh
    ensures TruthyNum(expiresIn) ==> r.expiry == Some(ExpiryAt(now, expiresIn.value))
    ensures !TruthyNum(expiresIn) ==> r.expiry == t.expiry
  {
    TokenState(access, refresh, if TruthyNum(expiresIn) then Some(ExpiryAt(now, expiresIn.value)) else t.expiry)
  }

  /** `setTokens(tokenData)`: each field is replaced only when the corresponding datum is truthy. */
  function MergeTokens(t: TokenState, d: TokenData, now: int): (r: TokenState)
    ensures r.access == (if Truthy(d.accessToken) then d.accessToken else t.access)
    ensures r.refresh == (if Truthy(d.refreshToken) then d.refreshToken else t.refresh)
    ensures r.expiry == (if TruthyNum(d.expiresIn) then Some(ExpiryAt(now, d.expiresIn.value)) else t.expiry)
  {
    TokenState(
      if Truthy(d.accessToken) then d.accessToken else t.access,
      if Truthy(d.refreshToken) then d.refreshToken else t.refresh,
      if TruthyNum(d.expiresIn) then Some(ExpiryAt(now, d.expiresIn.value)) else t.expiry)
  }

  /**
   * `needsRefresh()`: true without an access token; false without an expiry; otherwise
   * whether the token expires strictly before five minutes from now.
   */
  predicate NeedsRefresh(t: TokenState, now: int): (b: bool)
    ensures !Truthy(t.access) ==> b
    ensures Truthy(t.access) ==> (b <==> ExpiringSoon(t, now))
  {
    if !Truthy(t.access) then true
    else if t.expiry.None? then false
    else t.expiry.value < now + RefreshWindowMs
  }

  method SetTokensFromCookies(c: TidalApiClient, access: Option<string>, refresh: Option<string>,
                              expiresIn: Option<int>, now: int)
    modifies c
    ensures c.Tokens() == CookieTokens(old(c.Tokens()), access, refresh, expiresIn, now)
  {
    c.accessToken := access;
    c.refreshToken := refresh;
    if TruthyNum(expiresIn) {
      c.tokenExpiry := Some(ExpiryAt(now, expiresIn.value));
    }
  }

  method SetTokens(c: TidalApiClient, d: TokenData, now: int)
    modifies c
    ensures c.Tokens() == MergeTokens(old(c.Tokens()), d, now)
  {
    if Truthy(d.accessToken) {
      c.accessToken := d.accessToken;
    }
    if Truthy(d.refreshToken) {
      c.refreshToken := d.refreshToken;
    }
    if TruthyNum(d.expiresIn) {
      c.tokenExpiry := Some(ExpiryAt(now, d.expiresIn.value));
    }
  }

  method GetNeedsRefresh(c: TidalApiClient, now: int) returns (b: bool)
    ensures b == NeedsRefresh(c.Tokens(), now)
  {
    if !Truthy(c.accessToken) {
      return true;
    }
    if c.tokenExpiry.None? {
      return false;
    }
    b := c.tokenExpiry.value < now + RefreshWindowMs;
  }

  // ---------------------------------------------------------------------------
  // Properties

  /** `needsRefresh()` and `ensureValidToken()` agree: with an access token, one says "refresh" exactly when the other refreshes. */
  lemma NeedsRefreshAgreesWithEnsure(t: TokenState, auth: seq<TokenAttempt>, now: int)
    ensures !Truthy(t.access) ==> NeedsRefresh(t, now) && EnsureSpec(t, auth, now).result == Err(NotAuthenticated)
    ensures Truthy(t.access) ==> (NeedsRefresh(t, now) <==> ExpiringSoon(t, now))
    ensures Truthy(t.access) && !NeedsRefresh(t, now) ==> EnsureSpec(t, auth, now) == Step(Ok(false), t, 0, [])
    ensures Truthy(t.access) && NeedsRefresh(t, now) && RefreshSpec(t, auth, now).result.Ok? ==>
      EnsureSpec(t, auth, now).result == Ok(true)
  {
  }

  /**
   * `setTokensForTesting(access, refresh, 0)` leaves a falsy `tokenExpiry`: with an access token,
   * neither `needsRefresh()` nor `ensureValidToken()` ever asks for a new token afterwards.
   */
  method ZeroExpiryNeverRefreshes(c: TidalApiClient, access: Option<string>, refresh: Option<string>,
                                 auth: seq<TokenAttempt>, now: int)
    requires Truthy(access)
    modifies c
    ensures c.Tokens() == TokenState(access, refresh, None)
    ensures !NeedsRefresh(c.Tokens(), now)
    ensures EnsureSpec(c.Tokens(), auth, now) == Step(Ok(false), c.Tokens(), 0, [])
  {
    c.SetTokensForTesting(access, refresh, Some(0));
  }

  /** Tokens set from cookies with a truthy lifetime need a refresh exactly when that lifetime is under five minutes. */
  lemma CookieTokensNeedRefresh(t: TokenState, access: Option<string>, refresh: Option<string>, expiresIn: Option<int>, now: int)
    requires Truthy(access) && TruthyNum(expiresIn)
    ensures NeedsRefresh(CookieTokens(t, access, refresh, expiresIn, now), now) <==> expiresIn.value < 300
  {
  }

  /** `setTokens({})` changes nothing. */
  lemma MergeNothing(t: TokenState, now: int)
    ensures MergeTokens(t, TokenData(None, None, None), now) == t
  {
  }

  /** Applying the same token data twice at the same instant is applying it once. */
  lemma MergeIdempotent(t: TokenState, d: TokenData, now: int)
    ensures MergeTokens(MergeTokens(t, d, now), d, now) == MergeTokens(t, d, now)
  {
  }

  /** A complete token datum overrides every field, whatever the client held before. */
  lemma MergeCompleteOverrides(t: TokenState, d: TokenData, now: int)
    requires Truthy(d.accessToken) && Truthy(d.refreshToken) && TruthyNum(d.expiresIn)
    ensures MergeTokens(t, d, now) == TokenState(d.accessToken, d.refreshToken, Some(ExpiryAt(now, d.expiresIn.value)))
  {
  }
}
