/**
 * What TidalApiClient promises about a request, stated over the specification functions of
 * module TidalClient (and therefore about its methods, which are proved equal to them).
 */
module ClientProperties {
  import opened Common
  import opened ClientRetry
  import opened TidalClient

  /** No attempt of the catalog script is a 401 the client refreshes on. */
  predicate No401Refresh<B>(api: seq<Attempt<B>>) {
    forall k :: 0 <= k < |api| ==> !(api[k].outcome.Failed? && IsRefreshable401(api[k].outcome.err))
  }

  /**
   * Accounting of one request: at most `maxRetries` re-issues after a 429 or a retriable
   * error from attempt 1; every catalog attempt but the last was followed by a sleep or a
   * refresh; each refresh cost at least one token-endpoint attempt.
   */
  lemma {:induction false} RetryAccounting<B>(t: TokenState, headers: Headers, api: seq<Attempt<B>>,
                                              auth: seq<TokenAttempt>, maxRetries: nat, attempt: nat, now: int)
    requires attempt >= 1
    ensures var r := RetrySpec(t, headers, api, auth, maxRetries, attempt, now);
      && r.retries <= RetryBudget(maxRetries, attempt)
      && r.apiUsed == r.retries + r.refreshes + (if r.result == Err(ApiScriptExhausted) then 0 else 1)
      && r.refreshes <= r.authUsed
    decreases |api|
  {
    if api != [] && api[0].outcome.Failed? {
      match Decide(api[0].outcome.err, attempt, maxRetries, api[0].jitter)
      case Refresh =>
        var rr := RefreshSpec(t, auth, now);
        if rr.result.Ok? {
          RetryAccounting(rr.tokens, headers["Authorization" := Bearer(rr.tokens.access)], api[1..],
                          auth[rr.authUsed..], maxRetries, attempt, now);
        }
      case Sleep(_) =>
        RetryAccounting(t, headers, api[1..], auth, maxRetries, attempt + 1, now);
      case Stop(_) =>
    }
  }

  /**
   * Without a refreshable 401 a request never touches the token endpoint: the tokens and the
   * headers come back unchanged.
   */
  lemma {:induction false} NoRefreshWithout401<B>(t: TokenState, headers: Headers, api: seq<Attempt<B>>,
                                                  auth: seq<TokenAttempt>, maxRetries: nat, attempt: nat, now: int)
    requires attempt >= 1 && No401Refresh(api)
    ensures var r := RetrySpec(t, headers, api, auth, maxRetries, attempt, now);
      r.tokens == t && r.headers == headers && r.authUsed == 0 && r.refreshes == 0
    decreases |api|
  {
    if api != [] && api[0].outcome.Failed? {
      assert !IsRefreshable401(api[0].outcome.err);
      NoRefreshWithout401(t, headers, api[1..], auth, maxRetries, attempt + 1, now);
    }
  }

  /**
   * The Authorization header after a request: unchanged when no refresh happened, otherwise
   * the bearer of the token the client now holds; every other header is left as it was.
   */
  lemma {:induction false} HeadersTrackToken<B>(t: TokenState, headers: Headers, api: seq<Attempt<B>>,
                                                auth: seq<TokenAttempt>, maxRetries: nat, attempt: nat, now: int)
    requires attempt >= 1
    ensures var r := RetrySpec(t, headers, api, auth, maxRetries, attempt, now);
      && (r.refreshes == 0 ==> r.tokens == t && r.headers == headers)
      && (r.refreshes > 0 ==> r.headers == headers["Authorization" := Bearer(r.tokens.access)])
    decreases |api|
  {
    if api != [] && api[0].outcome.Failed? {
      match Decide(api[0].outcome.err, attempt, maxRetries, api[0].jitter)
      case Refresh =>
        var rr := RefreshSpec(t, auth, now);
        if rr.result.Ok? {
          var h := headers["Authorization" := Bearer(rr.tokens.access)];
          HeadersTrackToken(rr.tokens, h, api[1..], auth[rr.authUsed..], maxRetries, attempt, now);
          var r := RetrySpec(rr.tokens, h, api[1..], auth[rr.authUsed..], maxRetries, attempt, now);
          assert h["Authorization" := Bearer(r.tokens.access)] == headers["Authorization" := Bearer(r.tokens.access)];
        }
      case Sleep(_) =>
        HeadersTrackToken(t, headers, api[1..], auth, maxRetries, attempt + 1, now);
      case Stop(_) =>
    }
  }

  /** A catalog attempt answered by 429 (a 429 is never a refreshable 401). */
  predicate Is429<B>(a: Attempt<B>) {
    a.outcome.Failed? && a.outcome.err.Response? && a.outcome.err.status == 429
  }

  /**
   * A server that answers every attempt with 429 gets maxRetries + 1 attempts from attempt 1
   * with a sleep between each two, and the request fails with 'Rate limit exceeded'.
   */
  lemma {:induction false} PersistentRateLimit<B>(t: TokenState, headers: Headers, api: seq<Attempt<B>>,
                                                  auth: seq<TokenAttempt>, maxRetries: nat, attempt: nat, now: int)
    requires 1 <= attempt <= maxRetries + 1
    requires |api| >= maxRetries + 2 - attempt
    requires forall k :: 0 <= k < |api| ==> Is429(api[k])
    ensures var r := RetrySpec(t, headers, api, auth, maxRetries, attempt, now);
      && r.result == Err(RateLimitExceeded(maxRetries))
      && r.apiUsed == maxRetries + 2 - attempt
      && |r.delays| == maxRetries + 1 - attempt
      && r.tokens == t && r.authUsed == 0
    decreases |api|
  {
    assert Is429(api[0]);
    if attempt <= maxRetries {
      PersistentRateLimit(t, headers, api[1..], auth, maxRetries, attempt + 1, now);
    }
  }

  /**
   * A transport error or 5xx that keeps recurring is re-tried maxRetries times from attempt 1
   * and then surfaces as itself (or as the body's `error` message), as the ENOTFOUND case of
   * the client's tests expects.
   */
  lemma {:induction false} PersistentRetriableError<B>(t: TokenState, headers: Headers, api: seq<Attempt<B>>,
                                                       auth: seq<TokenAttempt>, maxRetries: nat, attempt: nat,
                                                       now: int, e: HttpError)
    requires 1 <= attempt <= maxRetries + 1
    requires IsRetriableError(e) && !IsRateLimited(e) && !IsRefreshable401(e)
    requires |api| >= maxRetries + 2 - attempt
    requires forall k :: 0 <= k < |api| ==> api[k].outcome == Failed(e)
    ensures var r := RetrySpec(t, headers, api, auth, maxRetries, attempt, now);
      && r.result == Err(TerminalFailure(e))
      && r.apiUsed == maxRetries + 2 - attempt
      && |r.delays| == maxRetries + 1 - attempt
    decreases |api|
  {
    assert api[0].outcome == Failed(e);
    if attempt <= maxRetries {
      PersistentRetriableError(t, headers, api[1..], auth, maxRetries, attempt + 1, now, e);
    }
  }

  /** A transport error with any other code (CERT_UNTRUSTED, say) is thrown at once, without a sleep. */
  lemma NonRetriableNetworkErrorIsImmediate<B>(t: TokenState, headers: Headers, api: seq<Attempt<B>>,
                                               auth: seq<TokenAttempt>, maxRetries: nat, attempt: nat, now: int)
    requires attempt >= 1 && api != []
    requires api[0].outcome.Failed? && api[0].outcome.err.Network? && api[0].outcome.err.code !in RetriableCodes
    ensures RetrySpec(t, headers, api, auth, maxRetries, attempt, now)
         == Run(Err(Thrown(api[0].outcome.err)), t, headers, 1, 0, [], 0, 0)
  {
  }

  predicate NoRetryAfterIn<B>(script: seq<Attempt<B>>) {
    forall k :: 0 <= k < |script| ==> NoRetryAfter(script[k])
  }

  /**
   * With the jitter in [0, 1000) and no Retry-After header, every sleep of a request (the
   * token requests of its refreshes included) lies in [1000, 30000] milliseconds.
   */
  lemma {:induction false} RequestDelaysBounded<B>(t: TokenState, headers: Headers, api: seq<Attempt<B>>,
                                                   auth: seq<TokenAttempt>, maxRetries: nat, attempt: nat, now: int)
    requires attempt >= 1
    requires AllJittersValid(api) && AllJittersValid(auth) && NoRetryAfterIn(api) && NoRetryAfterIn(auth)
    ensures forall d :: d in RetrySpec(t, headers, api, auth, maxRetries, attempt, now).delays ==> BaseDelayMs <= d <= MaxDelayMs
    decreases |api|
  {
    if api != [] && api[0].outcome.Failed? {
      assert 0 <= api[0].jitter < MaxJitterMs && NoRetryAfter(api[0]);
      assert AllJittersValid(api[1..]) && NoRetryAfterIn(api[1..]) by {
        forall k | 0 <= k < |api[1..]| ensures 0 <= api[1..][k].jitter < MaxJitterMs && NoRetryAfter(api[1..][k]) {
          assert api[1..][k] == api[k + 1];
        }
      }
      match Decide(api[0].outcome.err, attempt, maxRetries, api[0].jitter)
      case Refresh =>
        var rr := RefreshSpec(t, auth, now);
        if Truthy(t.refresh) {
          TokenDelaysBounded(auth, DefaultMaxRetries, 1);
        }
        if rr.result.Ok? {
          var rest := auth[rr.authUsed..];
          assert AllJittersValid(rest) && NoRetryAfterIn(rest) by {
            forall k | 0 <= k < |rest| ensures 0 <= rest[k].jitter < MaxJitterMs && NoRetryAfter(rest[k]) {
              assert rest[k] == auth[rr.authUsed + k];
            }
          }
          RequestDelaysBounded(rr.tokens, headers["Authorization" := Bearer(rr.tokens.access)], api[1..],
                               rest, maxRetries, attempt, now);
        }
      case Sleep(d) =>
        RequestDelaysBounded(t, headers, api[1..], auth, maxRetries, attempt + 1, now);
      case Stop(_) =>
    }
  }

  /** A refresh that succeeds with a positive `expires_in` leaves an expiry later than now. */
  lemma RefreshedTokenExpiresLater(t: TokenState, auth: seq<TokenAttempt>, now: int)
    requires RefreshSpec(t, auth, now).result.Ok? && RefreshSpec(t, auth, now).result.value.expiresIn > 0
    ensures RefreshSpec(t, auth, now).tokens.expiry.value > now
    ensures RefreshSpec(t, auth, now).tokens.access == Some(RefreshSpec(t, auth, now).result.value.accessToken)
  {
  }

  // ---------------------------------------------------------------------------
  // Scenarios

  const Expired401: HttpError := Response(401, Some(ErrorData(Some(ExpiredTokenSubStatus), None, None)), None)

  /**
   * Reactive refresh: a valid token, a catalog that answers 401 with sub-status 6004 once and
   * then 200, and a token endpoint that issues NEW2. Two catalog calls, one token call, the
   * body returned, and the second call carries `Bearer NEW2`.
   */
  lemma ReactiveRefreshScenario<B>(body: B, now: int)
    ensures var t := TokenState(Some("OLD"), Some("R"), Some(now + 3600 * 1000));
      var api := [Attempt(Failed(Expired401), 0), Attempt(Delivered(body), 0)];
      var auth := [Attempt(Delivered(TokenResponse("NEW2", None, 3600)), 0)];
      var r := RequestSpec(t, RequestOptions([], [], map[], None), api, auth, now);
      && r.result == Ok(body) && r.apiUsed == 2 && r.authUsed == 1 && r.refreshes == 1
      && r.tokens.access == Some("NEW2") && r.tokens.refresh == Some("R")
      && "Authorization" in r.headers && r.headers["Authorization"] == "Bearer NEW2"
  {
    var t := TokenState(Some("OLD"), Some("R"), Some(now + 3600 * 1000));
    var api := [Attempt(Failed(Expired401), 0), Attempt(Delivered(body), 0)];
    var auth := [Attempt(Delivered(TokenResponse("NEW2", None, 3600)), 0)];
    assert !ExpiringSoon(t, now);
    assert EnsureSpec(t, auth, now) == Step(Ok(false), t, 0, []);
    var h0 := InitialHeaders(Some("OLD"), map[]);
    assert auth[0..] == auth;
    assert Decide(Expired401, 1, DefaultMaxRetries, 0) == Refresh;
    assert TokenRequestSpec(auth, DefaultMaxRetries, 1) == TokenRun(Ok(TokenResponse("NEW2", None, 3600)), 1, []);
    var t1 := TokenState(Some("NEW2"), Some("R"), Some(now + 3600 * 1000));
    assert RefreshSpec(t, auth, now) == Step(Ok(TokenResponse("NEW2", None, 3600)), t1, 1, []);
    assert Bearer(Some("NEW2")) == "Bearer NEW2";
    var h1 := h0["Authorization" := "Bearer NEW2"];
    RetryRefreshStep(t, h0, api, auth, DefaultMaxRetries, 1, now);
    assert api[1..] == [Attempt(Delivered(body), 0)];
    assert auth[1..] == [];
    assert RetrySpec(t1, h1, api[1..], auth[1..], DefaultMaxRetries, 1, now) == Run(Ok(body), t1, h1, 1, 0, [], 0, 0);
    assert RetrySpec(t, h0, api, auth, DefaultMaxRetries, 1, now) == Run(Ok(body), t1, h1, 2, 1, [], 0, 1);
  }

  /**
   * Proactive refresh: a token that expires in 270 s is refreshed before the catalog call;
   * one token call, one catalog call, the request carries the new token.
   */
  lemma ProactiveRefreshScenario<B>(body: B, now: int)
    ensures var t := TokenState(Some("OLD"), Some("R"), Some(now + 270 * 1000));
      var api := [Attempt(Delivered(body), 0)];
      var auth := [Attempt(Delivered(TokenResponse("NEW", Some("R"), 3600)), 0)];
      var r := RequestSpec(t, RequestOptions([], [], map[], None), api, auth, now);
      && r.result == Ok(body) && r.apiUsed == 1 && r.authUsed == 1 && r.refreshes == 0
      && r.tokens.access == Some("NEW") && "Authorization" in r.headers && r.headers["Authorization"] == "Bearer NEW"
  {
    var t := TokenState(Some("OLD"), Some("R"), Some(now + 270 * 1000));
    assert ExpiringSoon(t, now);
  }

  /**
   * An invalid refresh token: the catalog answers 401 (6004) and the token endpoint 400
   * invalid_grant. The token request's error is rethrown unchanged, as the same 400 response
   * carrying 'invalid_grant' rather than an ApiError, and the catalog request passes it on. No
   * further catalog call is made and the tokens are unchanged.
   */
  lemma InvalidRefreshTokenScenario<B>(more: seq<Attempt<B>>, now: int)
    ensures var t := TokenState(Some("OLD"), Some("R"), Some(now + 3600 * 1000));
      var grantError := Response(400, Some(ErrorData(None, None, Some("invalid_grant"))), None);
      var api := [Attempt(Failed(Expired401), 0)] + more;
      var auth := [Attempt(Failed(grantError), 0)];
      var r := RequestSpec(t, RequestOptions([], [], map[], None), api, auth, now);
      && r.result == Err(Thrown(grantError)) && r.apiUsed == 1 && r.authUsed == 1 && r.tokens == t
  {
    var t := TokenState(Some("OLD"), Some("R"), Some(now + 3600 * 1000));
    assert !ExpiringSoon(t, now);
  }

  // ---------------------------------------------------------------------------
  // Repeated refreshes

  /** `n` catalog attempts answered 401 with sub-status 6004. */
  function Expired401s<B>(n: nat): (s: seq<Attempt<B>>)
    ensures |s| == n && forall k :: 0 <= k < n ==> s[k] == Attempt(Failed(Expired401), 0)
  {
    seq(n, k => Attempt(Failed(Expired401), 0))
  }

  /** `n` token-endpoint attempts that each issue `access` for `expiresIn` seconds, without a new refresh token. */
  function Grants(n: nat, access: string, expiresIn: int): (s: seq<TokenAttempt>)
    ensures |s| == n && forall k :: 0 <= k < n ==> s[k] == Attempt(Delivered(TokenResponse(access, None, expiresIn)), 0)
  {
    seq(n, k => Attempt(Delivered(TokenResponse(access, None, expiresIn)), 0))
  }

  /**
   * As written, the 401 path re-issues at the same attempt with no bound: n refreshable 401s
   * in a row cost n refreshes, whatever `maxRetries` is, and the request still succeeds.
   */
  lemma {:induction false} RepeatedRefreshesAsWritten<B>(n: nat, body: B, t: TokenState, headers: Headers,
                                                         maxRetries: nat, attempt: nat, access: string,
                                                         expiresIn: int, now: int)
    requires attempt >= 1 && Truthy(t.refresh)
    ensures var r := RetrySpec(t, headers, Expired401s(n) + [Attempt(Delivered(body), 0)],
                               Grants(n, access, expiresIn), maxRetries, attempt, now);
      r.result == Ok(body) && r.refreshes == n && r.apiUsed == n + 1 && r.authUsed == n
    decreases n
  {
    var api := Expired401s(n) + [Attempt(Delivered(body), 0)];
    var auth := Grants(n, access, expiresIn);
    if n > 0 {
      assert api[0] == Attempt(Failed(Expired401), 0);
      assert api[1..] == Expired401s(n - 1) + [Attempt(Delivered(body), 0)];
      var rr := RefreshSpec(t, auth, now);
      assert auth[1..] == Grants(n - 1, access, expiresIn);
      assert rr.authUsed == 1 && rr.result.Ok?;
      RepeatedRefreshesAsWritten(n - 1, body, rr.tokens, headers["Authorization" := Bearer(rr.tokens.access)],
                                 maxRetries, attempt, access, expiresIn, now);
    } else {
      assert api == [Attempt(Delivered(body), 0)];
    }
  }

  /**
   * The 401 path as intended: refresh once, re-issue at the same attempt, and treat a second
   * refreshable 401 of the same request as terminal.
   */
  function RetryOnceSpec<B>(t: TokenState, headers: Headers, api: seq<Attempt<B>>, auth: seq<TokenAttempt>,
                            maxRetries: nat, attempt: nat, now: int, refreshed: bool): (r: Run<B>)
    requires attempt >= 1
    ensures r.refreshes <= (if refreshed then 0 else 1)
    ensures r.apiUsed <= |api| && r.authUsed <= |auth|
    decreases |api|
  {
    if api == [] then Run(Err(ApiScriptExhausted), t, headers, 0, 0, [], 0, 0)
    else
      match api[0].outcome
      case Delivered(body) => Run(Ok(body), t, headers, 1, 0, [], 0, 0)
      case Failed(e) =>
        match Decide(e, attempt, maxRetries, api[0].jitter)
        case Refresh =>
          if refreshed then Run(Err(TerminalFailure(e)), t, headers, 1, 0, [], 0, 0)
          else
            var rr := RefreshSpec(t, auth, now);
            if rr.result.Err? then Run(Err(rr.result.error), rr.tokens, headers, 1, rr.authUsed, rr.delays, 0, 0)
            else
              var h := headers["Authorization" := Bearer(rr.tokens.access)];
              AfterRefresh(rr, RetryOnceSpec(rr.tokens, h, api[1..], auth[rr.authUsed..], maxRetries, attempt, now, true))
        case Sleep(d) => AfterSleep(d, RetryOnceSpec(t, headers, api[1..], auth, maxRetries, attempt + 1, now, refreshed))
        case Stop(f) => Run(Err(f), t, headers, 1, 0, [], 0, 0)
  }

  /** Where no refreshable 401 occurs, the intended and the written recursion agree. */
  lemma {:induction false} RetryOnceAgreesWithout401<B>(t: TokenState, headers: Headers, api: seq<Attempt<B>>,
                                                        auth: seq<TokenAttempt>, maxRetries: nat, attempt: nat,
                                                        now: int, refreshed: bool)
    requires attempt >= 1 && No401Refresh(api)
    ensures RetryOnceSpec(t, headers, api, auth, maxRetries, attempt, now, refreshed)
         == RetrySpec(t, headers, api, auth, maxRetries, attempt, now)
    decreases |api|
  {
    if api != [] && api[0].outcome.Failed? {
      assert !IsRefreshable401(api[0].outcome.err);
      assert No401Refresh(api[1..]) by {
        forall k | 0 <= k < |api[1..]| ensures !(api[1..][k].outcome.Failed? && IsRefreshable401(api[1..][k].outcome.err)) {
          assert api[1..][k] == api[k + 1];
        }
      }
      RetryOnceAgreesWithout401(t, headers, api[1..], auth, maxRetries, attempt + 1, now, refreshed);
    }
  }

  /**
   * Two refreshable 401s in a row with two grants available: the code as written refreshes
   * twice and succeeds; the intended behaviour refreshes once and surfaces the second 401.
   */
  lemma TwoExpired401s<B>(body: B, now: int)
    ensures var t := TokenState(Some("OLD"), Some("R"), Some(now + 3600 * 1000));
      var api := Expired401s(2) + [Attempt(Delivered(body), 0)];
      var auth := Grants(2, "NEW", 3600);
      && RetrySpec(t, map[], api, auth, DefaultMaxRetries, 1, now).refreshes == 2
      && RetryOnceSpec(t, map[], api, auth, DefaultMaxRetries, 1, now, false).result == Err(Thrown(Expired401))
  {
    var t := TokenState(Some("OLD"), Some("R"), Some(now + 3600 * 1000));
    var api := Expired401s(2) + [Attempt(Delivered(body), 0)];
    var auth := Grants(2, "NEW", 3600);
    RepeatedRefreshesAsWritten(2, body, t, map[], DefaultMaxRetries, 1, "NEW", 3600, now);
    assert api[0] == Attempt(Failed(Expired401), 0) && api[1..][0] == Attempt(Failed(Expired401), 0);
    assert auth[0] == Attempt(Delivered(TokenResponse("NEW", None, 3600)), 0);
  }
}
