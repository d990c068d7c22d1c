/**
 * The retry engine of TidalApiClient (netlify/functions/tidal/tidalClient.js): how a failed
 * HTTP attempt is classified, how long the client sleeps before the next one, and the
 * token-endpoint request loop `_tokenRequestWithRetry`, which never treats a 401 as
 * refreshable.
 *
 * The network is a finite script of attempts: each HTTP call the client makes consumes the
 * next `Attempt`, which carries what the server (or the transport) answered and the value
 * `Math.random() * 1000` would have produced if that attempt is followed by an exponential
 * backoff. When the script runs out the model stops with a `...ScriptExhausted` failure,
 * which no real run produces.
 */
module ClientRetry {
  import opened Common

  const BaseDelayMs := 1000
  const MaxDelayMs := 30000
  const MaxJitterMs := 1000
  const DefaultMaxRetries := 3
  /** TIDAL's sub-status for an expired access token. */
  const ExpiredTokenSubStatus := 6004
  /** Transport error codes that are retried (netlify/functions/tidal/tidalClient.js:184-185). */
  const RetriableCodes: set<string> := {"ECONNRESET", "ENOTFOUND", "ECONNREFUSED", "ETIMEDOUT"}

  /** The fields of an error response body that the client inspects. */
  datatype ErrorData = ErrorData(subStatus: Option<int>, userMessage: Option<string>, error: Option<string>)

  /**
   * A rejected HTTP attempt: either a response with a non-2xx status (its body, and the
   * Retry-After header already read as a number of seconds when present), or a transport
   * error without a response.
   */
  datatype HttpError =
    | Response(status: int, data: Option<ErrorData>, retryAfter: Option<nat>)
    | Network(code: string, message: string)

  datatype Outcome<+B> = Delivered(body: B) | Failed(err: HttpError)

  datatype Attempt<+B> = Attempt(outcome: Outcome<B>, jitter: int)

  /** What a client operation throws. */
  datatype Failure =
    | NoRefreshToken
    | NotAuthenticated
    | RateLimitExceeded(maxRetries: nat)
    | TokenRateLimitExceeded(maxRetries: nat)
    | ApiError(message: string)
    | Thrown(err: HttpError)
    | ApiScriptExhausted
    | AuthScriptExhausted

  /** Failures whose `Error` the client constructs itself (the others rethrow the transport's error). */
  predicate Constructed(f: Failure) {
    f.NoRefreshToken? || f.NotAuthenticated? || f.RateLimitExceeded? || f.TokenRateLimitExceeded? || f.ApiError?
  }

  /** The message of an error the client constructs. */
  function Message(f: Failure): string
    requires Constructed(f)
  {
    match f
    case NoRefreshToken => "No refresh token available"
    case NotAuthenticated => "No access token available. Please authenticate first."
    case RateLimitExceeded(n) => "Rate limit exceeded. Max retries (" + NatToString(n) + ") reached."
    case TokenRateLimitExceeded(n) => "Token request rate limit exceeded. Max retries (" + NatToString(n) + ") reached."
    case ApiError(m) => m
  }

  /** How many re-issues are left once `attempt` is reached: attempts maxRetries + 1 and later never re-issue. */
  function RetryBudget(maxRetries: nat, attempt: nat): nat {
    if attempt <= maxRetries + 1 then maxRetries + 1 - attempt else 0
  }

  predicate AllJittersValid<B>(script: seq<Attempt<B>>) {
    forall k :: 0 <= k < |script| ==> 0 <= script[k].jitter < MaxJitterMs
  }

  // ---------------------------------------------------------------------------
  // Classification and delays

  /**
   * `_isRetriableError`: one of four transport codes, or a response status of 500 or more. A
   * retriable error is never one of the two answers the request loop treats first (a refreshable
   * 401 and a 429), so the three branches never compete for the same error.
   */
  predicate IsRetriableError(e: HttpError): (b: bool)
    ensures b ==> !IsRefreshable401(e) && !IsRateLimited(e)
    ensures e.Response? && e.status < 500 ==> !b
  {
    (e.Network? && e.code in RetriableCodes) || (e.Response? && e.status >= 500)
  }

  /** A 401 the client answers with a refresh: sub-status 6004, or a user message saying the token expired. */
  predicate IsRefreshable401(e: HttpError) {
    && e.Response?
    && e.status == 401
    && e.data.Some?
    && (|| e.data.value.subStatus == Some(ExpiredTokenSubStatus)
        || (Truthy(e.data.value.userMessage) && Contains(ToLower(e.data.value.userMessage.value), "token expired")))
  }

  predicate IsRateLimited(e: HttpError) {
    e.Response? && e.status == 429
  }

  function Pow2(k: nat): (r: nat)
    ensures r >= 1
  {
    if k == 0 then 1 else 2 * Pow2(k - 1)
  }

  /** `_calculateBackoffDelay(attempt)` with the jitter drawn for this attempt. */
  function BackoffDelay(attempt: nat, jitter: int): (d: int)
    requires attempt >= 1
    ensures d <= MaxDelayMs
    ensures 0 <= jitter ==> d >= Min(BaseDelayMs * Pow2(attempt - 1), MaxDelayMs)
    ensures jitter < MaxJitterMs ==> d < BaseDelayMs * Pow2(attempt - 1) + MaxJitterMs
  {
    Min(BaseDelayMs * Pow2(attempt - 1) + jitter, MaxDelayMs)
  }

  /** The sleep before re-issuing after a 429: the Retry-After seconds when present, else the backoff. */
  function RateLimitDelay(e: HttpError, attempt: nat, jitter: int): (d: int)
    requires IsRateLimited(e) && attempt >= 1
    ensures e.retryAfter.Some? ==> d == e.retryAfter.value * 1000
    ensures e.retryAfter.None? ==> d == BackoffDelay(attempt, jitter)
  {
    if e.retryAfter.Some? then e.retryAfter.value * 1000 else BackoffDelay(attempt, jitter)
  }

  /** What the terminal path throws: a new Error carrying the body's `error` field, or the original error. */
  function TerminalFailure(e: HttpError): (f: Failure)
    ensures f.ApiError? <==> e.Response? && e.data.Some? && Truthy(e.data.value.error)
    ensures f.ApiError? ==> f.message == e.data.value.error.value
    ensures !f.ApiError? ==> f == Thrown(e)
  {
    if e.Response? && e.data.Some? && Truthy(e.data.value.error) then ApiError(e.data.value.error.value)
    else Thrown(e)
  }

  // ---------------------------------------------------------------------------
  // `_tokenRequestWithRetry`

  /** The outcome of a token request: what it returned or threw, how many attempts it used, and its sleeps. */
  datatype TokenRun<+B> = TokenRun(result: Result<B, Failure>, used: nat, delays: seq<int>)

  /** One more attempt, answered by a sleep of `d` and then by `r`. */
  function Again<B>(d: int, r: TokenRun<B>): TokenRun<B> {
    r.(used := r.used + 1, delays := [d] + r.delays)
  }

  /**
   * The recursion of `_tokenRequestWithRetry(method, url, data, maxRetries, attempt)`: a 2xx
   * returns; a 429 sleeps and re-issues while `attempt <= maxRetries`, else throws; a retriable
   * error backs off and re-issues while `attempt <= maxRetries`; anything else, a 401
   * included, is rethrown unchanged.
   */
  function TokenRequestSpec<B>(script: seq<Attempt<B>>, maxRetries: nat, attempt: nat): (r: TokenRun<B>)
    requires attempt >= 1
    ensures r.used <= |script|
    ensures r.result.Ok? ==> r.used >= 1
    ensures r.result.Err? ==>
      r.result.error.Thrown? || r.result.error.TokenRateLimitExceeded? || r.result.error == AuthScriptExhausted
    decreases |script|
  {
    if script == [] then TokenRun(Err(AuthScriptExhausted), 0, [])
    else
      var a := script[0];
      match a.outcome
      case Delivered(body) => TokenRun(Ok(body), 1, [])
      case Failed(e) =>
        if IsRateLimited(e) then
          if attempt <= maxRetries then
            Again(RateLimitDelay(e, attempt, a.jitter), TokenRequestSpec(script[1..], maxRetries, attempt + 1))
          else
            TokenRun(Err(TokenRateLimitExceeded(maxRetries)), 1, [])
        else if IsRetriableError(e) && attempt <= maxRetries then
          Again(BackoffDelay(attempt, a.jitter), TokenRequestSpec(script[1..], maxRetries, attempt + 1))
        else
          TokenRun(Err(Thrown(e)), 1, [])
  }

  /** `r`, seen from `k` attempts and the sleeps `ds` earlier. */
  function Shift<B>(k: nat, ds: seq<int>, r: TokenRun<B>): TokenRun<B> {
    r.(used := r.used + k, delays := ds + r.delays)
  }

  /** `_tokenRequestWithRetry` as the loop it amounts to, with `attempt` starting at 1. */
  method TokenRequestWithRetry<B>(script: seq<Attempt<B>>, maxRetries: nat)
    returns (result: Result<B, Failure>, used: nat, delays: seq<int>)
    ensures TokenRun(result, used, delays) == TokenRequestSpec(script, maxRetries, 1)
  {
    var i := 0;
    var attempt := 1;
    delays := [];
    while true
      invariant 0 <= i <= |script| && attempt == i + 1
      invariant TokenRequestSpec(script, maxRetries, 1) == Shift(i, delays, TokenRequestSpec(script[i..], maxRetries, attempt))
      decreases |script| - i
    {
      if i == |script| {
        result, used := Err(AuthScriptExhausted), i;
        return;
      }
      var a := script[i];
      assert script[i..][1..] == script[i + 1..];
      match a.outcome {
        case Delivered(body) =>
          result, used := Ok(body), i + 1;
          return;
        case Failed(e) =>
          if IsRateLimited(e) {
            if attempt <= maxRetries {
              delays := delays + [RateLimitDelay(e, attempt, a.jitter)];
            } else {
              result, used := Err(TokenRateLimitExceeded(maxRetries)), i + 1;
              return;
            }
          } else if IsRetriableError(e) && attempt <= maxRetries {
            delays := delays + [BackoffDelay(attempt, a.jitter)];
          } else {
            result, used := Err(Thrown(e)), i + 1;
            return;
          }
      }
      i, attempt := i + 1, attempt + 1;
    }
  }

  // ---------------------------------------------------------------------------
  // Properties of the token request

  /**
   * The token request re-issues at most `maxRetries` times from attempt 1: every sleep is
   * followed by one more attempt, and the last attempt ends the request.
   */
  lemma {:induction false} TokenRetriesBounded<B>(script: seq<Attempt<B>>, maxRetries: nat, attempt: nat)
    requires attempt >= 1
    ensures var r := TokenRequestSpec(script, maxRetries, attempt);
      && |r.delays| <= RetryBudget(maxRetries, attempt)
      && r.used == |r.delays| + (if r.result == Err(AuthScriptExhausted) then 0 else 1)
    decreases |script|
  {
    if script != [] {
      TokenRetriesBounded(script[1..], maxRetries, attempt + 1);
    }
  }

  /** With the jitter in [0, 1000) and no Retry-After header, every sleep of a token request lies in [1000, 30000]. */
  lemma {:induction false} TokenDelaysBounded<B>(script: seq<Attempt<B>>, maxRetries: nat, attempt: nat)
    requires attempt >= 1
    requires AllJittersValid(script)
    requires forall k :: 0 <= k < |script| ==> NoRetryAfter(script[k])
    ensures forall d :: d in TokenRequestSpec(script, maxRetries, attempt).delays ==> BaseDelayMs <= d <= MaxDelayMs
    decreases |script|
  {
    if script != [] {
      TokenDelaysBounded(script[1..], maxRetries, attempt + 1);
    }
  }

  predicate NoRetryAfter<B>(a: Attempt<B>) {
    a.outcome.Failed? && a.outcome.err.Response? ==> a.outcome.err.retryAfter.None?
  }

  /** A token request answered by 401 is not refreshed: the 401 is rethrown after one attempt. */
  lemma TokenRequestRethrows401<B>(script: seq<Attempt<B>>, maxRetries: nat, attempt: nat)
    requires attempt >= 1
    requires script != [] && script[0].outcome.Failed? && script[0].outcome.err.Response?
    requires script[0].outcome.err.status == 401
    ensures TokenRequestSpec(script, maxRetries, attempt) == TokenRun(Err(Thrown(script[0].outcome.err)), 1, [])
  {
  }
}
