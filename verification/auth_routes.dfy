/**
 * routes/auth.js: the Express routes /login, /callback, /logout and /status. Each answer is a
 * value, and the `res.cookie` / `res.clearCookie` calls a route makes are returned as a list of
 * cookie actions; `Apply` plays them on the browser's cookie jar.
 *
 * `encodeURIComponent` is a parameter, `Date.now()` is `now`, and the token endpoint's answer
 * is a parameter.
 */
module AuthRoutes {
  import opened Common
  import opened Forms
  import TidalCallback

  const AuthorizeEndpoint := "https://auth.tidal.com/v1/oauth2/authorize"
  const DefaultRedirectUri := "http://localhost:8888/api/auth/callback"
  const LoginScope := "r_usr+r_usr_playback_status+r_usr_collection+r_usr_playlist+r_usr_email+r_usr_profile+r_usr_devices+r_usr_listening_activity+r_usr_created_playlists+r_usr_saved_playlists"
  const LoginPage := "/login.html"

  /** The three cookies the routes manage. */
  const AuthCookies: set<string> := {"tidalUser", "tidalRefresh", "tidalExpiry"}

  /** `res.cookie(name, value, {httpOnly, secure, sameSite: 'lax', maxAge})` or `res.clearCookie(name)`. */
  datatype CookieAction =
    | SetCookie(name: string, value: string, maxAgeMs: int, secure: bool)
    | ClearCookie(name: string)

  /** The browser's cookies, name to value. */
  type Jar = map<string, string>

  /** The jar after the actions, in order. */
  function Apply(jar: Jar, actions: seq<CookieAction>): Jar
    decreases |actions|
  {
    if actions == [] then jar
    else
      var next := match actions[0]
        case SetCookie(n, v, _, _) => jar[n := v]
        case ClearCookie(n) => jar - {n};
      Apply(next, actions[1..])
  }

  /** What a route answers besides its cookie actions. */
  datatype Answer =
    | RedirectTo(location: string)
    | AuthorizeRedirect(endpoint: string, query: Form)
    | NotConfigured
    | LoggedOut
    | AuthStatus(authenticated: bool, tokenExpired: bool)

  datatype RouteRun = RouteRun(answer: Answer, actions: seq<CookieAction>)

  // ---------------------------------------------------------------------------
  // /login

  /** GET /login: 400 without a client id, else a redirect to the authorization endpoint. */
  function Login(clientId: Option<string>, redirectUri: Option<string>): (r: Answer)
    ensures !Truthy(clientId) <==> r == NotConfigured
    ensures Truthy(clientId) ==> r.AuthorizeRedirect? && r.endpoint == AuthorizeEndpoint
    ensures r.AuthorizeRedirect? ==> r.query.Keys == {ResponseType, ClientId, RedirectUri, Scope}
    ensures r.AuthorizeRedirect? ==> r.query[ResponseType] == "code" && r.query[ClientId] == clientId.value
    ensures r.AuthorizeRedirect? ==> r.query[RedirectUri] == OrElse(redirectUri, DefaultRedirectUri)
    ensures r.AuthorizeRedirect? ==> r.query[Scope] == LoginScope
  {
    if !Truthy(clientId) then NotConfigured
    else
      AuthorizeRedirect(AuthorizeEndpoint, map[ResponseType := "code", ClientId := clientId.value,
                                               RedirectUri := OrElse(redirectUri, DefaultRedirectUri),
                                               Scope := LoginScope])
  }

  // ---------------------------------------------------------------------------
  // /callback

  datatype CallbackQuery = CallbackQuery(code: Option<string>, error: Option<string>)

  /** The answer of the token endpoint: the token fields, or a thrown error and its message. */
  datatype Exchange =
    | Exchanged(accessToken: Option<string>, refreshToken: Option<string>, expiresIn: int)
    | ExchangeFailed(message: Option<string>)

  /** The answer, the cookie actions, and the token request with its Basic credentials, if one is made. */
  datatype CallbackRun = CallbackRun(answer: Answer, actions: seq<CookieAction>,
                                     request: Option<TidalCallback.ExchangeRequest>)

  /** The cookies set after a successful exchange, in order; the refresh cookie only with a refresh token. */
  function SessionCookies(access: Option<string>, refresh: Option<string>, expiresIn: int, now: int,
                          secure: bool): seq<CookieAction>
  {
    [SetCookie("tidalUser", TidalCallback.JsString(access), expiresIn * 1000, secure)]
    + (if Truthy(refresh) then [SetCookie("tidalRefresh", refresh.value, expiresIn * 1000, secure)] else [])
    + [SetCookie("tidalExpiry", IntToString(now + expiresIn * 1000), expiresIn * 1000, secure)]
  }

  /** GET /callback; `secure` is whether NODE_ENV is 'production'. */
  function Callback(q: CallbackQuery, encode: string -> string, redirectUri: Option<string>,
                    clientId: Option<string>, clientSecret: Option<string>, exchange: Exchange,
                    now: int, secure: bool): (r: CallbackRun)
    ensures r.request.Some? <==> !Truthy(q.error) && Truthy(q.code)
    ensures r.request.Some? ==>
      Truthy(q.code) && r.request.value.form == TidalCallback.CodeExchangeForm(q.code.value, Some(OrElse(redirectUri, DefaultRedirectUri)))
    ensures r.request.Some? ==>
      r.request.value.credentials == TidalCallback.JsString(clientId) + ":" + TidalCallback.JsString(clientSecret)
    ensures r.actions != [] ==> r.request.Some? && exchange.Exchanged? && r.answer == RedirectTo("/")
    ensures r.answer.RedirectTo?
  {
    if Truthy(q.error) then CallbackRun(RedirectTo(LoginPage + "?error=" + encode(q.error.value)), [], None)
    else if !Truthy(q.code) then CallbackRun(RedirectTo(LoginPage + "?error=missing_code"), [], None)
    else
      var request := TidalCallback.ExchangeRequest(
        TidalCallback.CodeExchangeForm(q.code.value, Some(OrElse(redirectUri, DefaultRedirectUri))),
        TidalCallback.JsString(clientId) + ":" + TidalCallback.JsString(clientSecret));
      match exchange
      case Exchanged(access, refresh, expiresIn) =>
        CallbackRun(RedirectTo("/"), SessionCookies(access, refresh, expiresIn, now, secure), Some(request))
      case ExchangeFailed(m) =>
        CallbackRun(RedirectTo(LoginPage + "?error=" + encode(OrElse(m, "authentication_failed"))), [], Some(request))
  }

  /** The names of the cookies the actions set, in order. */
  function SetNames(actions: seq<CookieAction>): seq<string>
    decreases |actions|
  {
    if actions == [] then []
    else (if actions[0].SetCookie? then [actions[0].name] else []) + SetNames(actions[1..])
  }

  lemma {:induction false} SetNamesConcat(a: seq<CookieAction>, b: seq<CookieAction>)
    ensures SetNames(a + b) == SetNames(a) + SetNames(b)
    decreases |a|
  {
    if a == [] {
      assert a + b == b;
    } else {
      assert (a + b)[0] == a[0];
      assert (a + b)[1..] == a[1..] + b;
      SetNamesConcat(a[1..], b);
    }
  }

  /**
   * An OAuth error or a missing code redirects to the login page before any token request and
   * sets no cookie; a failed exchange sets no cookie either; a successful one sets tidalUser,
   * tidalRefresh (only with a refresh token) and tidalExpiry, in that order, all living
   * `expires_in * 1000` milliseconds.
   */
  lemma CallbackCookies(q: CallbackQuery, encode: string -> string, redirectUri: Option<string>,
                        clientId: Option<string>, clientSecret: Option<string>, exchange: Exchange,
                        now: int, secure: bool)
    ensures var r := Callback(q, encode, redirectUri, clientId, clientSecret, exchange, now, secure);
      && (Truthy(q.error) || !Truthy(q.code) ==> r.request.None? && r.actions == [])
      && (Truthy(q.error) ==> r.answer == RedirectTo(LoginPage + "?error=" + encode(q.error.value)))
      && (!Truthy(q.error) && Truthy(q.code) ==> r.request.Some? && r.request.value.form[Code] == q.code.value)
      && (r.request.Some? && exchange.ExchangeFailed? ==> r.actions == [])
      && (r.request.Some? && exchange.Exchanged? ==>
            && r.answer == RedirectTo("/")
            && SetNames(r.actions) == (if Truthy(exchange.refreshToken) then ["tidalUser", "tidalRefresh", "tidalExpiry"]
                                       else ["tidalUser", "tidalExpiry"])
            && (forall k :: 0 <= k < |r.actions| ==> r.actions[k].SetCookie? && r.actions[k].maxAgeMs == exchange.expiresIn * 1000))
  {
    var r := Callback(q, encode, redirectUri, clientId, clientSecret, exchange, now, secure);
    if r.request.Some? && exchange.Exchanged? {
      var e := exchange;
      var a := [SetCookie("tidalUser", TidalCallback.JsString(e.accessToken), e.expiresIn * 1000, secure)];
      var b := if Truthy(e.refreshToken) then [SetCookie("tidalRefresh", e.refreshToken.value, e.expiresIn * 1000, secure)] else [];
      var c := [SetCookie("tidalExpiry", IntToString(now + e.expiresIn * 1000), e.expiresIn * 1000, secure)];
      SetNamesConcat(a + b, c);
      SetNamesConcat(a, b);
    }
  }

  // ---------------------------------------------------------------------------
  // /logout and /status

  const ClearAll: seq<CookieAction> := [ClearCookie("tidalUser"), ClearCookie("tidalRefresh"), ClearCookie("tidalExpiry")]

  /** POST /logout: every action clears one of the three auth cookies, each of them once. */
  function Logout(): (r: RouteRun)
    ensures r.answer == LoggedOut
    ensures forall k :: 0 <= k < |r.actions| ==> r.actions[k].ClearCookie? && r.actions[k].name in AuthCookies
    ensures |r.actions| == |AuthCookies|
  {
    RouteRun(LoggedOut, ClearAll)
  }

  /** Clearing the three cookies removes exactly those three and leaves every other cookie as it was. */
  lemma LogoutClearsExactly(jar: Jar)
    ensures Apply(jar, Logout().actions) == jar - AuthCookies
  {
    var j1 := jar - {"tidalUser"};
    var j2 := j1 - {"tidalRefresh"};
    assert ClearAll[1..][1..][1..] == [];
    assert Apply(jar, ClearAll) == Apply(j1, ClearAll[1..]);
    assert Apply(j1, ClearAll[1..]) == Apply(j2, ClearAll[1..][1..]);
    assert Apply(j2, ClearAll[1..][1..]) == j2 - {"tidalExpiry"};
    assert j2 - {"tidalExpiry"} == jar - AuthCookies;
  }

  function Cookie(jar: Jar, name: string): Option<string> {
    if name in jar then Some(jar[name]) else None
  }

  /** The expiry cookie is set and the clock is strictly past the instant it holds. */
  predicate Expired(jar: Jar, now: int) {
    var expiry := Cookie(jar, "tidalExpiry");
    Truthy(expiry) && ParseInt(expiry.value).Some? && now > ParseInt(expiry.value).value
  }

  /**
   * GET /status: not authenticated without a token; expired, with the three cookies cleared,
   * when the clock is strictly past the expiry cookie; authenticated otherwise (an expiry that
   * does not parse as a number included).
   */
  function Status(jar: Jar, now: int): (r: RouteRun)
    ensures !Truthy(Cookie(jar, "tidalUser")) ==> r == RouteRun(AuthStatus(false, false), [])
    ensures Truthy(Cookie(jar, "tidalUser")) && Expired(jar, now) ==> r == RouteRun(AuthStatus(false, true), ClearAll)
    ensures r.answer.AuthStatus?
    ensures r.answer.authenticated <==> Truthy(Cookie(jar, "tidalUser")) && !Expired(jar, now)
    ensures r.actions != [] ==> r.actions == ClearAll
  {
    if !Truthy(Cookie(jar, "tidalUser")) then RouteRun(AuthStatus(false, false), [])
    else if Expired(jar, now) then RouteRun(AuthStatus(false, true), ClearAll)
    else RouteRun(AuthStatus(true, false), [])
  }

  /** After a logout, the status is 'not authenticated', whatever the jar held. */
  lemma LogoutThenStatus(jar: Jar, now: int)
    ensures Status(Apply(jar, Logout().actions), now).answer == AuthStatus(false, false)
  {
    LogoutClearsExactly(jar);
  }

  /** After the status reports an expired token, asking again reports 'not authenticated'. */
  lemma ExpiredThenStatus(jar: Jar, now: int, later: int)
    requires Status(jar, now).answer == AuthStatus(false, true)
    ensures Status(Apply(jar, Status(jar, now).actions), later).answer == AuthStatus(false, false)
  {
    LogoutClearsExactly(jar);
  }

  /**
   * After a successful callback with an access token, the status route reports authenticated
   * exactly until the clock passes `now + expires_in * 1000`, whatever the jar held before.
   */
  lemma CallbackThenStatus(jar: Jar, access: string, refresh: Option<string>, expiresIn: int, now: int, secure: bool,
                           later: int)
    requires access != []
    ensures var jar' := Apply(jar, SessionCookies(Some(access), refresh, expiresIn, now, secure));
      Status(jar', later).answer.authenticated <==> later <= now + expiresIn * 1000
  {
    var actions := SessionCookies(Some(access), refresh, expiresIn, now, secure);
    var expiry := IntToString(now + expiresIn * 1000);
    var j1 := jar["tidalUser" := access];
    var j2 := if Truthy(refresh) then j1["tidalRefresh" := refresh.value] else j1;
    var j3 := j2["tidalExpiry" := expiry];
    assert Apply(jar, actions) == j3 by {
      assert Apply(jar, actions) == Apply(j1, actions[1..]);
      if Truthy(refresh) {
        assert Apply(j1, actions[1..]) == Apply(j2, actions[1..][1..]);
        assert Apply(j2, actions[1..][1..]) == Apply(j3, actions[1..][1..][1..]);
        assert actions[1..][1..][1..] == [];
      } else {
        assert Apply(j1, actions[1..]) == Apply(j3, actions[1..][1..]);
        assert actions[1..][1..] == [];
      }
    }
    assert Cookie(j3, "tidalUser") == Some(access);
    assert Cookie(j3, "tidalExpiry") == Some(expiry);
    ParseIntRoundTrip(now + expiresIn * 1000);
    assert expiry != [] by {
      NoEmptyNumber(now + expiresIn * 1000);
    }
  }

  lemma NoEmptyNumber(n: int)
    ensures IntToString(n) != []
  {
  }
}
