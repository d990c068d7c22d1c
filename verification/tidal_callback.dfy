/**
 * netlify/functions/tidal-callback.js: the redirect target of the authorization-code grant
 * (section 4.1.2 of RFC 6749). It exchanges the code for tokens and answers with three
 * Set-Cookie headers (section 4.1 of RFC 6265) and a redirect to the success page.
 *
 * The token endpoint's answer is a parameter and `Date.now()` is `now`; the Basic
 * credentials are kept as the `id:secret` text before base64 encoding.
 */
module TidalCallback {
  import opened Common
  import opened Forms
  import Playlist

  const SuccessPage := "/success.html"
  const RefreshCookieMaxAge := 2592000
  /** The attributes every cookie of the callback carries, each after its "; ". */
  const CookieAttributes: seq<string> := [" HttpOnly", " Secure", " SameSite=Lax", " Path=/"]

  /**
   * A value interpolated into a template string: an absent one prints as `undefined`. A field the
   * token response sends as JSON `null` would print as `null`; `None` stands only for an absent field.
   */
  function JsString(o: Option<string>): (s: string)
    ensures o.Some? ==> s == o.value
    ensures o.None? ==> s == "undefined"
  {
    if o.Some? then o.value else "undefined"
  }

  /** The answer of the token endpoint: its token fields, an error response, or no response at all. */
  datatype Exchange =
    | Exchanged(accessToken: Option<string>, refreshToken: Option<string>, expiresIn: int)
    | ErrorResponse(status: int, details: string)
    | NoResponse

  datatype CallbackEvent = CallbackEvent(httpMethod: string, code: Option<string>)

  datatype CallbackBody = EmptyBody | NoBody | MissingCode | AuthFailed(details: string) | Failed

  datatype CallbackResponse = CallbackResponse(status: int, location: Option<string>, setCookies: seq<string>,
                                               body: CallbackBody)

  /** The token request: its form and the `id:secret` text of its Basic credentials. */
  datatype ExchangeRequest = ExchangeRequest(form: Form, credentials: string)

  datatype CallbackRun = CallbackRun(response: CallbackResponse, request: Option<ExchangeRequest>)

  /** The ';'-separated pieces of one Set-Cookie value of the callback. */
  function SetCookiePieces(name: string, value: string, maxAge: int): seq<string> {
    [name + "=" + value, " Max-Age=" + IntToString(maxAge)] + CookieAttributes
  }

  /** One Set-Cookie value of the callback: `name=value; Max-Age=<maxAge>; HttpOnly; Secure; SameSite=Lax; Path=/`. */
  function SetCookieHeader(name: string, value: string, maxAge: int): string {
    Join(SetCookiePieces(name, value, maxAge), ";")
  }

  function CodeExchangeForm(code: string, redirectUri: Option<string>): (f: Form)
    ensures f.Keys == {GrantType, Code, RedirectUri}
    ensures f[GrantType] == "authorization_code" && f[Code] == code && f[RedirectUri] == JsString(redirectUri)
  {
    map[GrantType := "authorization_code", Code := code, RedirectUri := JsString(redirectUri)]
  }

  /** The three cookies, in order: access token, refresh token, expiry instant. */
  function Cookies(accessToken: Option<string>, refreshToken: Option<string>, expiresIn: int, now: int): (cs: seq<string>)
    ensures |cs| == 3
    ensures cs[0] == SetCookieHeader("tidalUser", JsString(accessToken), expiresIn)
    ensures cs[1] == SetCookieHeader("tidalRefresh", JsString(refreshToken), RefreshCookieMaxAge)
    ensures cs[2] == SetCookieHeader("tidalExpiry", IntToString(now + expiresIn * 1000), expiresIn)
  {
    [SetCookieHeader("tidalUser", JsString(accessToken), expiresIn),
     SetCookieHeader("tidalRefresh", JsString(refreshToken), RefreshCookieMaxAge),
     SetCookieHeader("tidalExpiry", IntToString(now + expiresIn * 1000), expiresIn)]
  }

  /** `handler(event)`. */
  function HandleCallback(ev: CallbackEvent, redirectUri: Option<string>, clientId: Option<string>,
                          clientSecret: Option<string>, exchange: Exchange, now: int): (r: CallbackRun)
    ensures r.request.Some? <==> ev.httpMethod != "OPTIONS" && Truthy(ev.code)
    ensures r.request.Some? ==> r.request.value.form == CodeExchangeForm(ev.code.value, redirectUri)
    ensures r.response.setCookies != [] ==> r.request.Some? && exchange.Exchanged?
  {
    if ev.httpMethod == "OPTIONS" then CallbackRun(CallbackResponse(204, None, [], EmptyBody), None)
    else if !Truthy(ev.code) then CallbackRun(CallbackResponse(400, None, [], MissingCode), None)
    else
      var request := Some(ExchangeRequest(CodeExchangeForm(ev.code.value, redirectUri),
                                          JsString(clientId) + ":" + JsString(clientSecret)));
      match exchange
      case Exchanged(access, refresh, expiresIn) =>
        CallbackRun(CallbackResponse(302, Some(SuccessPage), Cookies(access, refresh, expiresIn, now), NoBody), request)
      case ErrorResponse(status, details) =>
        CallbackRun(CallbackResponse(status, None, [], AuthFailed(details)), request)
      case NoResponse =>
        CallbackRun(CallbackResponse(500, None, [], Failed), request)
  }

  /**
   * The callback's decision table: a preflight is 204, a request without a code is 400 and
   * neither asks the token endpoint; otherwise the code is exchanged once, a success
   * redirects to the success page with the three cookies, an error response's status is
   * passed on, and anything else is 500.
   */
  lemma CallbackDecisions(ev: CallbackEvent, redirectUri: Option<string>, clientId: Option<string>,
                          clientSecret: Option<string>, exchange: Exchange, now: int)
    ensures var r := HandleCallback(ev, redirectUri, clientId, clientSecret, exchange, now);
      && (r.request.None? <==> ev.httpMethod == "OPTIONS" || !Truthy(ev.code))
      && (r.request.Some? ==> r.request.value.form[Code] == ev.code.value)
      && (r.request.Some? ==> r.request.value.form[GrantType] == "authorization_code")
      && (ev.httpMethod == "OPTIONS" ==> r.response.status == 204 && r.response.body == EmptyBody)
      && (ev.httpMethod != "OPTIONS" && !Truthy(ev.code) ==> r.response.status == 400 && r.response.body == MissingCode)
      && (r.request.Some? && exchange.Exchanged? ==>
            r.response.status == 302 && r.response.location == Some(SuccessPage)
            && r.response.setCookies == Cookies(exchange.accessToken, exchange.refreshToken, exchange.expiresIn, now))
      && (r.request.Some? && exchange.ErrorResponse? ==> r.response.status == exchange.status)
      && (r.request.Some? && exchange.NoResponse? ==> r.response.status == 500)
      && (r.response.setCookies != [] ==> r.response.status == 302)
  {
  }

  // ---------------------------------------------------------------------------
  // Reading the cookies back

  lemma NoSemicolonInNumber(n: int)
    ensures ';' !in IntToString(n) && '=' !in IntToString(n)
  {
    var d := NatToString(if n < 0 then -n else n);
    assert forall i :: 0 <= i < |d| ==> IsDigit(d[i]);
  }

  /**
   * The header is the function's template `name=value; Max-Age=<maxAge>; HttpOnly; Secure;
   * SameSite=Lax; Path=/`, written here piece by piece around each ';'.
   */
  lemma SetCookieHeaderText(name: string, value: string, maxAge: int)
    ensures SetCookieHeader(name, value, maxAge)
      == name + "=" + value + ";" + (" Max-Age=" + IntToString(maxAge)) + ";" + " HttpOnly" + ";" + " Secure"
         + ";" + " SameSite=Lax" + ";" + " Path=/"
  {
    var pair, age := name + "=" + value, " Max-Age=" + IntToString(maxAge);
    assert SetCookiePieces(name, value, maxAge) == [pair, age] + CookieAttributes;
    assert [pair, age] + CookieAttributes == [pair, age, " HttpOnly", " Secure", " SameSite=Lax", " Path=/"];
    JoinSix(pair, age, " HttpOnly", " Secure", " SameSite=Lax", " Path=/", ";");
  }

  lemma JoinSix(p0: string, p1: string, p2: string, p3: string, p4: string, p5: string, sep: string)
    ensures Join([p0, p1, p2, p3, p4, p5], sep) == p0 + sep + p1 + sep + p2 + sep + p3 + sep + p4 + sep + p5
  {
    var ps := [p0, p1, p2, p3, p4, p5];
    assert ps[5..] == [p5];
    assert Join(ps[4..], sep) == p4 + sep + p5 by { assert ps[4..][1..] == ps[5..]; }
    assert Join(ps[3..], sep) == p3 + sep + (p4 + sep + p5) by { assert ps[3..][1..] == ps[4..]; }
    assert Join(ps[2..], sep) == p2 + sep + (p3 + sep + (p4 + sep + p5)) by { assert ps[2..][1..] == ps[3..]; }
    assert Join(ps[1..], sep) == p1 + sep + (p2 + sep + (p3 + sep + (p4 + sep + p5))) by { assert ps[1..][1..] == ps[2..]; }
  }

  /** A Set-Cookie value splits on ';' back into its pieces: the pair, the Max-Age and the four fixed attributes. */
  lemma SetCookieSplits(name: string, value: string, maxAge: int)
    requires ';' !in name && ';' !in value
    ensures Split(SetCookieHeader(name, value, maxAge), ';') == SetCookiePieces(name, value, maxAge)
  {
    NoSemicolonInNumber(maxAge);
    var ps := SetCookiePieces(name, value, maxAge);
    assert forall k :: 0 <= k < |ps| ==> ';' !in ps[k];
    SplitJoin(ps, ';');
  }

  /** The Max-Age attribute reads back, through parseInt, as the lifetime it was written with. */
  lemma MaxAgeReadsBack(maxAge: int)
    ensures var parts := Split(" Max-Age=" + IntToString(maxAge), '=');
      |parts| == 2 && parts[0] == " Max-Age" && ParseInt(parts[1]) == Some(maxAge)
  {
    NoSemicolonInNumber(maxAge);
    assert " Max-Age=" + IntToString(maxAge) == " Max-Age" + ['='] + IntToString(maxAge);
    SplitFirst(" Max-Age", '=', IntToString(maxAge));
    SplitNone(IntToString(maxAge), '=');
    ParseIntRoundTrip(maxAge);
  }

  /**
   * The cookies of a successful callback split back into their pieces: `tidalUser=<token>`,
   * `tidalRefresh=<token>` and `tidalExpiry=<instant>`, each followed by its Max-Age (the
   * token lifetime, thirty days for the refresh cookie) and the four fixed attributes.
   */
  lemma CallbackCookiesSplit(access: string, refresh: string, expiresIn: int, now: int)
    requires ';' !in access && ';' !in refresh
    ensures var cs := Cookies(Some(access), Some(refresh), expiresIn, now);
      && Split(cs[0], ';') == SetCookiePieces("tidalUser", access, expiresIn)
      && Split(cs[1], ';') == SetCookiePieces("tidalRefresh", refresh, RefreshCookieMaxAge)
      && Split(cs[2], ';') == SetCookiePieces("tidalExpiry", IntToString(now + expiresIn * 1000), expiresIn)
  {
    SetCookieSplits("tidalUser", access, expiresIn);
    SetCookieSplits("tidalRefresh", refresh, RefreshCookieMaxAge);
    NoSemicolonInNumber(now + expiresIn * 1000);
    SetCookieSplits("tidalExpiry", IntToString(now + expiresIn * 1000), expiresIn);
  }

  /**
   * The browser sends back the pair of the access cookie, from which the playlist function's
   * cookie extraction reads the access token again; the expiry cookie's value parses back to
   * `now + expires_in * 1000`.
   */
  lemma CallbackCookiesReadBack(access: string, expiresIn: int, now: int, rest: string)
    requires access != [] && ';' !in access
    ensures Playlist.ExtractCookie(Some(SetCookiePieces("tidalUser", access, expiresIn)[0] + ";" + rest), "tidalUser")
      == Some(access)
    ensures ParseInt(SetCookiePieces("tidalExpiry", IntToString(now + expiresIn * 1000), expiresIn)[0][|"tidalExpiry="|..])
      == Some(now + expiresIn * 1000)
  {
    Playlist.ExtractFirstCookie("tidalUser", access, rest);
    ParseIntRoundTrip(now + expiresIn * 1000);
  }
}
