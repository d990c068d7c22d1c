/**
 * The Express route GET /playlist of routes/playlist.js. Its helpers are the ones of the
 * Netlify function, copied unchanged, and are modelled once in module Playlist; what differs
 * is where the cookies come from (the parsed `req.cookies`) and how errors are answered.
 */
module PlaylistRoute {
  import opened Common
  import opened TidalClient
  import opened TidalSingleton
  import opened Playlist

  /** The parsed cookies `tidalUser` and `tidalRefresh`, and `req.query.id`. */
  datatype RouteRequest = RouteRequest(tidalUser: Option<string>, tidalRefresh: Option<string>, queryId: Option<string>)

  datatype RouteBody =
    | Redirect(location: string)
    | Tracks(tracks: seq<Formatted>)
    | MissingId
    | AuthRequired(redirectTo: string)
    | FetchFailed(message: Option<string>)

  datatype RouteResponse = RouteResponse(status: int, body: RouteBody)

  datatype RouteRun = RouteRun(response: RouteResponse, tokens: TokenState, profileRequested: bool, pageUrls: seq<string>)

  /** The route handler of GET /playlist. */
  function PlaylistRoute(t: TokenState, req: RouteRequest, env: Env, profile: Result<Option<string>, JsError>,
                         pages: seq<PageOutcome>, now: int): (r: RouteRun)
    ensures r.response.status in {200, 302, 400, 401, 500}
    ensures r.profileRequested <==> Truthy(req.tidalUser)
    ensures !r.profileRequested ==> r.tokens == t && r.pageUrls == []
    ensures r.pageUrls != [] ==> r.response.status in {200, 401, 500}
  {
    if !Truthy(req.tidalUser) then RouteRun(RouteResponse(302, Redirect(LoginPage)), t, false, [])
    else
      var t1 := CookieTokens(t, req.tidalUser, req.tidalRefresh, Some(3600), now);
      var cc := CountryCode(profile, env.countryCode, env.defaultCountry);
      var id := if Truthy(req.queryId) then req.queryId else env.playlistId;
      if !Truthy(id) then RouteRun(RouteResponse(400, MissingId), t1, true, [])
      else
        var run := FetchSpec(pages, 0);
        var urls := PageUrls(id.value, cc, run.offsets);
        var t2 := FetchTokens(t1, req.tidalUser, now);
        match run.result
        case Ok(items) => RouteRun(RouteResponse(200, Tracks(FormatTracks(items))), t2, true, urls)
        case Err(e) =>
          if MentionsLogIn(e) then RouteRun(RouteResponse(401, AuthRequired(LoginPage)), t2, true, urls)
          else RouteRun(RouteResponse(500, FetchFailed(e.message)), t2, true, urls)
  }

  /**
   * The route answers every request; the status is one of 302, 400, 200, 401 and 500, each
   * for its own situation: no user cookie, no playlist id, all pages fetched, an error asking
   * to log in again, any other error. A failing page request that does not ask to log in is
   * reported with the fixed message 'Failed to fetch playlist tracks'.
   */
  lemma RouteDecisions(t: TokenState, req: RouteRequest, env: Env, profile: Result<Option<string>, JsError>,
                       pages: seq<PageOutcome>, now: int)
    ensures var r := PlaylistRoute(t, req, env, profile, pages, now);
      var id := if Truthy(req.queryId) then req.queryId else env.playlistId;
      var run := FetchSpec(pages, 0);
      && (r.response.status == 302 <==> !Truthy(req.tidalUser))
      && (r.response.status == 400 <==> Truthy(req.tidalUser) && !Truthy(id))
      && (r.response.status == 200 <==> Truthy(req.tidalUser) && Truthy(id) && run.result.Ok?)
      && (r.response.status == 401 <==> Truthy(req.tidalUser) && Truthy(id) && run.result.Err? && MentionsLogIn(run.result.error))
      && (r.response.status == 500 ==> r.response.body == FetchFailed(Some(FetchFailedMessage)))
      && (r.profileRequested <==> Truthy(req.tidalUser))
  {
    var r := PlaylistRoute(t, req, env, profile, pages, now);
    var run := FetchSpec(pages, 0);
    if r.response.status == 500 {
      FetchContract(pages, 0);
    }
  }

  /** The Express route and the Netlify handler agree on everything but the shape of their answers. */
  lemma RouteAgreesWithHandler(t: TokenState, ev: Event, env: Env, profile: Result<Option<string>, JsError>,
                               pages: seq<PageOutcome>, now: int)
    requires ev.httpMethod != "OPTIONS"
    ensures var req := RouteRequest(ExtractCookie(ev.cookie, "tidalUser"), ExtractCookie(ev.cookie, "tidalRefresh"), ev.queryId);
      var r := PlaylistRoute(t, req, env, profile, pages, now);
      var h := HandlePlaylist(t, ev, env, profile, pages, now);
      && r.tokens == h.tokens && r.profileRequested == h.profileRequested && r.pageUrls == h.pageUrls
      && (r.response.status == 200 <==> h.response.status == 200)
      && (r.response.status == 200 ==> r.response.body.tracks == h.response.body.tracks)
      && (r.response.status == 302 <==> h.response == LoginRedirect() && !h.profileRequested)
  {
    var user := ExtractCookie(ev.cookie, "tidalUser");
    var req := RouteRequest(user, ExtractCookie(ev.cookie, "tidalRefresh"), ev.queryId);
    var r := PlaylistRoute(t, req, env, profile, pages, now);
    var h := HandlePlaylist(t, ev, env, profile, pages, now);
    if Truthy(user) {
      var id := if Truthy(ev.queryId) then ev.queryId else env.playlistId;
      if Truthy(id) {
        var run := FetchSpec(pages, 0);
        if run.result.Err? {
          HandlerFetchErrors(t, ev, env, profile, pages, now);
        }
      }
    }
  }
}
