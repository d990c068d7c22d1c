/**
 * netlify/functions/get-playlist-oauth.js: the cookie parser, the song classifier, the cookie
 * precondition, the track formatting with its defaults, and the mapping of errors to statuses.
 *
 * `decodeURIComponent` is a parameter (`None` stands for the URIError it throws on a malformed
 * escape); `Math.random() > 0.5` for the k-th track is `coin(k)`. The renewal of the access
 * token and the answer to the playlist request are represented by their outcome; the request
 * itself is part of the result.
 */
module PlaylistOAuth {
  import opened Common
  import opened Playlist
  import TidalClient

  // ---------------------------------------------------------------------------
  // parseCookies

  type Decoder = string -> Option<string>

  /** The object `parseCookies` fills: cookie name to decoded value. */
  type Cookies = map<string, string>

  /** What the string `undefined` turns into when it reaches `decodeURIComponent`. */
  const Undefined := "undefined"

  /** The name of one ';' piece: the text before the first '=' of the trimmed piece. */
  function PieceName(piece: string): (n: string)
    ensures '=' !in n
  {
    Split(Trim(piece), '=')[0]
  }

  /** The raw value of one piece: the text between the first and the second '=', or `undefined`. */
  function PieceValue(piece: string): (v: string)
    ensures '=' !in v || v == Undefined
    ensures '=' !in Trim(piece) ==> v == Undefined
  {
    var t := Trim(piece);
    if '=' !in t then SplitNone(t, '='); Undefined
    else
      var parts := Split(t, '=');
      if |parts| > 1 then parts[1] else Undefined
  }

  /** The pieces `cookies[name] = decodeURIComponent(value)` runs over, in order, from `acc` on. */
  function FoldCookies(acc: Cookies, pieces: seq<string>, decode: Decoder): (r: Result<Cookies, string>)
    ensures r.Ok? ==> acc.Keys <= r.value.Keys
    decreases |pieces|
  {
    if pieces == [] then Ok(acc)
    else
      match decode(PieceValue(pieces[0]))
      case None => Err(UriMalformed)
      case Some(v) => FoldCookies(acc[PieceName(pieces[0]) := v], pieces[1..], decode)
  }

  const UriMalformed := "URI malformed"

  /** `parseCookies(cookieHeader)`: an empty object for a falsy header. */
  function ParseCookiesSpec(header: Option<string>, decode: Decoder): (r: Result<Cookies, string>)
    ensures !Truthy(header) ==> r == Ok(map[])
  {
    if !Truthy(header) then Ok(map[]) else FoldCookies(map[], Split(header.value, ';'), decode)
  }

  method ParseCookies(header: Option<string>, decode: Decoder) returns (r: Result<Cookies, string>)
    ensures r == ParseCookiesSpec(header, decode)
  {
    var cookies: Cookies := map[];
    if Truthy(header) {
      var pieces := Split(header.value, ';');
      var i := 0;
      while i < |pieces|
        invariant 0 <= i <= |pieces|
        invariant FoldCookies(cookies, pieces[i..], decode) == ParseCookiesSpec(header, decode)
      {
        var value := decode(PieceValue(pieces[i]));
        if value.None? {
          return Err(UriMalformed);
        }
        cookies := cookies[PieceName(pieces[i]) := value.value];
        assert pieces[i..][1..] == pieces[i + 1..];
        i := i + 1;
      }
    }
    return Ok(cookies);
  }

  /** A later piece overwrites what the earlier pieces set under the same name. */
  lemma {:induction false} FoldLastWins(acc: Cookies, pieces: seq<string>, last: string, decode: Decoder)
    requires FoldCookies(acc, pieces, decode).Ok? && decode(PieceValue(last)).Some?
    ensures FoldCookies(acc, pieces + [last], decode)
      == Ok(FoldCookies(acc, pieces, decode).value[PieceName(last) := decode(PieceValue(last)).value])
    decreases |pieces|
  {
    if pieces == [] {
      assert pieces + [last] == [last];
      assert [last][1..] == [];
    } else {
      assert (pieces + [last])[1..] == pieces[1..] + [last];
      FoldLastWins(acc[PieceName(pieces[0]) := decode(PieceValue(pieces[0])).value], pieces[1..], last, decode);
    }
  }

  /** A piece `name=value=rest` sets `name` to the decoded `value`: what follows a second '=' is dropped. */
  lemma SecondEqualsDropsRest(name: string, value: string, rest: string)
    requires '=' !in name && '=' !in value
    requires Trim(name + "=" + value + "=" + rest) == name + "=" + value + "=" + rest
    ensures PieceName(name + "=" + value + "=" + rest) == name
    ensures PieceValue(name + "=" + value + "=" + rest) == value
  {
    var s := name + "=" + value + "=" + rest;
    SplitFirst(name, '=', value + "=" + rest);
    SplitFirst(value, '=', rest);
    assert s == name + ['='] + (value + ['='] + rest);
    assert Split(s, '=') == [name] + ([value] + Split(rest, '='));
  }

  // ---------------------------------------------------------------------------
  // classifySong

  const SongMorningWords: seq<string> := ["morning", "sunrise", "wake", "coffee", "bright", "day", "start"]
  const SongEveningWords: seq<string> := ["night", "evening", "sunset", "moon", "sleep", "dream", "dark", "midnight"]

  predicate HasKeyword(title: string, artist: string, words: seq<string>) {
    ContainsAny(ToLower(title), words) || ContainsAny(ToLower(artist), words)
  }

  /**
   * `classifySong`: a duration under 180 is morning and over 300 is evening, whatever the
   * words; then a morning word in title or artist, then an evening word; else the coin.
   */
  function ClassifySong(title: string, artist: string, duration: int, coin: bool): (c: TimeOfDay)
    ensures c != Day
    ensures duration < 180 ==> c == Morning
    ensures duration > 300 ==> c == Evening
  {
    if duration < 180 then Morning
    else if duration > 300 then Evening
    else if HasKeyword(title, artist, SongMorningWords) then Morning
    else if HasKeyword(title, artist, SongEveningWords) then Evening
    else if coin then Morning
    else Evening
  }

  /** The coin decides exactly when no rule fires. */
  lemma CoinDecidesOnlyWhenNoRuleFires(title: string, artist: string, duration: int)
    ensures ClassifySong(title, artist, duration, true) != ClassifySong(title, artist, duration, false)
      <==> 180 <= duration <= 300 && !HasKeyword(title, artist, SongMorningWords) && !HasKeyword(title, artist, SongEveningWords)
  {
  }

  /**
   * Within the duration band, a morning word anywhere in the title, in any case, makes the song
   * morning, even inside another word and even beside an evening word.
   */
  lemma SongMorningWord(a: string, word: string, b: string, artist: string, duration: int, coin: bool, k: nat)
    requires 180 <= duration <= 300
    requires k < |SongMorningWords| && ToLower(word) == SongMorningWords[k]
    ensures ClassifySong(a + word + b, artist, duration, coin) == Morning
  {
    ContainsLowered(a, word, b, SongMorningWords[k]);
    ContainsAnyMember(ToLower(a + word + b), SongMorningWords, k);
  }

  /** 'day' is found inside "Today": a 4-minute song of that title is morning. */
  lemma TodayIsMorning(artist: string, coin: bool)
    ensures ClassifySong("Today", artist, 240, coin) == Morning
  {
    assert ToLower("day") == "day";
    SongMorningWord("To", "day", "", artist, 240, coin, 5);
    assert "To" + "day" + "" == "Today";
  }

  // ---------------------------------------------------------------------------
  // Formatting

  const DefaultDuration := 240

  /** A formatted track: `source` is always 'tidal'. */
  datatype SongRow = SongRow(id: string, title: string, artist: string, album: string, duration: int,
                             coverUrl: string, classification: TimeOfDay)

  /** `track.artists?.[0]?.name`, when present. */
  function FirstArtist(t: Track): Option<string> {
    if t.artists.Some? && |t.artists.value| > 0 then t.artists.value[0].name else None
  }

  /** `track.album?.imageCover?.[0]?.url`, when present. */
  function FirstCover(t: Track): Option<string> {
    if t.album.Some? && t.album.value.imageCover.Some? && |t.album.value.imageCover.value| > 0
    then t.album.value.imageCover.value[0].url
    else None
  }

  function FormatSong(t: Track, coin: bool): (row: SongRow)
    ensures row.id == t.id && row.title == t.title
    ensures row.duration == (if TruthyNum(t.duration) then t.duration.value else DefaultDuration)
    ensures row.artist == OrElse(FirstArtist(t), "Unknown Artist")
    ensures row.album == OrElse(if t.album.Some? then t.album.value.title else None, "Unknown Album")
    ensures row.coverUrl == OrElse(FirstCover(t), "")
    ensures row.classification == ClassifySong(t.title, OrElse(FirstArtist(t), ""), row.duration, coin)
  {
    var duration := if TruthyNum(t.duration) then t.duration.value else DefaultDuration;
    SongRow(t.id, t.title, OrElse(FirstArtist(t), "Unknown Artist"),
            OrElse(if t.album.Some? then t.album.value.title else None, "Unknown Album"),
            duration, OrElse(FirstCover(t), ""),
            ClassifySong(t.title, OrElse(FirstArtist(t), ""), duration, coin))
  }

  /** A track without a duration is classified by its words alone, or by the coin. */
  lemma MissingDurationSkipsDurationRules(t: Track, coin: bool)
    requires !TruthyNum(t.duration)
    ensures var row := FormatSong(t, coin);
      row.duration == DefaultDuration
      && row.classification == (
        if HasKeyword(t.title, OrElse(FirstArtist(t), ""), SongMorningWords) then Morning
        else if HasKeyword(t.title, OrElse(FirstArtist(t), ""), SongEveningWords) then Evening
        else if coin then Morning else Evening)
  {
  }

  /** `playlist.data.map(...)`: an item without a resource makes the whole mapping throw. */
  function FormatSongs(items: seq<Item>, coin: nat -> bool): (r: Option<seq<SongRow>>)
    ensures r.Some? <==> forall k :: 0 <= k < |items| ==> items[k].resource.Some?
    ensures r.Some? ==> |r.value| == |items|
    ensures r.Some? ==> forall k :: 0 <= k < |items| ==> r.value[k] == FormatSong(items[k].resource.value, coin(k))
  {
    if forall k :: 0 <= k < |items| ==> items[k].resource.Some? then
      Some(seq(|items|, k requires 0 <= k < |items| => FormatSong(items[k].resource.value, coin(k))))
    else None
  }

  // ---------------------------------------------------------------------------
  // The handler

  datatype OAuthEvent = OAuthEvent(httpMethod: string, cookie: Option<string>, playlistIdParam: Option<string>)

  datatype OAuthBody =
    | NoContent
    | NotAuthenticated
    | Songs(tracks: seq<SongRow>, total: nat)
    | AuthFailed(message: string)
    | FetchFailed(message: string)

  datatype OAuthResponse = OAuthResponse(status: int, body: OAuthBody)

  /** The playlist request the handler issues, if any: the catalog call and the access token it carries. */
  datatype PlaylistRequest = PlaylistRequest(call: TidalClient.CatalogCall, accessToken: string)

  datatype OAuthRun = OAuthRun(response: OAuthResponse, request: Option<PlaylistRequest>)

  const TypeErrorMessage := "Cannot read properties of undefined (reading 'duration')"

  /**
   * What the renewal step throws as written: the client class has no `refreshAccessToken`
   * method, so reading `.call` on it fails before any request is made.
   */
  const MissingRefreshMethod := "Cannot read properties of undefined (reading 'call')"

  /** A template literal renders an absent playlist id as 'undefined'. */
  function IdText(id: Option<string>): (s: string)
    ensures id.Some? ==> s == id.value
    ensures id.None? ==> s == Undefined
  {
    if id.Some? then id.value else Undefined
  }

  /** The catch block: '401' or 'authentication' in the message is 401, anything else is 500. */
  function ErrorToResponse(message: string): (r: OAuthResponse)
    ensures r.status == 401 <==> Contains(message, "401") || Contains(message, "authentication")
    ensures r.status == 401 || r.status == 500
    ensures r.body == (if r.status == 401 then AuthFailed(message) else FetchFailed(message))
  {
    if Contains(message, "401") || Contains(message, "authentication") then OAuthResponse(401, AuthFailed(message))
    else OAuthResponse(500, FetchFailed(message))
  }

  /**
   * `handler(event)`. `user` is the outcome of `JSON.parse` on the user cookie (its
   * `countryCode`, or the error message); `renewed` is the outcome of renewing the access token
   * with the refresh cookie and installing it (the new access token, or the message of what was
   * thrown); `fetched` is the answer to the playlist request (its items, or the error message).
   * The playlist is requested through `getPlaylist`, which always asks for country 'NO': the
   * user's country code is read but never sent.
   */
  function HandleOAuth(ev: OAuthEvent, decode: Decoder, envPlaylistId: Option<string>,
                       user: Result<Option<string>, string>, renewed: Result<string, string>,
                       fetched: Result<seq<Item>, string>, coin: nat -> bool): (r: OAuthRun)
    ensures r.response.status in {200, 401, 500}
    ensures r.request.Some? ==> user.Ok? && renewed.Ok? && r.request.value.accessToken == renewed.value
    ensures r.response.body.Songs? ==> r.request.Some? && fetched.Ok? && r.response.body.total == |fetched.value|
  {
    if ev.httpMethod == "OPTIONS" then OAuthRun(OAuthResponse(200, NoContent), None)
    else
      match ParseCookiesSpec(ev.cookie, decode)
      case Err(m) => OAuthRun(ErrorToResponse(m), None)
      case Ok(cookies) =>
        var refresh := if "tidalRefresh" in cookies then Some(cookies["tidalRefresh"]) else None;
        var userCookie := if "tidalUser" in cookies then Some(cookies["tidalUser"]) else None;
        if !Truthy(refresh) || !Truthy(userCookie) then OAuthRun(OAuthResponse(401, NotAuthenticated), None)
        else
          match user
          case Err(m) => OAuthRun(ErrorToResponse(m), None)
          case Ok(country) =>
            match renewed
            case Err(m) => OAuthRun(ErrorToResponse(m), None)
            case Ok(accessToken) =>
              var playlistId := if Truthy(ev.playlistIdParam) then ev.playlistIdParam else envPlaylistId;
              var request := Some(PlaylistRequest(TidalClient.Call(TidalClient.GetPlaylist(IdText(playlistId))), accessToken));
              match fetched
              case Err(m) => OAuthRun(ErrorToResponse(m), request)
              case Ok(items) =>
                match FormatSongs(items, coin)
                case None => OAuthRun(ErrorToResponse(TypeErrorMessage), request)
                case Some(rows) => OAuthRun(OAuthResponse(200, Songs(rows, |rows|)), request)
  }

  /** Both cookies the handler needs are present and non-empty. */
  predicate SignedIn(cookies: Cookies) {
    "tidalRefresh" in cookies && cookies["tidalRefresh"] != "" && "tidalUser" in cookies && cookies["tidalUser"] != ""
  }

  /**
   * Without a truthy tidalRefresh or tidalUser cookie the answer is 401 'Not authenticated'
   * and no request is issued. With both, a user cookie that does not parse and a failed renewal
   * are each reported through the catch block, again without a playlist request.
   */
  lemma CookiesGateTheRequest(ev: OAuthEvent, decode: Decoder, envPlaylistId: Option<string>,
                              user: Result<Option<string>, string>, renewed: Result<string, string>,
                              fetched: Result<seq<Item>, string>, coin: nat -> bool)
    requires ev.httpMethod != "OPTIONS"
    requires ParseCookiesSpec(ev.cookie, decode).Ok?
    ensures var cookies := ParseCookiesSpec(ev.cookie, decode).value;
      var r := HandleOAuth(ev, decode, envPlaylistId, user, renewed, fetched, coin);
      && (!SignedIn(cookies) ==> r == OAuthRun(OAuthResponse(401, NotAuthenticated), None))
      && (SignedIn(cookies) && user.Err? ==> r == OAuthRun(ErrorToResponse(user.error), None))
      && (SignedIn(cookies) && user.Ok? && renewed.Err? ==> r == OAuthRun(ErrorToResponse(renewed.error), None))
  {
    var cookies := ParseCookiesSpec(ev.cookie, decode).value;
    var refresh := if "tidalRefresh" in cookies then Some(cookies["tidalRefresh"]) else None;
    var userCookie := if "tidalUser" in cookies then Some(cookies["tidalUser"]) else None;
    assert SignedIn(cookies) <==> Truthy(refresh) && Truthy(userCookie);
  }

  /**
   * Signed in, with a user cookie that parses and a renewed access token, the handler requests
   * the playlist with that token, for country 'NO' whatever the user's country; a 200 answer
   * lists one song per item and counts them.
   */
  lemma RenewalRequestsPlaylist(ev: OAuthEvent, decode: Decoder, envPlaylistId: Option<string>,
                                country: Option<string>, accessToken: string,
                                fetched: Result<seq<Item>, string>, coin: nat -> bool)
    requires ev.httpMethod != "OPTIONS"
    requires ParseCookiesSpec(ev.cookie, decode).Ok? && SignedIn(ParseCookiesSpec(ev.cookie, decode).value)
    ensures var r := HandleOAuth(ev, decode, envPlaylistId, Ok(country), Ok(accessToken), fetched, coin);
      var playlistId := if Truthy(ev.playlistIdParam) then ev.playlistIdParam else envPlaylistId;
      && r.request == Some(PlaylistRequest(TidalClient.Call(TidalClient.GetPlaylist(IdText(playlistId))), accessToken))
      && TidalClient.ParamLookup(r.request.value.call.params, "countryCode") == Some(TidalClient.Str("NO"))
      && (fetched.Ok? && r.response.status == 200 ==> r.response.body.total == |r.response.body.tracks| == |fetched.value|)
  {
    var r := HandleOAuth(ev, decode, envPlaylistId, Ok(country), Ok(accessToken), fetched, coin);
    if fetched.Ok? && FormatSongs(fetched.value, coin).Some? {
      assert r.response.body == Songs(FormatSongs(fetched.value, coin).value, |fetched.value|);
    }
  }

  /**
   * Once the playlist is requested, the answer follows the fetch: a failed request goes to the
   * catch block with its message; an item without a resource makes the mapping throw the
   * TypeError; otherwise 200 with the formatted songs, one per item, and their count.
   */
  lemma FetchedPlaylistAnswers(ev: OAuthEvent, decode: Decoder, envPlaylistId: Option<string>,
                               country: Option<string>, accessToken: string,
                               fetched: Result<seq<Item>, string>, coin: nat -> bool)
    requires ev.httpMethod != "OPTIONS"
    requires ParseCookiesSpec(ev.cookie, decode).Ok? && SignedIn(ParseCookiesSpec(ev.cookie, decode).value)
    ensures var r := HandleOAuth(ev, decode, envPlaylistId, Ok(country), Ok(accessToken), fetched, coin);
      && (fetched.Err? ==> r.response == ErrorToResponse(fetched.error))
      && (fetched.Ok? && FormatSongs(fetched.value, coin).None? ==> r.response == ErrorToResponse(TypeErrorMessage))
      && (fetched.Ok? && FormatSongs(fetched.value, coin).Some? ==>
            r.response == OAuthResponse(200, Songs(FormatSongs(fetched.value, coin).value, |fetched.value|)))
  {
    var cookies := ParseCookiesSpec(ev.cookie, decode).value;
    assert "tidalRefresh" in cookies && "tidalUser" in cookies;
  }

  /**
   * As written, the renewal step always throws `MissingRefreshMethod`: a request with both
   * cookies and a readable user cookie is answered by the catch block with that message, never
   * with the songs, and the playlist is never requested, whatever the token endpoint and the
   * catalog would answer.
   */
  lemma AsWrittenNeverFetches(ev: OAuthEvent, decode: Decoder, envPlaylistId: Option<string>,
                              country: Option<string>, fetched: Result<seq<Item>, string>, coin: nat -> bool)
    requires ev.httpMethod != "OPTIONS"
    requires ParseCookiesSpec(ev.cookie, decode).Ok?
    ensures var cookies := ParseCookiesSpec(ev.cookie, decode).value;
      var r := HandleOAuth(ev, decode, envPlaylistId, Ok(country), Err(MissingRefreshMethod), fetched, coin);
      && r.request == None
      && r.response.status != 200
      && (SignedIn(cookies) ==> r.response == ErrorToResponse(MissingRefreshMethod))
  {
  }

  /** A missing or empty Cookie header is always 401 'Not authenticated'. */
  lemma NoCookieIsNotAuthenticated(ev: OAuthEvent, decode: Decoder, envPlaylistId: Option<string>,
                                   user: Result<Option<string>, string>, renewed: Result<string, string>,
                                   fetched: Result<seq<Item>, string>, coin: nat -> bool)
    requires ev.httpMethod != "OPTIONS" && !Truthy(ev.cookie)
    ensures HandleOAuth(ev, decode, envPlaylistId, user, renewed, fetched, coin).response == OAuthResponse(401, NotAuthenticated)
  {
  }
}
