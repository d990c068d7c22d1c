/**
 * The playlist helpers shared, line for line, by netlify/functions/get-playlist.js and
 * routes/playlist.js: the time-of-day classifier, cookie extraction, the country-code
 * fallback, the paginated fetch of a playlist's items and the track formatting; and the
 * decision table of the Netlify handler.
 *
 * `tidalClient.request('get', url)` is replaced by a script of page outcomes, one per
 * request; a script that runs out answers with an empty page.
 */
module Playlist {
  import opened Common
  import opened TidalClient
  import opened TidalSingleton
  import ClientRetry

  // ---------------------------------------------------------------------------
  // classifyTimeOfDay

  datatype TimeOfDay = Morning | Evening | Day

  function Label(c: TimeOfDay): string {
    match c
    case Morning => "morning"
    case Evening => "evening"
    case Day => "day"
  }

  /** `s` contains one of `words`. */
  predicate ContainsAny(s: string, words: seq<string>)
    decreases |words|
  {
    words != [] && (Contains(s, words[0]) || ContainsAny(s, words[1..]))
  }

  lemma {:induction false} ContainsAnyMember(s: string, words: seq<string>, k: nat)
    requires k < |words| && Contains(s, words[k])
    ensures ContainsAny(s, words)
    decreases k
  {
    if k > 0 {
      assert words[1..][k - 1] == words[k];
      ContainsAnyMember(s, words[1..], k - 1);
    }
  }

  const MorningWords: seq<string> := ["morning", "sunrise", "dawn"]
  const EveningWords: seq<string> := ["evening", "sunset", "dusk", "night"]

  /** Lower-cased keyword search; the morning words are tested before the evening words. */
  function ClassifyTimeOfDay(title: string): (c: TimeOfDay)
    ensures c == Morning <==> ContainsAny(ToLower(title), MorningWords)
    ensures c == Evening <==> !ContainsAny(ToLower(title), MorningWords) && ContainsAny(ToLower(title), EveningWords)
  {
    var lower := ToLower(title);
    if ContainsAny(lower, MorningWords) then Morning
    else if ContainsAny(lower, EveningWords) then Evening
    else Day
  }

  lemma ToLowerConcat(a: string, b: string)
    ensures ToLower(a + b) == ToLower(a) + ToLower(b)
  {
  }

  /** A word that lower-cases to `w` anywhere in `a + word + b` is found by the lower-cased search for `w`. */
  lemma ContainsLowered(a: string, word: string, b: string, w: string)
    requires ToLower(word) == w
    ensures Contains(ToLower(a + word + b), w)
  {
    ToLowerConcat(a + word, b);
    ToLowerConcat(a, word);
    assert ToLower(a + word + b) == ToLower(a) + w + ToLower(b);
    assert (ToLower(a) + w + ToLower(b))[|ToLower(a)|..|ToLower(a)| + |w|] == w;
    ContainsAt(ToLower(a + word + b), w, |ToLower(a)|);
  }

  /**
   * Any title containing a morning word, in any letter case, is 'morning', whatever else it
   * contains ("Morning Night" included).
   */
  lemma MorningWordWins(a: string, word: string, b: string, k: nat)
    requires k < |MorningWords| && ToLower(word) == MorningWords[k]
    ensures ClassifyTimeOfDay(a + word + b) == Morning
  {
    ContainsLowered(a, word, b, MorningWords[k]);
    ContainsAnyMember(ToLower(a + word + b), MorningWords, k);
  }

  /** A title with an evening word, in any letter case, and no morning word is 'evening'. */
  lemma EveningWordWithoutMorning(a: string, word: string, b: string, k: nat)
    requires k < |EveningWords| && ToLower(word) == EveningWords[k]
    requires !ContainsAny(ToLower(a + word + b), MorningWords)
    ensures ClassifyTimeOfDay(a + word + b) == Evening
  {
    ContainsLowered(a, word, b, EveningWords[k]);
    ContainsAnyMember(ToLower(a + word + b), EveningWords, k);
  }

  /** Classification ignores letter case. */
  lemma ClassifyIgnoresCase(title: string)
    ensures ClassifyTimeOfDay(ToLower(title)) == ClassifyTimeOfDay(title)
  {
    ToLowerIdempotent(title);
  }

  // ---------------------------------------------------------------------------
  // extractUserToken / extractRefreshToken

  /** The longest prefix of `s` without ';'. */
  function UpToSemicolon(s: string): (r: string)
    ensures StartsWith(s, r) && ';' !in r
    ensures |r| < |s| ==> s[|r|] == ';'
    decreases |s|
  {
    if s == [] || s[0] == ';' then [] else [s[0]] + UpToSemicolon(s[1..])
  }

  /** The match of `key` followed by at least one non-';' character begins at position `p` of `s`. */
  predicate MatchAt(s: string, key: string, p: nat) {
    p + |key| < |s| && s[p..p + |key|] == key && s[p + |key|] != ';'
  }

  /** `p` is the leftmost position at which `key` followed by a non-';' character occurs in `s`. */
  predicate LeftmostMatch(s: string, key: string, p: nat) {
    MatchAt(s, key, p) && forall q :: 0 <= q < p ==> !MatchAt(s, key, q)
  }

  /** The leftmost match of the pattern `key([^;]+)` in `s`, and its captured group. */
  function FindCookie(s: string, key: string): (r: Option<string>)
    ensures r.Some? ==> r.value != [] && ';' !in r.value
    ensures r.Some? <==> exists p :: 0 <= p < |s| && MatchAt(s, key, p)
    ensures r.Some? ==> exists p :: 0 <= p < |s| && LeftmostMatch(s, key, p) && r.value == UpToSemicolon(s[p + |key|..])
    decreases |s|
  {
    if s == [] then None
    else if MatchAt(s, key, 0) then
      assert s[..|key|] == s[0..|key|];
      assert LeftmostMatch(s, key, 0);
      Some(UpToSemicolon(s[|key|..]))
    else
      var r := FindCookie(s[1..], key);
      assert forall p :: 0 < p < |s| ==> (MatchAt(s, key, p) <==> MatchAt(s[1..], key, p - 1)) by {
        forall p | 0 < p < |s| ensures MatchAt(s, key, p) <==> MatchAt(s[1..], key, p - 1) {
          if p + |key| < |s| {
            assert s[1..][p - 1..p - 1 + |key|] == s[p..p + |key|];
          }
        }
      }
      if r.Some? then
        var p :| 0 <= p < |s[1..]| && LeftmostMatch(s[1..], key, p) && r.value == UpToSemicolon(s[1..][p + |key|..]);
        assert MatchAt(s, key, p + 1);
        assert forall q :: 0 < q < p + 1 ==> !MatchAt(s, key, q) by {
          forall q | 0 < q < p + 1 ensures !MatchAt(s, key, q) {
            assert !MatchAt(s[1..], key, q - 1);
          }
        }
        assert LeftmostMatch(s, key, p + 1);
        assert s[1..][p + |key|..] == s[p + 1 + |key|..];
        r
      else r
  }

  /** `extractUserToken` / `extractRefreshToken`: null for a falsy header or no match, else the
      run of non-';' characters after the leftmost `name=` that is followed by one. */
  function ExtractCookie(header: Option<string>, name: string): (r: Option<string>)
    ensures !Truthy(header) ==> r == None
    ensures r.Some? ==> r.value != [] && ';' !in r.value
    ensures Truthy(header) ==> (r.Some? <==> exists p :: 0 <= p < |header.value| && MatchAt(header.value, name + "=", p))
    ensures r.Some? ==> exists p :: 0 <= p < |header.value| && LeftmostMatch(header.value, name + "=", p)
                                    && r.value == UpToSemicolon(header.value[p + |name| + 1..])
  {
    if !Truthy(header) then None else FindCookie(header.value, name + "=")
  }

  /** The cookie standing first in the header is read up to the next ';'. */
  lemma ExtractFirstCookie(name: string, v: string, rest: string)
    requires v != [] && ';' !in v
    ensures ExtractCookie(Some(name + "=" + v + ";" + rest), name) == Some(v)
  {
    var key := name + "=";
    var s := name + "=" + v + ";" + rest;
    assert s == key + v + ";" + rest;
    assert s[0..|key|] == key;
    assert s[|key|] == v[0];
    assert MatchAt(s, key, 0);
    UpToSemicolonOf(v, rest);
    assert s[|key|..] == v + ";" + rest;
  }

  lemma {:induction false} UpToSemicolonOf(v: string, rest: string)
    requires ';' !in v
    ensures UpToSemicolon(v + ";" + rest) == v
    decreases |v|
  {
    if v != [] {
      assert (v + ";" + rest)[1..] == v[1..] + ";" + rest;
      UpToSemicolonOf(v[1..], rest);
    }
  }

  // ---------------------------------------------------------------------------
  // getUserCountryCode

  /** A thrown error: its message and, when it carries a response, that response's status. */
  datatype JsError = JsError(message: Option<string>, status: Option<int>)

  /**
   * The profile's country code when the profile request succeeds with a truthy one, else
   * TIDAL_COUNTRY_CODE, else DEFAULT_COUNTRY, else 'US'. A failed profile request is swallowed.
   */
  function CountryCode(profile: Result<Option<string>, JsError>, envCountry: Option<string>,
                       envDefault: Option<string>): (cc: string)
    ensures cc != ""
    ensures profile.Ok? && Truthy(profile.value) ==> cc == profile.value.value
    ensures !(profile.Ok? && Truthy(profile.value)) ==>
      cc == (if Truthy(envCountry) then envCountry.value else if Truthy(envDefault) then envDefault.value else "US")
  {
    if profile.Ok? && Truthy(profile.value) then profile.value.value
    else OrElse(envCountry, OrElse(envDefault, "US"))
  }

  // ---------------------------------------------------------------------------
  // Items and formatting

  datatype Image = Image(width: Option<int>, url: Option<string>)
  datatype Album = Album(title: Option<string>, imageCover: Option<seq<Image>>)
  datatype Artist = Artist(name: Option<string>)
  datatype Preview = Preview(url: Option<string>)
  datatype Track = Track(id: string, title: string, artists: Option<seq<Artist>>, album: Option<Album>,
                         duration: Option<int>, previews: Option<seq<Preview>>)
  /** A playlist item: its `type` and its `resource`. */
  datatype Item = Item(itemType: Option<string>, resource: Option<Track>)

  datatype Formatted = Formatted(id: string, title: string, artist: string, album: Option<string>,
                                 duration: Option<int>, coverArtUrl: Option<string>, previewUrl: Option<string>,
                                 tidalUrl: string, timeOfDay: TimeOfDay)

  const TrackUrlPrefix := "https://tidal.com/browse/track/"

  /** `name` of each artist, an absent name printed as the empty string by `join`. */
  function ArtistNames(artists: seq<Artist>): (names: seq<string>)
    ensures |names| == |artists|
  {
    seq(|artists|, k requires 0 <= k < |artists| => if artists[k].name.Some? then artists[k].name.value else "")
  }

  /** The first image of width 320, if any. */
  function FindWidth320(images: seq<Image>): (r: Option<Image>)
    ensures r.Some? ==> r.value in images && r.value.width == Some(320)
    ensures r.Some? ==> exists k :: 0 <= k < |images| && images[k] == r.value &&
                                    forall j :: 0 <= j < k ==> images[j].width != Some(320)
    ensures r.None? ==> forall k :: 0 <= k < |images| ==> images[k].width != Some(320)
    decreases |images|
  {
    if images == [] then None
    else if images[0].width == Some(320) then Some(images[0])
    else
      var r := FindWidth320(images[1..]);
      if r.Some? then
        var k :| 0 <= k < |images[1..]| && images[1..][k] == r.value &&
                 forall j :: 0 <= j < k ==> images[1..][j].width != Some(320);
        assert images[k + 1] == r.value;
        assert forall j :: 0 <= j < k + 1 ==> images[j].width != Some(320) by {
          forall j | 0 <= j < k + 1 ensures images[j].width != Some(320) {
            if j > 0 { assert images[j] == images[1..][j - 1]; }
          }
        }
        r
      else r
  }

  /** The cover: the 320-wide image's url when truthy, else the first image's url. */
  function CoverUrl(album: Option<Album>): (r: Option<string>)
    ensures album.None? || album.value.imageCover.None? ==> r == None
    ensures album.Some? && album.value.imageCover.Some? ==>
      var images := album.value.imageCover.value;
      var w := FindWidth320(images);
      r == (if w.Some? && Truthy(w.value.url) then w.value.url else if images != [] then images[0].url else None)
  {
    if album.None? || album.value.imageCover.None? then None
    else
      var images := album.value.imageCover.value;
      var w := FindWidth320(images);
      if w.Some? && Truthy(w.value.url) then w.value.url
      else if images != [] then images[0].url
      else None
  }

  predicate IsTrackItem(item: Item) {
    item.resource.Some? && item.itemType == Some("track")
  }

  function FormatTrack(t: Track): (f: Formatted)
    ensures f.id == t.id && f.title == t.title && f.duration == t.duration
    ensures f.tidalUrl == TrackUrlPrefix + t.id
    ensures f.timeOfDay == ClassifyTimeOfDay(t.title)
    ensures f.artist == (if t.artists.Some? && |t.artists.value| > 0 then Join(ArtistNames(t.artists.value), ", ") else "Unknown Artist")
    ensures f.album == (if t.album.Some? then t.album.value.title else Some("Unknown Album"))
    ensures f.coverArtUrl == CoverUrl(t.album)
    ensures f.previewUrl == (if t.previews.Some? && |t.previews.value| > 0 then t.previews.value[0].url else None)
  {
    Formatted(
      t.id, t.title,
      if t.artists.Some? && |t.artists.value| > 0 then Join(ArtistNames(t.artists.value), ", ") else "Unknown Artist",
      if t.album.Some? then t.album.value.title else Some("Unknown Album"),
      t.duration,
      CoverUrl(t.album),
      if t.previews.Some? && |t.previews.value| > 0 then t.previews.value[0].url else None,
      TrackUrlPrefix + t.id,
      ClassifyTimeOfDay(t.title))
  }

  /** The track items of `items`, in order. */
  function TrackItems(items: seq<Item>): (r: seq<Item>)
    ensures |r| <= |items|
    ensures forall k :: 0 <= k < |r| ==> IsTrackItem(r[k])
    ensures forall x :: x in r <==> x in items && IsTrackItem(x)
    decreases |items|
  {
    if items == [] then []
    else if IsTrackItem(items[0]) then [items[0]] + TrackItems(items[1..])
    else TrackItems(items[1..])
  }

  /** `rawTracks.map(...).filter(t => t !== null)`: every track item formatted, in order. */
  function FormatTracks(items: seq<Item>): (r: seq<Formatted>)
    ensures |r| == |TrackItems(items)|
    ensures forall k :: 0 <= k < |r| ==> r[k] == FormatTrack(TrackItems(items)[k].resource.value)
  {
    var tracks := TrackItems(items);
    seq(|tracks|, k requires 0 <= k < |tracks| => FormatTrack(tracks[k].resource.value))
  }

  /** Formatting a concatenation is concatenating the formatted parts: order is preserved. */
  lemma {:induction false} TrackItemsConcat(a: seq<Item>, b: seq<Item>)
    ensures TrackItems(a + b) == TrackItems(a) + TrackItems(b)
    decreases |a|
  {
    if a != [] {
      assert (a + b)[0] == a[0];
      assert (a + b)[1..] == a[1..] + b;
      TrackItemsConcat(a[1..], b);
      if IsTrackItem(a[0]) {
        assert TrackItems(a + b) == [a[0]] + (TrackItems(a[1..]) + TrackItems(b));
      } else {
        assert TrackItems(a + b) == TrackItems(a[1..]) + TrackItems(b);
      }
    } else {
      assert a + b == b;
    }
  }

  lemma FormatTracksConcat(a: seq<Item>, b: seq<Item>)
    ensures FormatTracks(a + b) == FormatTracks(a) + FormatTracks(b)
  {
    TrackItemsConcat(a, b);
  }

  // ---------------------------------------------------------------------------
  // fetchAllPlaylistTracks

  const PageLimit := 100
  const PlaylistApiBase := "https://openapi.tidal.com/v2"
  const LogInAgain := "please log in again"
  const FetchFailedMessage := "Failed to fetch playlist tracks"

  /** A page of items (`data.data`, possibly absent) and whether `metadata.next` is truthy. */
  datatype Page = Page(items: Option<seq<Item>>, hasNext: bool)

  type PageOutcome = Result<Page, JsError>

  /** Everything of a page URL up to its offset: the playlist's items, in the given country, `PageLimit` at a time. */
  function PagePrefix(playlistId: string, countryCode: string): string {
    PlaylistApiBase + "/playlists/" + playlistId + "/items?countryCode=" + countryCode
      + "&limit=" + NatToString(PageLimit) + "&offset="
  }

  /** The items URL of one page: the common prefix, then the offset in decimal. */
  function PageUrl(playlistId: string, countryCode: string, offset: nat): (url: string)
    ensures StartsWith(url, PagePrefix(playlistId, countryCode))
    ensures url[|PagePrefix(playlistId, countryCode)|..] == NatToString(offset)
  {
    var p := PagePrefix(playlistId, countryCode);
    assert (p + NatToString(offset))[..|p|] == p;
    p + NatToString(offset)
  }

  /** Two pages of the same playlist at different offsets are requested at different URLs. */
  lemma PageUrlsDistinct(playlistId: string, countryCode: string, o1: nat, o2: nat)
    requires o1 != o2
    ensures PageUrl(playlistId, countryCode, o1) != PageUrl(playlistId, countryCode, o2)
  {
    if PageUrl(playlistId, countryCode, o1) == PageUrl(playlistId, countryCode, o2) {
      DigitsValueOfNatToString(o1);
      DigitsValueOfNatToString(o2);
    }
  }

  predicate MentionsLogIn(e: JsError) {
    e.message.Some? && Contains(e.message.value, LogInAgain)
  }

  /** The catch block: an auth error passes unchanged, anything else becomes 'Failed to fetch playlist tracks'. */
  function PassThrough(e: JsError): (r: JsError)
    ensures MentionsLogIn(e) ==> r == e
    ensures !MentionsLogIn(e) ==> r == JsError(Some(FetchFailedMessage), None)
  {
    if MentionsLogIn(e) then e else JsError(Some(FetchFailedMessage), None)
  }

  /** The outcome the script gives to the next request: an exhausted script answers with an empty page. */
  function NextPage(pages: seq<PageOutcome>): PageOutcome {
    if pages == [] then Ok(Page(None, false)) else pages[0]
  }

  /** The page is non-empty, full and has a next page: the loop goes on. */
  predicate Continues(o: PageOutcome) {
    o.Ok? && o.value.items.Some? && |o.value.items.value| >= PageLimit && o.value.hasNext
  }

  /** What the fetch did: the items or the error, and the offset of every request in order. */
  datatype FetchRun = FetchRun(result: Result<seq<Item>, JsError>, offsets: seq<nat>)

  /** The loop of `fetchAllPlaylistTracks`, from a given offset. */
  function FetchSpec(pages: seq<PageOutcome>, offset: nat): (r: FetchRun)
    ensures |r.offsets| >= 1 && r.offsets[0] == offset
    decreases |pages|
  {
    match NextPage(pages)
    case Err(e) => FetchRun(Err(PassThrough(e)), [offset])
    case Ok(p) =>
      if p.items.None? || |p.items.value| == 0 then FetchRun(Ok([]), [offset])
      else if !Continues(Ok(p)) then FetchRun(Ok(p.items.value), [offset])
      else
        var rest := FetchSpec(pages[1..], offset + |p.items.value|);
        FetchRun(if rest.result.Ok? then Ok(p.items.value + rest.result.value) else rest.result, [offset] + rest.offsets)
  }

  function ItemsOf(o: PageOutcome): seq<Item> {
    if o.Ok? && o.value.items.Some? then o.value.items.value else []
  }

  /**
   * The pagination contract. The k-th request asks for the offset `offset` plus the number
   * of items of the pages before it; every page but the last one requested was full and had
   * a next page; the last one stops the loop; and a successful result is the in-order
   * concatenation of the requested pages.
   */
  lemma FetchContract(pages: seq<PageOutcome>, offset: nat)
    ensures var r := FetchSpec(pages, offset);
      && (forall k :: 0 <= k < |r.offsets| ==> r.offsets[k] == offset + |PagesPrefix(pages, k)|)
      && (forall k :: 0 <= k < |r.offsets| - 1 ==> Continues(PageAt(pages, k)))
      && !Continues(PageAt(pages, |r.offsets| - 1))
      && (r.result.Ok? ==> r.result.value == PagesPrefix(pages, |r.offsets|))
      && (r.result.Err? ==> PageAt(pages, |r.offsets| - 1).Err? && r.result.error == PassThrough(PageAt(pages, |r.offsets| - 1).error))
  {
    FetchOffsets(pages, offset);
    FetchResult(pages, offset);
  }

  /** The offsets of the requests, and which pages made the loop go on. */
  lemma {:induction false} FetchOffsets(pages: seq<PageOutcome>, offset: nat)
    ensures var r := FetchSpec(pages, offset);
      && (forall k :: 0 <= k < |r.offsets| ==> r.offsets[k] == offset + |PagesPrefix(pages, k)|)
      && (forall k :: 0 <= k < |r.offsets| - 1 ==> Continues(PageAt(pages, k)))
      && !Continues(PageAt(pages, |r.offsets| - 1))
    decreases |pages|
  {
    var r := FetchSpec(pages, offset);
    assert PageAt(pages, 0) == NextPage(pages);
    if Continues(NextPage(pages)) {
      var n := |ItemsOf(NextPage(pages))|;
      FetchOffsets(pages[1..], offset + n);
      var rest := FetchSpec(pages[1..], offset + n);
      assert r.offsets == [offset] + rest.offsets;
      forall k | 1 <= k < |r.offsets|
        ensures r.offsets[k] == offset + |PagesPrefix(pages, k)|
        ensures k < |r.offsets| - 1 ==> Continues(PageAt(pages, k))
      {
        PagesPrefixStep(pages, k - 1);
        PageAtStep(pages, k - 1);
      }
      PageAtStep(pages, |r.offsets| - 2);
    } else {
      assert r.offsets == [offset];
    }
  }

  /** The result: the requested pages' items in order, or the last page's error passed through the catch. */
  lemma {:induction false} FetchResult(pages: seq<PageOutcome>, offset: nat)
    ensures var r := FetchSpec(pages, offset);
      && (r.result.Ok? ==> r.result.value == PagesPrefix(pages, |r.offsets|))
      && (r.result.Err? ==> PageAt(pages, |r.offsets| - 1).Err? && r.result.error == PassThrough(PageAt(pages, |r.offsets| - 1).error))
    decreases |pages|
  {
    var r := FetchSpec(pages, offset);
    assert PageAt(pages, 0) == NextPage(pages);
    if Continues(NextPage(pages)) {
      var n := |ItemsOf(NextPage(pages))|;
      FetchResult(pages[1..], offset + n);
      var rest := FetchSpec(pages[1..], offset + n);
      assert |r.offsets| == |rest.offsets| + 1;
      PageAtStep(pages, |rest.offsets| - 1);
      PagesPrefixStep(pages, |rest.offsets|);
    } else {
      assert r.offsets == [offset];
      assert PagesPrefix(pages, 1) == ItemsOf(NextPage(pages)) + [];
    }
  }

  /** The outcome the k-th request receives. */
  function PageAt(pages: seq<PageOutcome>, k: nat): PageOutcome
    decreases k
  {
    if k == 0 then NextPage(pages) else PageAt(if pages == [] then [] else pages[1..], k - 1)
  }

  /** The items of the pages the first `k` requests receive. */
  function PagesPrefix(pages: seq<PageOutcome>, k: nat): seq<Item>
    decreases k
  {
    if k == 0 then [] else ItemsOf(NextPage(pages)) + PagesPrefix(if pages == [] then [] else pages[1..], k - 1)
  }

  lemma PageAtStep(pages: seq<PageOutcome>, k: nat)
    requires pages != []
    ensures PageAt(pages, k + 1) == PageAt(pages[1..], k)
  {
  }

  lemma PagesPrefixStep(pages: seq<PageOutcome>, k: nat)
    requires pages != []
    ensures PagesPrefix(pages, k + 1) == ItemsOf(NextPage(pages)) + PagesPrefix(pages[1..], k)
  {
  }

  /** `fetchAllPlaylistTracks(playlistId, userToken, countryCode)`. */
  method FetchAllPlaylistTracks(c: TidalApiClient, playlistId: string, userToken: Option<string>, countryCode: string,
                                now: int, pages: seq<PageOutcome>)
    returns (result: Result<seq<Item>, JsError>, urls: seq<string>)
    modifies c
    ensures c.Tokens() == (if Truthy(userToken) then CookieTokens(old(c.Tokens()), userToken, None, Some(3600), now)
                           else old(c.Tokens()))
    ensures var spec := FetchSpec(pages, 0);
      && result == spec.result
      && |urls| == |spec.offsets|
      && forall k :: 0 <= k < |urls| ==> urls[k] == PageUrl(playlistId, countryCode, spec.offsets[k])
  {
    if Truthy(userToken) {
      SetTokensFromCookies(c, userToken, None, Some(3600), now);
    }
    var tracks: seq<Item> := [];
    var offset := 0;
    var keepFetching := true;
    var rest := pages;
    var offsets: seq<nat> := [];
    result := Ok([]);
    assert [] + FetchSpec(pages, 0).offsets == FetchSpec(pages, 0).offsets;
    assert FetchSpec(pages, 0).result.Ok? ==> [] + FetchSpec(pages, 0).result.value == FetchSpec(pages, 0).result.value;
    ghost var stored := c.Tokens();
    while keepFetching
      invariant c.Tokens() == stored
      invariant keepFetching ==> FetchSpec(pages, 0) == Resume(tracks, offsets, FetchSpec(rest, offset))
      invariant !keepFetching ==> FetchSpec(pages, 0) == FetchRun(result, offsets)
      invariant offset == |tracks|
      decreases |rest|, keepFetching
    {
      ghost var step := FetchSpec(rest, offset);
      var outcome := NextPage(rest);
      offsets := offsets + [offset];
      match outcome {
        case Err(e) =>
          assert step == FetchRun(Err(PassThrough(e)), [offset]);
          result := Err(PassThrough(e));
          keepFetching := false;
        case Ok(p) =>
          if p.items.Some? && |p.items.value| > 0 {
            var items := p.items.value;
            ghost var seen := tracks;
            tracks := tracks + items;
            offset := offset + |items|;
            if |items| < PageLimit || !p.hasNext {
              assert step == FetchRun(Ok(items), [offset - |items|]);
              result := Ok(tracks);
              keepFetching := false;
            } else {
              assert step == Resume(items, [offset - |items|], FetchSpec(rest[1..], offset));
              ResumeAssoc(seen, items, offsets[..|offsets| - 1], [offset - |items|], FetchSpec(rest[1..], offset));
              assert offsets[..|offsets| - 1] + [offset - |items|] == offsets;
              rest := rest[1..];
            }
          } else {
            assert step == FetchRun(Ok([]), [offset]);
            assert tracks + [] == tracks;
            result := Ok(tracks);
            keepFetching := false;
          }
      }
    }
    urls := seq(|offsets|, k requires 0 <= k < |offsets| => PageUrl(playlistId, countryCode, offsets[k]));
  }

  /** `r`, seen from the items and the requests that came before it. */
  function Resume(tracks: seq<Item>, offsets: seq<nat>, r: FetchRun): FetchRun {
    FetchRun(if r.result.Ok? then Ok(tracks + r.result.value) else r.result, offsets + r.offsets)
  }

  lemma ResumeAssoc(t1: seq<Item>, t2: seq<Item>, o1: seq<nat>, o2: seq<nat>, r: FetchRun)
    ensures Resume(t1, o1, Resume(t2, o2, r)) == Resume(t1 + t2, o1 + o2, r)
  {
    assert o1 + (o2 + r.offsets) == o1 + o2 + r.offsets;
    if r.result.Ok? {
      assert t1 + (t2 + r.result.value) == t1 + t2 + r.result.value;
    }
  }

  // ---------------------------------------------------------------------------
  // The Netlify handler

  /** The parts of the event the handler reads: the method, the Cookie header and `queryStringParameters.id`. */
  datatype Event = Event(httpMethod: string, cookie: Option<string>, queryId: Option<string>)

  /** TIDAL_PLAYLIST_ID, TIDAL_COUNTRY_CODE and DEFAULT_COUNTRY. */
  datatype Env = Env(playlistId: Option<string>, countryCode: Option<string>, defaultCountry: Option<string>)

  /** A response body: none, the empty string, the formatted tracks, or a JSON error object. */
  datatype Body =
    | NoBody
    | EmptyBody
    | TracksJson(tracks: seq<Formatted>)
    | ErrorJson(error: string)
    | FailureJson(error: string, requiresAuth: Option<bool>)

  datatype Response = Response(status: int, location: Option<string>, body: Body)

  /** The response, the tokens the shared client is left with, and the requests issued. */
  datatype HandlerRun = HandlerRun(response: Response, tokens: TokenState, profileRequested: bool, pageUrls: seq<string>)

  const LoginPage := "/login.html"
  const FetchFromTidalFailed := "Failed to fetch playlist from TIDAL"
  const MissingPlaylistId := "Missing playlist ID"

  function LoginRedirect(): Response {
    Response(302, Some(LoginPage), NoBody)
  }

  /**
   * The last resort of the catch block: the error's response status or 500, its message or a
   * fixed one, and whether the message speaks of authentication (absent without a message).
   */
  function ErrorResponse(e: JsError): (r: Response)
    ensures r.status == (if TruthyNum(e.status) then e.status.value else 500)
    ensures r.location == None
    ensures r.body.FailureJson? && r.body.error == (if Truthy(e.message) then e.message.value else FetchFromTidalFailed)
    ensures r.body.requiresAuth.None? <==> e.message.None?
    ensures e.message.Some? ==>
      (r.body.requiresAuth.value <==> Contains(e.message.value, "authentication") || Contains(e.message.value, "log in"))
  {
    Response(
      if TruthyNum(e.status) then e.status.value else 500,
      None,
      FailureJson(
        if Truthy(e.message) then e.message.value else FetchFromTidalFailed,
        if e.message.None? then None
        else Some(Contains(e.message.value, "authentication") || Contains(e.message.value, "log in"))))
  }

  function PageUrls(playlistId: string, countryCode: string, offsets: seq<nat>): (urls: seq<string>)
    ensures |urls| == |offsets|
    ensures forall k :: 0 <= k < |urls| ==> urls[k] == PageUrl(playlistId, countryCode, offsets[k])
  {
    seq(|offsets|, k requires 0 <= k < |offsets| => PageUrl(playlistId, countryCode, offsets[k]))
  }

  /**
   * The tokens `fetchAllPlaylistTracks` leaves on the shared client: it sets the access token
   * from the cookie again, with a null refresh token.
   */
  function FetchTokens(t: TokenState, user: Option<string>, now: int): (r: TokenState)
    requires Truthy(user)
    ensures r.access == user && r.refresh == None && r.expiry == Some(ExpiryAt(now, 3600))
  {
    CookieTokens(t, user, None, Some(3600), now)
  }

  /**
   * `handler(event)`. The country code is looked up (one profile request, outcome `profile`)
   * before the playlist id is checked; the pages come from `pages`.
   */
  function HandlePlaylist(t: TokenState, ev: Event, env: Env, profile: Result<Option<string>, JsError>,
                          pages: seq<PageOutcome>, now: int): (h: HandlerRun)
    ensures h.profileRequested <==> ev.httpMethod != "OPTIONS" && Truthy(ExtractCookie(ev.cookie, "tidalUser"))
    ensures !h.profileRequested ==> h.tokens == t && h.pageUrls == []
  {
    if ev.httpMethod == "OPTIONS" then HandlerRun(Response(204, None, EmptyBody), t, false, [])
    else
      var user := ExtractCookie(ev.cookie, "tidalUser");
      var refresh := ExtractCookie(ev.cookie, "tidalRefresh");
      if !Truthy(user) then HandlerRun(LoginRedirect(), t, false, [])
      else
        var t1 := CookieTokens(t, user, refresh, Some(3600), now);
        var cc := CountryCode(profile, env.countryCode, env.defaultCountry);
        var id := if Truthy(ev.queryId) then ev.queryId else env.playlistId;
        if !Truthy(id) then HandlerRun(Response(400, None, ErrorJson(MissingPlaylistId)), t1, true, [])
        else
          var run := FetchSpec(pages, 0);
          var urls := PageUrls(id.value, cc, run.offsets);
          var t2 := FetchTokens(t1, user, now);
          match run.result
          case Ok(items) => HandlerRun(Response(200, None, TracksJson(FormatTracks(items))), t2, true, urls)
          case Err(e) => HandlerRun(if MentionsLogIn(e) then LoginRedirect() else ErrorResponse(e), t2, true, urls)
  }

  /** The handler's decision table, outcome by outcome. */
  lemma HandlerDecisions(t: TokenState, ev: Event, env: Env, profile: Result<Option<string>, JsError>,
                         pages: seq<PageOutcome>, now: int)
    ensures var h := HandlePlaylist(t, ev, env, profile, pages, now);
      var user := ExtractCookie(ev.cookie, "tidalUser");
      var id := if Truthy(ev.queryId) then ev.queryId else env.playlistId;
      var run := FetchSpec(pages, 0);
      && (ev.httpMethod == "OPTIONS" ==> h.response.status == 204 && h.tokens == t && !h.profileRequested)
      && (ev.httpMethod != "OPTIONS" && user.None? ==>
            h.response == LoginRedirect() && h.tokens == t && !h.profileRequested && h.pageUrls == [])
      && (ev.httpMethod != "OPTIONS" && user.Some? ==> h.profileRequested)
      && (ev.httpMethod != "OPTIONS" && user.Some? && !Truthy(id) ==>
            h.response == Response(400, None, ErrorJson(MissingPlaylistId)) && h.pageUrls == []
            && h.tokens.refresh == ExtractCookie(ev.cookie, "tidalRefresh"))
      && (ev.httpMethod != "OPTIONS" && user.Some? && Truthy(id) ==>
            |h.pageUrls| == |run.offsets| >= 1
            && h.pageUrls[0] == PageUrl(id.value, CountryCode(profile, env.countryCode, env.defaultCountry), 0)
            && (run.result.Ok? ==> h.response == Response(200, None, TracksJson(FormatTracks(run.result.value))))
            && (run.result.Err? ==> h.response.status != 200))
  {
    var h := HandlePlaylist(t, ev, env, profile, pages, now);
    var user := ExtractCookie(ev.cookie, "tidalUser");
    var id := if Truthy(ev.queryId) then ev.queryId else env.playlistId;
    var run := FetchSpec(pages, 0);
    if ev.httpMethod == "OPTIONS" {
      assert h == HandlerRun(Response(204, None, EmptyBody), t, false, []);
    } else if user.None? {
      assert h == HandlerRun(LoginRedirect(), t, false, []);
    } else if !Truthy(id) {
      var t1 := CookieTokens(t, user, ExtractCookie(ev.cookie, "tidalRefresh"), Some(3600), now);
      assert h == HandlerRun(Response(400, None, ErrorJson(MissingPlaylistId)), t1, true, []);
    } else {
      var cc := CountryCode(profile, env.countryCode, env.defaultCountry);
      assert h.pageUrls == PageUrls(id.value, cc, run.offsets);
      if run.result.Err? {
        var e := run.result.error;
        if !MentionsLogIn(e) {
          FetchResult(pages, 0);
          assert h.response == ErrorResponse(e);
        }
      }
    }
  }

  /**
   * A failed page fetch: an error asking to log in again redirects to the login page; any other
   * error is answered 500 with 'Failed to fetch playlist tracks', not flagged as an auth error.
   */
  lemma HandlerFetchErrors(t: TokenState, ev: Event, env: Env, profile: Result<Option<string>, JsError>,
                           pages: seq<PageOutcome>, now: int)
    requires ev.httpMethod != "OPTIONS" && ExtractCookie(ev.cookie, "tidalUser").Some?
    requires Truthy(if Truthy(ev.queryId) then ev.queryId else env.playlistId)
    requires FetchSpec(pages, 0).result.Err?
    ensures var h := HandlePlaylist(t, ev, env, profile, pages, now);
      var e := FetchSpec(pages, 0).result.error;
      && (MentionsLogIn(e) ==> h.response == LoginRedirect())
      && (!MentionsLogIn(e) ==>
            h.response == Response(500, None, FailureJson(FetchFailedMessage, Some(false))))
  {
    var e := FetchSpec(pages, 0).result.error;
    if !MentionsLogIn(e) {
      FetchResult(pages, 0);
      assert e == JsError(Some(FetchFailedMessage), None);
      FetchFailedMessagePlain();
      PlainErrorResponse(FetchFailedMessage);
    }
  }

  lemma FetchFailedMessagePlain()
    ensures FetchFailedMessage != [] && 'u' !in FetchFailedMessage && 'g' !in FetchFailedMessage
  {
  }

  /** A message without 'u' or 'g' speaks neither of authentication nor of logging in. */
  lemma PlainErrorResponse(m: string)
    requires m != [] && 'u' !in m && 'g' !in m
    ensures ErrorResponse(JsError(Some(m), None)) == Response(500, None, FailureJson(m, Some(false)))
  {
    MissingCharNotContained(m, "authentication", 1);
    MissingCharNotContained(m, "log in", 2);
  }

  /**
   * As written, the refresh token read from the cookie is overwritten with null by
   * `fetchAllPlaylistTracks` before the first page is requested: every refresh during the page
   * requests fails with 'No refresh token available', whatever the token endpoint would answer.
   */
  lemma HandlerDropsRefreshToken(t: TokenState, ev: Event, env: Env, profile: Result<Option<string>, JsError>,
                                 pages: seq<PageOutcome>, now: int, auth: seq<TokenAttempt>)
    requires ev.httpMethod != "OPTIONS"
    requires ExtractCookie(ev.cookie, "tidalUser").Some? && ExtractCookie(ev.cookie, "tidalRefresh").Some?
    requires Truthy(if Truthy(ev.queryId) then ev.queryId else env.playlistId)
    ensures CookieTokens(t, ExtractCookie(ev.cookie, "tidalUser"), ExtractCookie(ev.cookie, "tidalRefresh"), Some(3600), now).refresh.Some?
    ensures HandlePlaylist(t, ev, env, profile, pages, now).tokens.refresh == None
    ensures RefreshSpec(HandlePlaylist(t, ev, env, profile, pages, now).tokens, auth, now).result == Err(ClientRetry.NoRefreshToken)
  {
  }

  /** The intended tokens for the page requests: the cookie's refresh token is passed on. */
  function FetchTokensCorrected(t: TokenState, user: Option<string>, refresh: Option<string>, now: int): (r: TokenState)
    requires Truthy(user)
    ensures r.access == user && r.refresh == refresh && r.expiry == Some(ExpiryAt(now, 3600))
  {
    CookieTokens(t, user, refresh, Some(3600), now)
  }

  /**
   * With the refresh token passed on, the page requests run on exactly the tokens the handler
   * set from the cookies, and a refresh sends the cookie's refresh token.
   */
  lemma CorrectedFetchKeepsRefreshToken(t: TokenState, user: Option<string>, refresh: Option<string>, now: int,
                                        auth: seq<TokenAttempt>)
    requires Truthy(user) && Truthy(refresh)
    ensures var t1 := CookieTokens(t, user, refresh, Some(3600), now);
      FetchTokensCorrected(t1, user, refresh, now) == t1
      && RefreshSpec(FetchTokensCorrected(t1, user, refresh, now), auth, now).result != Err(ClientRetry.NoRefreshToken)
  {
  }
}
