/**
 * The HTTP handlers. `GET /api/playlist/:id` tries three sources in turn
 * (the official YouTube Data API when a key is configured, the ytpl library,
 * and the playlist page's embedded data) and answers with the first that
 * yields a playlist, else 404. `POST /api/games` validates the body, stores
 * the row and answers 201, or 400 with the first validation issue.
 *
 * What each upstream source returns is an input here: the network calls, the
 * library and the page's regular expression and JSON parsing are not modelled.
 */
module Server {
  import opened Common
  import opened Strings
  import opened Seqs
  import opened Schema
  import opened Storage
  import opened ApiRoutes

  /** What an upstream call gave: it threw (network error, bad status), or it returned a value. */
  datatype Fetch<+T> = Threw | Returned(value: T)

  // ---------------------------------------------------------------------------
  // Strategy 1: the official API
  // ---------------------------------------------------------------------------

  /**
   * One entry of `playlistItems`: `snippet.resourceId.videoId`,
   * `snippet.title` and the medium and default thumbnail urls.
   */
  datatype ApiItem = ApiItem(videoId: Option<string>, title: string, mediumUrl: Option<string>, defaultUrl: Option<string>)

  /** The medium thumbnail, else the default one, else "". */
  function ApiThumbnail(item: ApiItem): (t: string)
    ensures Truthy(item.mediumUrl) ==> t == item.mediumUrl.value
    ensures !Truthy(item.mediumUrl) && Truthy(item.defaultUrl) ==> t == item.defaultUrl.value
    ensures !Truthy(item.mediumUrl) && !Truthy(item.defaultUrl) ==> t == ""
  {
    var xs := [item.mediumUrl, item.defaultUrl];
    assert xs[0] == item.mediumUrl && xs[1] == item.defaultUrl;
    Coalesce(xs, "")
  }

  /** An item is kept when its video id is present and non-empty. */
  function ApiSong(item: ApiItem): Option<PlaylistSong> {
    if Truthy(item.videoId) then Some(PlaylistSong(item.videoId.value, item.title, ApiThumbnail(item)))
    else None
  }

  function ApiSongs(items: seq<ApiItem>): seq<PlaylistSong> {
    FilterMap(items, ApiSong)
  }

  /** The songs are exactly the items with a video id, in their original order. */
  lemma {:induction false} ApiSongsInOrder(a: seq<ApiItem>, item: ApiItem, b: seq<ApiItem>)
    ensures ApiSongs(a + [item] + b)
            == ApiSongs(a)
               + (if Truthy(item.videoId) then [PlaylistSong(item.videoId.value, item.title, ApiThumbnail(item))] else [])
               + ApiSongs(b)
  {
    FilterMapAround(a, item, b, ApiSong);
  }

  /** The playlist title from the second call, else "YouTube Playlist". */
  function ApiTitle(title: Option<string>): (t: string)
    ensures Truthy(title) ==> t == title.value
    ensures !Truthy(title) ==> t == "YouTube Playlist"
  {
    Coalesce([title], "YouTube Playlist")
  }

  /**
   * Strategy 1 as written: with a key, a non-empty `items` and a title call
   * that does not throw, the playlist under the requested id, however many
   * items survive the filter. Anything thrown abandons the strategy.
   */
  function OfficialStrategy(playlistId: string, apiKey: Option<string>, items: Fetch<Option<seq<ApiItem>>>,
                            title: Fetch<Option<string>>): (r: Option<PlaylistResponse>)
    ensures r.Some? <==> && Truthy(apiKey) && items.Returned? && items.value.Some? && |items.value.value| > 0
                         && title.Returned?
    ensures r.Some? ==> && r.value.id == playlistId && r.value.title == ApiTitle(title.value)
                        && r.value.songs == ApiSongs(items.value.value)
  {
    if !Truthy(apiKey) then None
    else match items
      case Returned(Some(xs)) =>
        if |xs| == 0 then None
        else (match title
              case Returned(t) => Some(PlaylistResponse(playlistId, ApiTitle(t), ApiSongs(xs)))
              case Threw => None)
      case _ => None
  }

  /** Strategy 1 as evidently intended: like the others, it passes when no song survives. */
  function OfficialStrategyNonEmpty(playlistId: string, apiKey: Option<string>, items: Fetch<Option<seq<ApiItem>>>,
                                    title: Fetch<Option<string>>): (r: Option<PlaylistResponse>)
    ensures r.Some? ==> |r.value.songs| > 0
    ensures r.Some? ==> r == OfficialStrategy(playlistId, apiKey, items, title)
    ensures r.None? && OfficialStrategy(playlistId, apiKey, items, title).Some? ==>
              OfficialStrategy(playlistId, apiKey, items, title).value.songs == []
  {
    var o := OfficialStrategy(playlistId, apiKey, items, title);
    if o.Some? && |o.value.songs| > 0 then o else None
  }

  // ---------------------------------------------------------------------------
  // Strategy 2: ytpl
  // ---------------------------------------------------------------------------

  datatype YtplItem = YtplItem(id: string, title: string, bestThumbnailUrl: Option<string>)

  datatype YtplPlaylist = YtplPlaylist(id: string, title: string, items: seq<YtplItem>)

  function YtplSong(item: YtplItem): PlaylistSong {
    PlaylistSong(item.id, item.title, Coalesce([item.bestThumbnailUrl], ""))
  }

  /** Every ytpl item becomes a song, in order. */
  function YtplSongs(items: seq<YtplItem>): (songs: seq<PlaylistSong>)
    ensures |songs| == |items|
    ensures forall k :: 0 <= k < |items| ==> songs[k].id == items[k].id && songs[k].title == items[k].title
    ensures forall k :: 0 <= k < |items| ==>
              songs[k].thumbnail == (if Truthy(items[k].bestThumbnailUrl) then items[k].bestThumbnailUrl.value else "")
  {
    seq(|items|, k requires 0 <= k < |items| => YtplSong(items[k]))
  }

  /**
   * Strategy 2: accepted only when the call returned a playlist with at least
   * one item; a thrown call, `null` or an empty list passes. The id and title
   * come from the library's playlist, not from the request.
   */
  function YtplStrategy(playlist: Fetch<Option<YtplPlaylist>>): (r: Option<PlaylistResponse>)
    ensures r.Some? <==> playlist.Returned? && playlist.value.Some? && |playlist.value.value.items| > 0
    ensures r.Some? ==> && r.value.id == playlist.value.value.id && r.value.title == playlist.value.value.title
                        && r.value.songs == YtplSongs(playlist.value.value.items)
                        && |r.value.songs| > 0
  {
    match playlist
    case Returned(Some(p)) =>
      if |p.items| > 0 then Some(PlaylistResponse(p.id, p.title, YtplSongs(p.items))) else None
    case _ => None
  }

  // ---------------------------------------------------------------------------
  // Strategy 3: the playlist page's embedded data
  // ---------------------------------------------------------------------------

  /** A `playlistVideoRenderer`: its video id, `title.runs[0].text`, accessibility label and first thumbnail url. */
  datatype Renderer = Renderer(videoId: string, runsText: Option<string>, accessibilityLabel: Option<string>,
                               firstThumbnailUrl: Option<string>)

  /** An entry of the video list; only entries holding a renderer are videos. */
  datatype ScrapeEntry = ScrapeEntry(renderer: Option<Renderer>)

  /** What the embedded data says: the sidebar title and the video list, each possibly missing. */
  datatype PageData = PageData(sidebarTitle: Option<string>, videoList: Option<seq<ScrapeEntry>>)

  function ScrapeTitle(r: Renderer): (t: string)
    ensures Truthy(r.runsText) ==> t == r.runsText.value
    ensures !Truthy(r.runsText) && Truthy(r.accessibilityLabel) ==> t == r.accessibilityLabel.value
    ensures !Truthy(r.runsText) && !Truthy(r.accessibilityLabel) ==> t == "Unknown Title"
  {
    var xs := [r.runsText, r.accessibilityLabel];
    assert xs[0] == r.runsText && xs[1] == r.accessibilityLabel;
    Coalesce(xs, "Unknown Title")
  }

  function ScrapeSong(e: ScrapeEntry): Option<PlaylistSong> {
    match e.renderer
    case Some(r) => Some(PlaylistSong(r.videoId, ScrapeTitle(r), Coalesce([r.firstThumbnailUrl], "")))
    case None => None
  }

  function ScrapeSongs(entries: seq<ScrapeEntry>): seq<PlaylistSong> {
    FilterMap(entries, ScrapeSong)
  }

  /** The songs are exactly the entries with a renderer, in order. */
  lemma {:induction false} ScrapeSongsInOrder(a: seq<ScrapeEntry>, e: ScrapeEntry, b: seq<ScrapeEntry>)
    ensures ScrapeSongs(a + [e] + b)
            == ScrapeSongs(a) + (if e.renderer.Some? then [ScrapeSong(e).value] else []) + ScrapeSongs(b)
  {
    FilterMapAround(a, e, b, ScrapeSong);
  }

  /** A video entry yields a song. */
  lemma {:induction false} ScrapeSongOfRenderer(list: seq<ScrapeEntry>, k: nat)
    requires k < |list| && list[k].renderer.Some?
    ensures |ScrapeSongs(list)| > 0
  {
    ScrapeSongsInOrder(list[..k], list[k], list[k + 1..]);
    assert list[..k] + [list[k]] + list[k + 1..] == list;
  }

  /** Every song comes from a video entry. */
  lemma {:induction false} ScrapeSongHasRenderer(list: seq<ScrapeEntry>)
    requires |ScrapeSongs(list)| > 0
    ensures exists k :: 0 <= k < |list| && list[k].renderer.Some?
  {
    var y := ScrapeSongs(list)[0];
    assert y in ScrapeSongs(list);
    var x :| x in list && ScrapeSong(x) == Some(y);
    var k :| 0 <= k < |list| && list[k] == x;
    assert list[k].renderer.Some?;
  }

  /** The page yields a song exactly when some entry of its video list holds a renderer. */
  lemma {:induction false} ScrapeSongsNonEmpty(list: seq<ScrapeEntry>)
    ensures |ScrapeSongs(list)| > 0 <==> exists k :: 0 <= k < |list| && list[k].renderer.Some?
  {
    if |ScrapeSongs(list)| > 0 {
      ScrapeSongHasRenderer(list);
    }
    if k :| 0 <= k < |list| && list[k].renderer.Some? {
      ScrapeSongOfRenderer(list, k);
    }
  }

  /**
   * Strategy 3 (`None` page: the embedded data was not found): accepted with
   * at least one song, under the requested id and the sidebar title or
   * "YouTube Playlist".
   */
  function ScrapeStrategy(playlistId: string, page: Fetch<Option<PageData>>): (r: Option<PlaylistResponse>)
    ensures r.Some? ==> && page.Returned? && page.value.Some? && page.value.value.videoList.Some?
                        && r.value.id == playlistId
                        && r.value.title == (if Truthy(page.value.value.sidebarTitle) then page.value.value.sidebarTitle.value
                                             else "YouTube Playlist")
                        && r.value.songs == ScrapeSongs(page.value.value.videoList.value)
                        && |r.value.songs| > 0
  {
    match page
    case Returned(Some(d)) =>
      (match d.videoList
       case Some(list) =>
         if |list| > 0 && |ScrapeSongs(list)| > 0 then
           Some(PlaylistResponse(playlistId, Coalesce([d.sidebarTitle], "YouTube Playlist"), ScrapeSongs(list)))
         else None
       case None => None)
    case _ => None
  }

  // ---------------------------------------------------------------------------
  // The fallback chain
  // ---------------------------------------------------------------------------

  /** The first strategy that produced a playlist. */
  function FirstSuccess<T>(xs: seq<Option<T>>): (r: Option<T>)
    ensures r.None? <==> forall k :: 0 <= k < |xs| ==> xs[k].None?
    ensures r.Some? ==> exists k :: 0 <= k < |xs| && xs[k] == r && forall j :: 0 <= j < k ==> xs[j].None?
  {
    if xs == [] then None
    else if xs[0].Some? then xs[0]
    else
      var r := FirstSuccess(xs[1..]);
      assert forall k :: 1 <= k < |xs| ==> xs[k] == xs[1..][k - 1];
      r
  }

  /** Everything the upstream sources would return for one request. */
  datatype Upstreams = Upstreams(
    items: Fetch<Option<seq<ApiItem>>>,
    title: Fetch<Option<string>>,
    ytpl: Fetch<Option<YtplPlaylist>>,
    page: Fetch<Option<PageData>>)

  const NotFoundMessage: string := "Playlist not found or empty. Make sure it's public."

  function ReplyFor(found: Option<PlaylistResponse>): (r: PlaylistReply)
    ensures found.Some? <==> r.PlaylistFound?
    ensures found.Some? ==> r.playlist == found.value
    ensures found.None? ==> r == PlaylistNotFound(ErrorBody(NotFoundMessage, None))
  {
    match found
    case Some(p) => PlaylistFound(p)
    case None => PlaylistNotFound(ErrorBody(NotFoundMessage, None))
  }

  /** The strategies' results in the order the handler tries them, as written. */
  function Strategies(playlistId: string, apiKey: Option<string>, u: Upstreams): seq<Option<PlaylistResponse>> {
    [OfficialStrategy(playlistId, apiKey, u.items, u.title), YtplStrategy(u.ytpl), ScrapeStrategy(playlistId, u.page)]
  }

  /** The same chain with the corrected first strategy. */
  function StrategiesNonEmpty(playlistId: string, apiKey: Option<string>, u: Upstreams): seq<Option<PlaylistResponse>> {
    [OfficialStrategyNonEmpty(playlistId, apiKey, u.items, u.title), YtplStrategy(u.ytpl), ScrapeStrategy(playlistId, u.page)]
  }

  function Resolve(playlistId: string, apiKey: Option<string>, u: Upstreams): PlaylistReply {
    ReplyFor(FirstSuccess(StrategiesNonEmpty(playlistId, apiKey, u)))
  }

  function ResolveAsWritten(playlistId: string, apiKey: Option<string>, u: Upstreams): PlaylistReply {
    ReplyFor(FirstSuccess(Strategies(playlistId, apiKey, u)))
  }

  /** The first of three results that is present. */
  lemma FirstOfThree<T>(a: Option<T>, b: Option<T>, c: Option<T>)
    ensures FirstSuccess([a, b, c]) == if a.Some? then a else if b.Some? then b else c
  {
    assert [c][1..] == [];
    assert FirstSuccess([c]) == c;
    assert [b, c][1..] == [c];
    assert FirstSuccess([b, c]) == if b.Some? then b else c;
    assert [a, b, c][1..] == [b, c];
  }

  /** The upstream requests, in the order the handler can make them. */
  datatype Upstream = ApiItemsCall | ApiTitleCall | YtplCall | PageCall

  function CallOrder(c: Upstream): nat {
    match c
    case ApiItemsCall => 0
    case ApiTitleCall => 1
    case YtplCall => 2
    case PageCall => 3
  }

  /**
   * Strategy 1's try block: skipped without a key; the title is fetched only
   * after a non-empty `items`; a throw from either call abandons it.
   */
  method TryOfficial(playlistId: string, apiKey: Option<string>, items: Fetch<Option<seq<ApiItem>>>,
                     title: Fetch<Option<string>>) returns (found: Option<PlaylistResponse>, calls: seq<Upstream>)
    ensures found == OfficialStrategy(playlistId, apiKey, items, title)
    ensures !Truthy(apiKey) ==> calls == []
    ensures Truthy(apiKey) && items.Returned? && items.value.Some? && |items.value.value| > 0 ==>
              calls == [ApiItemsCall, ApiTitleCall]
    ensures Truthy(apiKey) && !(items.Returned? && items.value.Some? && |items.value.value| > 0) ==>
              calls == [ApiItemsCall]
  {
    found, calls := None, [];
    if Truthy(apiKey) {
      calls := [ApiItemsCall];
      if items.Returned? {
        var xs := items.value;
        if xs.Some? && |xs.value| > 0 {
          var songs := ApiSongs(xs.value);
          calls := calls + [ApiTitleCall];
          if title.Returned? {
            found := Some(PlaylistResponse(playlistId, ApiTitle(title.value), songs));
          }
        }
      }
    }
  }

  /** Strategy 2's try block: the library's playlist when it has at least one item. */
  method TryYtpl(playlist: Fetch<Option<YtplPlaylist>>) returns (found: Option<PlaylistResponse>)
    ensures found == YtplStrategy(playlist)
  {
    found := None;
    if playlist.Returned? && playlist.value.Some? && |playlist.value.value.items| > 0 {
      var p := playlist.value.value;
      found := Some(PlaylistResponse(p.id, p.title, YtplSongs(p.items)));
    }
  }

  /** Strategy 3's try block: the page's video list when at least one entry is a video. */
  method TryScrape(playlistId: string, page: Fetch<Option<PageData>>) returns (found: Option<PlaylistResponse>)
    ensures found == ScrapeStrategy(playlistId, page)
  {
    found := None;
    if page.Returned? && page.value.Some? {
      var data := page.value.value;
      if data.videoList.Some? && |data.videoList.value| > 0 {
        var songs := ScrapeSongs(data.videoList.value);
        if |songs| > 0 {
          found := Some(PlaylistResponse(playlistId, Coalesce([data.sidebarTitle], "YouTube Playlist"), songs));
        }
      }
    }
  }

  /**
   * The playlist handler: each strategy in its own try block, returning on
   * the first success. `calls` lists the upstream requests made, in order.
   */
  method GetPlaylist(playlistId: string, apiKey: Option<string>, u: Upstreams) returns (reply: PlaylistReply, calls: seq<Upstream>)
    ensures reply == ResolveAsWritten(playlistId, apiKey, u)
    ensures ApiItemsCall in calls <==> Truthy(apiKey)
    ensures ApiTitleCall in calls <==> Truthy(apiKey) && u.items.Returned? && u.items.value.Some? && |u.items.value.value| > 0
    ensures YtplCall in calls <==> OfficialStrategy(playlistId, apiKey, u.items, u.title).None?
    ensures PageCall in calls <==> OfficialStrategy(playlistId, apiKey, u.items, u.title).None? && YtplStrategy(u.ytpl).None?
    ensures forall i, j :: 0 <= i < j < |calls| ==> CallOrder(calls[i]) < CallOrder(calls[j])
  {
    FirstOfThree(OfficialStrategy(playlistId, apiKey, u.items, u.title), YtplStrategy(u.ytpl), ScrapeStrategy(playlistId, u.page));
    var official;
    official, calls := TryOfficial(playlistId, apiKey, u.items, u.title);
    if official.Some? {
      reply := PlaylistFound(official.value);
      return;
    }
    calls := calls + [YtplCall];
    var fromYtpl := TryYtpl(u.ytpl);
    if fromYtpl.Some? {
      reply := PlaylistFound(fromYtpl.value);
      return;
    }
    calls := calls + [PageCall];
    var scraped := TryScrape(playlistId, u.page);
    if scraped.Some? {
      reply := PlaylistFound(scraped.value);
      return;
    }
    reply := PlaylistNotFound(ErrorBody(NotFoundMessage, None));
  }

  // ---------------------------------------------------------------------------
  // Properties of the chain
  // ---------------------------------------------------------------------------

  /** Without a key the official API is never consulted: the answer is ytpl's, else the page's, else 404. */
  lemma NoKeySkipsOfficial(playlistId: string, apiKey: Option<string>, u: Upstreams)
    requires !Truthy(apiKey)
    ensures ResolveAsWritten(playlistId, apiKey, u) == ReplyFor(FirstSuccess([YtplStrategy(u.ytpl), ScrapeStrategy(playlistId, u.page)]))
  {
    var xs := Strategies(playlistId, apiKey, u);
    assert xs[1..] == [YtplStrategy(u.ytpl), ScrapeStrategy(playlistId, u.page)];
  }

  /** An official answer wins over whatever ytpl and the page would say. */
  lemma OfficialAnswerWins(playlistId: string, apiKey: Option<string>, u: Upstreams, v: Upstreams)
    requires u.items == v.items && u.title == v.title
    requires OfficialStrategy(playlistId, apiKey, u.items, u.title).Some?
    ensures ResolveAsWritten(playlistId, apiKey, u) == ResolveAsWritten(playlistId, apiKey, v)
    ensures ResolveAsWritten(playlistId, apiKey, u) == PlaylistFound(OfficialStrategy(playlistId, apiKey, u.items, u.title).value)
  {
  }

  /** The 404 comes exactly when every strategy passes; the handler never answers 500. */
  lemma NotFoundIffAllFail(playlistId: string, apiKey: Option<string>, u: Upstreams)
    ensures var r := ResolveAsWritten(playlistId, apiKey, u);
            && (r.PlaylistNotFound? <==> (forall k :: 0 <= k < 3 ==> Strategies(playlistId, apiKey, u)[k].None?))
            && !r.PlaylistFailed?
            && PlaylistReplyConforms(r)
  {
  }

  /** A ytpl answer carries the library's playlist id and title, not the requested id. */
  lemma YtplAnswerIdentity(playlistId: string, apiKey: Option<string>, u: Upstreams)
    requires OfficialStrategy(playlistId, apiKey, u.items, u.title).None?
    requires u.ytpl.Returned? && u.ytpl.value.Some? && |u.ytpl.value.value.items| > 0
    ensures var r := ResolveAsWritten(playlistId, apiKey, u);
            r.PlaylistFound? && r.playlist.id == u.ytpl.value.value.id && r.playlist.title == u.ytpl.value.value.title
            && r.playlist.songs == YtplSongs(u.ytpl.value.value.items)
  {
    var xs := Strategies(playlistId, apiKey, u);
    assert xs[0].None? && xs[1].Some?;
  }

  /** A ytpl call that throws, returns `null` or returns no items hands the reply to the page strategy. */
  lemma YtplDeclinesWithoutItems(playlistId: string, apiKey: Option<string>, u: Upstreams)
    requires OfficialStrategy(playlistId, apiKey, u.items, u.title).None?
    requires !(u.ytpl.Returned? && u.ytpl.value.Some? && |u.ytpl.value.value.items| > 0)
    ensures ResolveAsWritten(playlistId, apiKey, u) == ReplyFor(ScrapeStrategy(playlistId, u.page))
  {
    var xs := Strategies(playlistId, apiKey, u);
    assert xs[0].None? && xs[1].None? && xs[2] == ScrapeStrategy(playlistId, u.page);
  }

  /**
   * The page strategy accepts exactly a video list with at least one video entry,
   * and its answer carries the requested id and the sidebar title or the fallback.
   */
  lemma ScrapeAnswerIdentity(playlistId: string, apiKey: Option<string>, u: Upstreams, title: Option<string>,
                             list: seq<ScrapeEntry>)
    requires OfficialStrategy(playlistId, apiKey, u.items, u.title).None? && YtplStrategy(u.ytpl).None?
    requires u.page == Returned(Some(PageData(title, Some(list))))
    ensures ResolveAsWritten(playlistId, apiKey, u).PlaylistFound?
            <==> exists k :: 0 <= k < |list| && list[k].renderer.Some?
    ensures var r := ResolveAsWritten(playlistId, apiKey, u);
            r.PlaylistFound? ==> && r.playlist.id == playlistId
                                 && r.playlist.title == (if Truthy(title) then title.value else "YouTube Playlist")
                                 && r.playlist.songs == ScrapeSongs(list)
  {
    ScrapeSongsNonEmpty(list);
    var xs := Strategies(playlistId, apiKey, u);
    assert xs[0].None? && xs[1].None? && xs[2] == ScrapeStrategy(playlistId, u.page);
    if exists k :: 0 <= k < |list| && list[k].renderer.Some? {
      assert xs[2].Some?;
    }
  }

  /** An official answer carries the requested id, the title call's title and the items that have a video id. */
  lemma OfficialAnswerIdentity(playlistId: string, apiKey: Option<string>, u: Upstreams)
    requires OfficialStrategy(playlistId, apiKey, u.items, u.title).Some?
    ensures var r := ResolveAsWritten(playlistId, apiKey, u);
            && r.PlaylistFound? && r.playlist.id == playlistId
            && r.playlist.title == ApiTitle(u.title.value)
            && r.playlist.songs == ApiSongs(u.items.value.value)
  {
    var xs := Strategies(playlistId, apiKey, u);
    assert xs[0].Some?;
  }

  /** Strategy 1 as written answers 200 with no songs when no item has a video id. */
  lemma OfficialAnswersWithNoSongs()
    ensures ResolveAsWritten("PL1", Some("key"), Upstreams(Returned(Some([ApiItem(None, "deleted", None, None)])), Returned(None), Threw, Threw))
            == PlaylistFound(PlaylistResponse("PL1", "YouTube Playlist", []))
  {
    var item := ApiItem(None, "deleted", None, None);
    assert ApiSong(item).None?;
    assert ApiSongs([item]) == [];
  }

  /** With the corrected first strategy, a 200 always carries at least one song. */
  lemma ResolveNeverEmpty(playlistId: string, apiKey: Option<string>, u: Upstreams)
    ensures var r := Resolve(playlistId, apiKey, u);
            r.PlaylistFound? ==> |r.playlist.songs| > 0
  {
    var xs := StrategiesNonEmpty(playlistId, apiKey, u);
    var r := FirstSuccess(xs);
    if r.Some? {
      var k :| 0 <= k < |xs| && xs[k] == r && forall j :: 0 <= j < k ==> xs[j].None?;
      assert k == 0 || k == 1 || k == 2;
    }
  }

  /** The correction changes only the empty-songs case: every other reply is the same as written. */
  lemma ResolveAgreesUnlessEmpty(playlistId: string, apiKey: Option<string>, u: Upstreams)
    requires var o := OfficialStrategy(playlistId, apiKey, u.items, u.title); o.None? || |o.value.songs| > 0
    ensures Resolve(playlistId, apiKey, u) == ResolveAsWritten(playlistId, apiKey, u)
  {
    assert StrategiesNonEmpty(playlistId, apiKey, u) == Strategies(playlistId, apiKey, u);
  }

  // ---------------------------------------------------------------------------
  // POST /api/games
  // ---------------------------------------------------------------------------

  function SegmentText(seg: PathSegment): string {
    match seg
    case Key(name) => name
    case Index(i) => NatToString(i)
  }

  /** `path.join(".")`. */
  function PathText(path: seq<PathSegment>): string {
    Join(seq(|path|, k requires 0 <= k < |path| => SegmentText(path[k])), '.')
  }

  /** The 400 body: the first issue's message, and its path joined by ".". */
  function ValidationErrorBody(issues: seq<Issue>): (e: ErrorBody)
    requires |issues| > 0
    ensures e.message == issues[0].message
    ensures e.field.Some? && e.field.value == PathText(issues[0].path)
  {
    ErrorBody(issues[0].message, Some(PathText(issues[0].path)))
  }

  /** When no key holds a dot, the `field` text splits back into the issue's path. */
  lemma FieldSplitsIntoPath(issues: seq<Issue>)
    requires |issues| > 0 && |issues[0].path| > 0
    requires forall k :: 0 <= k < |issues[0].path| ==> '.' !in SegmentText(issues[0].path[k])
    ensures var parts := Split(ValidationErrorBody(issues).field.value, '.');
            |parts| == |issues[0].path| && forall k :: 0 <= k < |parts| ==> parts[k] == SegmentText(issues[0].path[k])
  {
    var path := issues[0].path;
    SplitJoin(seq(|path|, k requires 0 <= k < |path| => SegmentText(path[k])), '.');
  }

  /** Every 400 for an object body names one of the insert schema's fields. */
  lemma RejectionNamesAField(body: Body)
    requires ParseInsertGame(body).Failure?
    ensures ValidationErrorBody(ParseInsertGame(body).error).field.value in InsertFields
  {
    var issues := ParseInsertGame(body).error;
    var f :| f in InsertFields && issues[0].path == [Key(f)];
    assert PathText([Key(f)]) == f;
  }

  /**
   * A 400 names an insert field, or, for a body that is not an object, the
   * empty root path.
   */
  lemma RejectionFieldOrRoot(b: RequestBody)
    requires ParseRequestBody(b).Failure?
    ensures var field := ValidationErrorBody(ParseRequestBody(b).error).field.value;
            (b.ObjectBody? ==> field in InsertFields) && (b.OtherBody? ==> field == "")
  {
    if b.ObjectBody? {
      RejectionNamesAField(b.fields);
    } else {
      assert PathText([]) == Join([], '.');
    }
  }

  /** The create handler: a parse failure leaves the table alone and answers 400; otherwise the stored row, 201. */
  method PostGame(store: GameTable, body: RequestBody, now: Timestamp) returns (reply: CreateReply)
    requires store.Valid()
    modifies store
    ensures store.Valid()
    ensures ParseRequestBody(body).Failure? ==>
              && reply == GameRejected(ValidationErrorBody(ParseRequestBody(body).error))
              && store.rows == old(store.rows) && store.nextId == old(store.nextId)
    ensures ParseRequestBody(body).Success? ==>
              && reply.GameCreated?
              && reply.game == NewRow(old(store.nextId), ParseRequestBody(body).value, now)
              && store.rows == old(store.rows) + [reply.game]
              && store.nextId == old(store.nextId) + 1
  {
    var input := ParseRequestBody(body);
    if input.Failure? {
      reply := GameRejected(ValidationErrorBody(input.error));
      return;
    }
    var game := store.CreateGame(input.value, now);
    reply := GameCreated(game);
  }

  // ---------------------------------------------------------------------------
  // GET /api/games/leaderboard/:playlistId
  // ---------------------------------------------------------------------------

  /** The leaderboard handler: always 200, with the playlist's top rows. */
  method LeaderboardRoute(store: GameTable, playlistId: string) returns (status: nat, body: seq<Game>)
    ensures status == 200
    ensures body == Leaderboard(store.rows, playlistId)
  {
    body := store.GetLeaderboard(playlistId);
    status := 200;
  }
}
