/** The route handler: flags, track list, descriptions, paid override and
    feed assembly, with every remote answer passed in as data. */
module AlbumRoute {
  import opened Wrappers
  import opened Text
  import opened Flags
  import opened Tracks
  import opened Paging
  import opened Descriptions
  import opened PaidContent
  import opened FeedAssembly

  /** The path parameters `/:type/:id/:all/:shownote?`. */
  datatype Request = Request(routeType: string, id: string, all: Option<string>, shownote: Option<string>)

  /** The remote answers: track-list pages by URL, rich show-notes and
      authorization results by track id, and the URL decryption and HTML
      sanitizer the route calls. */
  datatype Remote = Remote(
    fetchPage: string -> TrackPage,
    richIntro: nat -> string,
    payInfo: nat -> TrackPayInfo,
    decrypt: string -> string,
    sanitize: string -> string)

  predicate ShouldAll(req: Request)
  {
    JudgedTrue(req.all, ["all"])
  }

  predicate ShouldShowNote(req: Request)
  {
    JudgedTrue(req.shownote, ["shownote"])
  }

  /** `isPaid && token`: the paid step runs only for a paid album and a
      configured, non-empty token. */
  predicate PaidStepRuns(album: Album, token: Option<string>)
  {
    album.isPaid && token.Some? && token.value != ""
  }

  function Api(req: Request): (api: string)
  {
    TrackInfoApi(req.id, PageSize(ShouldAll(req)))
  }

  /** The track-list request asks for 200 tracks per page in fetch-all mode
      and for 30 otherwise. */
  lemma PageSizeInRequest(req: Request)
    ensures Api(req) == TrackInfoApiBase + req.id + "&pageSize=" + (if ShouldAll(req) then "200" else "30") + "&pageId="
  {
  }

  /** The merged track list for this request. */
  function PlayList(req: Request, remote: Remote): (tracks: seq<Track>)
  {
    MergedList(ShouldAll(req), Api(req), remote.fetchPage)
  }

  /** The feed the handler builds from the list after the description step:
      the paid step when it runs, then the feed. It fails exactly when the
      paid step runs and some track cannot be resolved; on success it has one
      item per track, in order, with that track's title, link and image. */
  function FeedFor(req: Request, album: Album, remote: Remote, token: Option<string>, enriched: seq<Track>)
    : (r: Result<Feed, Failure>)
    ensures r.Err? <==> PaidStepRuns(album, token) && !AllResolvable(enriched, remote.payInfo, remote.decrypt)
    ensures r.Ok? ==> |r.value.items| == |enriched|
    ensures r.Ok? ==> forall i :: 0 <= i < |enriched| ==>
      r.value.items[i].title == enriched[i].title && r.value.items[i].link == SoundLink(enriched[i].trackId) &&
      r.value.items[i].itunesItemImage == ItemImage(enriched[i].coverLarge, "https:" + album.cover)
    ensures r.Ok? ==>
      r.value.title == album.albumTitle && r.value.image == "https:" + album.cover &&
      r.value.link == BaseUrl + "/" + req.routeType + "/" + req.id &&
      r.value.itunesCategory == CategoryOf(album.categoryTitle)
    ensures r.Ok? ==>
      r.value.description == remote.sanitize(album.detailRichIntro) && r.value.itunesAuthor == album.anchorName
  {
    if PaidStepRuns(album, token) then
      match PaidTracks(enriched, remote.payInfo, remote.decrypt)
      case Ok(paid) => Ok(AssembleFeed(req.routeType, req.id, album, paid, remote.sanitize))
      case Err(e) => Err(e)
    else
      Ok(AssembleFeed(req.routeType, req.id, album, enriched, remote.sanitize))
  }

  /** What the handler returns when the description cache answers with what
      it would compute now. */
  function ExpectedFeed(req: Request, album: Album, remote: Remote, token: Option<string>): (r: Result<Feed, Failure>)
    ensures r.Ok? ==> |r.value.items| == |PlayList(req, remote)|
    ensures r.Ok? ==>
      r.value.title == album.albumTitle && r.value.image == "https:" + album.cover &&
      r.value.link == BaseUrl + "/" + req.routeType + "/" + req.id &&
      r.value.itunesCategory == CategoryOf(album.categoryTitle)
    ensures !PaidStepRuns(album, token) ==> r.Ok?
  {
    FeedFor(req, album, remote, token, Enriched(PlayList(req, remote), ShouldShowNote(req), remote.richIntro))
  }

  /** Resolution depends only on the track ids, which the description step
      keeps. */
  lemma AllResolvableByIds(a: seq<Track>, b: seq<Track>, payInfo: nat -> TrackPayInfo, decrypt: string -> string)
    requires |a| == |b| && forall i :: 0 <= i < |a| ==> a[i].trackId == b[i].trackId
    ensures AllResolvable(a, payInfo, decrypt) == AllResolvable(b, payInfo, decrypt)
  {
  }

  /** The handler fails exactly when the paid step runs and some track of the
      list is authorized but comes without a play URL. */
  lemma ExpectedFeedFails(req: Request, album: Album, remote: Remote, token: Option<string>)
    ensures ExpectedFeed(req, album, remote, token).Err? <==>
      PaidStepRuns(album, token) && !AllResolvable(PlayList(req, remote), remote.payInfo, remote.decrypt)
  {
  }

  /** The track-list part of the handler: the two flags, the page size, the
      first page and, with the `all` flag, the further pages. */
  method FetchPlayList(req: Request, remote: Remote) returns (playList: seq<Track>)
    ensures playList == PlayList(req, remote)
  {
    var shouldAll := JudgeTrue(req.all, ["all"]);
    var pageSize := PageSize(shouldAll);
    var trackInfoApi := TrackInfoApi(req.id, pageSize);
    var trackInfoResponse := remote.fetchPage(PageUrl(trackInfoApi, 1));
    var maxPageId := trackInfoResponse.maxPageId;
    playList := trackInfoResponse.list;
    if shouldAll {
      var responses := RequestRemainingPages(trackInfoApi, maxPageId, remote.fetchPage);
      assert responses == RemainingPages(trackInfoApi, maxPageId, remote.fetchPage);
      playList := MergePages(playList, responses);
    }
  }

  /** The merged list as the array the description step updates in place,
      after that step: every track's key is in the cache and each track
      carries its entry as description, with the same guarantees on the
      cache as `EnrichDescriptions`. */
  method DescribePlayList(cache: TextCache, merged: seq<Track>, showNote: bool, rich: nat -> string)
    returns (playList: array<Track>)
    modifies cache
    ensures fresh(playList)
    ensures playList[..] == CachedTracks(cache.entries, merged, showNote)
    ensures ExtendsFor(old(cache.entries), cache.entries, merged, showNote, rich)
    ensures HasKeys(cache.entries, merged, showNote)
    ensures CoherentIn(old(cache.entries), merged, showNote, rich) && IdsDetermineIntro(merged) ==>
      CoherentIn(cache.entries, merged, showNote, rich) && playList[..] == Enriched(merged, showNote, rich)
  {
    playList := new Track[|merged|](i requires 0 <= i < |merged| => merged[i]);
    assert playList[..] == merged;
    EnrichDescriptions(cache, playList, showNote, rich);
  }

  /** The paid step, when it runs, on the described list in place, then the
      feed built from the list: exactly `FeedFor` of the list it was given. */
  method PayAndAssemble(req: Request, album: Album, remote: Remote, token: Option<string>, playList: array<Track>)
    returns (r: Result<Feed, Failure>)
    modifies playList
    ensures r == FeedFor(req, album, remote, token, old(playList[..]))
  {
    var albumCover := "https:" + album.cover;
    if album.isPaid && token.Some? && token.value != "" {
      var ok := ApplyPaidInfo(playList, remote.payInfo, remote.decrypt);
      if !ok {
        return Err(PlayUrlListEmpty);
      }
    }
    var feed := Feed(album.albumTitle, BaseUrl + "/" + req.routeType + "/" + req.id,
                     remote.sanitize(album.detailRichIntro), albumCover, album.anchorName,
                     CategoryOf(album.categoryTitle), FeedItems(playList[..], album.isPaid, albumCover));
    assert feed == AssembleFeed(req.routeType, req.id, album, playList[..], remote.sanitize);
    r := Ok(feed);
  }

  /** The handler. Whatever the cache held, it returns the feed built from
      the merged list with each track's description read from the cache in
      the request's mode, and fails only when the paid step throws. The cache
      keeps every entry it held and gains only the computed descriptions of
      the list's tracks in that mode. When the cache started coherent in that
      mode with the platform's current answers, it stays so and the handler
      returns exactly `ExpectedFeed`. */
  method Handler(cache: TextCache, req: Request, album: Album, remote: Remote, token: Option<string>)
    returns (r: Result<Feed, Failure>)
    modifies cache
    ensures r == FeedFor(req, album, remote, token, CachedTracks(cache.entries, PlayList(req, remote), ShouldShowNote(req)))
    ensures r.Ok? == ExpectedFeed(req, album, remote, token).Ok?
    ensures ExtendsFor(old(cache.entries), cache.entries, PlayList(req, remote), ShouldShowNote(req), remote.richIntro)
    ensures HasKeys(cache.entries, PlayList(req, remote), ShouldShowNote(req))
    ensures CoherentIn(old(cache.entries), PlayList(req, remote), ShouldShowNote(req), remote.richIntro) &&
            IdsDetermineIntro(PlayList(req, remote)) ==>
      CoherentIn(cache.entries, PlayList(req, remote), ShouldShowNote(req), remote.richIntro) &&
      r == ExpectedFeed(req, album, remote, token)
  {
    var merged := FetchPlayList(req, remote);
    var shouldShowNote := JudgeTrue(req.shownote, ["shownote"]);

    var playList := DescribePlayList(cache, merged, shouldShowNote, remote.richIntro);
    ghost var enriched := playList[..];
    r := PayAndAssemble(req, album, remote, token, playList);

    ghost var expected := Enriched(merged, shouldShowNote, remote.richIntro);
    assert ExpectedFeed(req, album, remote, token) == FeedFor(req, album, remote, token, expected);
    AllResolvableByIds(enriched, expected, remote.payInfo, remote.decrypt);
  }

  /** Whatever the description cache holds, the handler's feed items
      correspond one to one, in order, with the merged track list: same
      title, the track's sound link and the cover prefix before '!'. */
  lemma ItemsFollowPlayList(req: Request, album: Album, remote: Remote, token: Option<string>,
                            entries: map<string, string>, i: nat)
    requires FeedFor(req, album, remote, token, CachedTracks(entries, PlayList(req, remote), ShouldShowNote(req))).Ok?
    ensures var items := FeedFor(req, album, remote, token,
                                 CachedTracks(entries, PlayList(req, remote), ShouldShowNote(req))).value.items;
      var tracks := PlayList(req, remote);
      |items| == |tracks| &&
      (i < |tracks| ==>
        items[i].title == tracks[i].title && items[i].link == SoundLink(tracks[i].trackId) &&
        items[i].itunesItemImage == ItemImage(tracks[i].coverLarge, "https:" + album.cover))
  {
  }

  /** A free album never fails, and its items carry the paid marker exactly
      when they have no enclosure; the description is the enriched one. */
  lemma FreeAlbumItems(req: Request, album: Album, remote: Remote, token: Option<string>, i: nat)
    requires !album.isPaid && i < |PlayList(req, remote)|
    ensures ExpectedFeed(req, album, remote, token).Ok?
    ensures var item := ExpectedFeed(req, album, remote, token).value.items[i];
      var t := Enrich(PlayList(req, remote)[i], ShouldShowNote(req), remote.richIntro);
      (item.enclosure.Some? ==> item.description == t.desc) &&
      (item.enclosure.None? ==> item.description == PaidMarker + t.desc)
  {
  }

  /** A paid album without a token never runs the paid step: every item is
      marked, and any enclosure is one of the track's own play paths. */
  lemma PaidAlbumWithoutToken(req: Request, album: Album, remote: Remote, token: Option<string>, i: nat)
    requires album.isPaid && (token.None? || token.value == "") && i < |PlayList(req, remote)|
    ensures ExpectedFeed(req, album, remote, token).Ok?
    ensures var item := ExpectedFeed(req, album, remote, token).value.items[i];
      var t := PlayList(req, remote)[i];
      item.description == PaidMarker + Enrich(t, ShouldShowNote(req), remote.richIntro).desc &&
      (item.enclosure.Some? ==> item.enclosure.value.url in {t.playPathAacv224, t.playPathAacv164})
  {
  }

  /** With the paid step running, an authorized track whose play URL decrypts
      to a non-empty string is enclosed with the decrypted URL. */
  lemma AuthorizedTrackUsesDecryptedUrl(req: Request, album: Album, remote: Remote, token: Option<string>, i: nat)
    requires PaidStepRuns(album, token) && ExpectedFeed(req, album, remote, token).Ok?
    requires i < |PlayList(req, remote)|
    requires var info := remote.payInfo(PlayList(req, remote)[i].trackId);
      info.isAuthorized && |info.playUrlList| > 0 && remote.decrypt(info.playUrlList[0]) != ""
    ensures var t := PlayList(req, remote)[i];
      var info := remote.payInfo(t.trackId);
      var item := ExpectedFeed(req, album, remote, token).value.items[i];
      item.enclosure == Some(Enclosure(remote.decrypt(info.playUrlList[0]), t.duration, EnclosureType)) &&
      item.description == PaidMarker + Enrich(t, ShouldShowNote(req), remote.richIntro).desc
  {
  }

  /** With the paid step running, an unauthorized track keeps its own play
      paths (or gets no enclosure) and is marked. */
  lemma UnauthorizedTrackFallsBack(req: Request, album: Album, remote: Remote, token: Option<string>, i: nat)
    requires PaidStepRuns(album, token) && ExpectedFeed(req, album, remote, token).Ok?
    requires i < |PlayList(req, remote)| && !remote.payInfo(PlayList(req, remote)[i].trackId).isAuthorized
    ensures var t := PlayList(req, remote)[i];
      ExpectedFeed(req, album, remote, token).value.items[i]
        == BuildItem(Enrich(t, ShouldShowNote(req), remote.richIntro), true, "https:" + album.cover)
  {
  }
}
