/** Feed-item assembly (`playList.map(...)`) and the feed's own fields,
    including the static category table. */
module FeedAssembly {
  import opened Wrappers
  import opened Text
  import opened Tracks

  const BaseUrl := "https://www.ximalaya.com"
  const PaidMarker := "[该内容需付费] "
  const EnclosureType := "audio/x-m4a"

  /** The podcast categories for the platform's category names. */
  const CategoryDict: map<string, string> := map[
    "人文" := "Society & Culture",
    "历史" := "History",
    "头条" := "News",
    "娱乐" := "Leisure",
    "音乐" := "Music",
    "IT科技" := "Technology"]

  /** `enclosure_url`, `itunes_duration` and `enclosure_type`, which an item
      carries all together or not at all. */
  datatype Enclosure = Enclosure(url: string, itunesDuration: int, enclosureType: string)

  /** One feed item; `pubDate` is the track's epoch-millisecond timestamp,
      which the route hands to a date parser. */
  datatype FeedItem = FeedItem(
    title: string,
    link: string,
    description: string,
    pubDate: int,
    itunesItemImage: string,
    enclosure: Option<Enclosure>)

  datatype Feed = Feed(
    title: string,
    link: string,
    description: string,
    image: string,
    itunesAuthor: string,
    itunesCategory: string,
    items: seq<FeedItem>)

  /** `${baseUrl}/sound/${trackId}`. */
  function SoundLink(trackId: nat): (link: string)
    ensures var p := BaseUrl + "/sound/"; p <= link && link[|p|..] == NatToString(trackId)
  {
    BaseUrl + ("/sound/" + NatToString(trackId))
  }

  /** Different tracks get different links. */
  lemma SoundLinkInjective(a: nat, b: nat)
    requires SoundLink(a) == SoundLink(b)
    ensures a == b
  {
    var p := BaseUrl + "/sound/";
    assert SoundLink(a) == p + NatToString(a) && SoundLink(b) == p + NatToString(b);
    assert NatToString(a) == SoundLink(a)[|p|..];
    assert NatToString(b) == SoundLink(b)[|p|..];
    NatToStringInjective(a, b);
  }

  /** `coverLarge.split('!')[0] ?? albumCover`: the part of the cover URL
      before its first '!'. The fallback can never be taken, since a split
      always has a first piece. */
  function ItemImage(coverLarge: string, albumCover: string): (image: string)
    ensures image <= coverLarge && '!' !in image
    ensures |image| < |coverLarge| ==> coverLarge[|image|] == '!'
  {
    var parts := Split(coverLarge, '!');
    if |parts| > 0 then parts[0] else albumCover
  }

  /** `item.playPathAacv224 || item.playPathAacv164`. */
  function EnclosureUrl(t: Track): (url: string)
    ensures url == "" <==> t.playPathAacv224 == "" && t.playPathAacv164 == ""
    ensures url in {t.playPathAacv224, t.playPathAacv164}
    ensures t.playPathAacv224 != "" ==> url == t.playPathAacv224
  {
    if t.playPathAacv224 != "" then t.playPathAacv224 else t.playPathAacv164
  }

  /** One result item. An enclosure is present exactly when one of the two
      play paths is non-empty, and then takes the high-quality path when it
      has one. The description is the track's, with the paid marker put in
      front once exactly when there is no enclosure or the album is paid. */
  function BuildItem(t: Track, isPaid: bool, albumCover: string): (item: FeedItem)
    ensures item.title == t.title && item.link == SoundLink(t.trackId) && item.pubDate == t.createdAt
    ensures item.itunesItemImage == ItemImage(t.coverLarge, albumCover)
    ensures item.enclosure.Some? <==> t.playPathAacv224 != "" || t.playPathAacv164 != ""
    ensures item.enclosure.Some? ==>
      item.enclosure.value.enclosureType == "audio/x-m4a" &&
      item.enclosure.value.itunesDuration == t.duration &&
      item.enclosure.value.url == (if t.playPathAacv224 != "" then t.playPathAacv224 else t.playPathAacv164)
    ensures item.enclosure.None? || isPaid ==> item.description == PaidMarker + t.desc
    ensures item.enclosure.Some? && !isPaid ==> item.description == t.desc
  {
    var enclosureUrl := EnclosureUrl(t);
    var resultItem := FeedItem(t.title, SoundLink(t.trackId), t.desc, t.createdAt,
                               ItemImage(t.coverLarge, albumCover), None);
    if enclosureUrl != "" then
      var marked := if isPaid then resultItem.(description := PaidMarker + resultItem.description) else resultItem;
      marked.(enclosure := Some(Enclosure(enclosureUrl, t.duration, EnclosureType)))
    else
      resultItem.(description := PaidMarker + resultItem.description)
  }

  /** `playList.map(...)`: one item per track, in the same order. */
  function FeedItems(tracks: seq<Track>, isPaid: bool, albumCover: string): (items: seq<FeedItem>)
    ensures |items| == |tracks|
    ensures forall i :: 0 <= i < |tracks| ==> items[i] == BuildItem(tracks[i], isPaid, albumCover)
  {
    seq(|tracks|, i requires 0 <= i < |tracks| => BuildItem(tracks[i], isPaid, albumCover))
  }

  /** `categoryDict[albumCategory] || albumCategory`: a mapped name is
      translated, any other passes through unchanged. */
  function CategoryOf(category: string): (r: string)
    ensures category in CategoryDict ==> r == CategoryDict[category] && r != ""
    ensures category !in CategoryDict ==> r == category
  {
    if category in CategoryDict && CategoryDict[category] != "" then CategoryDict[category] else category
  }

  lemma CategoryExamples()
    ensures CategoryOf("音乐") == "Music"
    ensures CategoryOf("未知分类") == "未知分类"
  {
  }

  /** The feed object the handler returns. */
  function AssembleFeed(routeType: string, albumId: string, album: Album, tracks: seq<Track>,
                        sanitize: string -> string): (feed: Feed)
    ensures feed.title == album.albumTitle && feed.link == BaseUrl + "/" + routeType + "/" + albumId
    ensures feed.description == sanitize(album.detailRichIntro) && feed.itunesAuthor == album.anchorName
    ensures feed.image == "https:" + album.cover
    ensures feed.itunesCategory == CategoryOf(album.categoryTitle)
    ensures feed.items == FeedItems(tracks, album.isPaid, "https:" + album.cover)
  {
    var albumCover := "https:" + album.cover;
    Feed(album.albumTitle, BaseUrl + "/" + routeType + "/" + albumId, sanitize(album.detailRichIntro),
         albumCover, album.anchorName, CategoryOf(album.categoryTitle), FeedItems(tracks, album.isPaid, albumCover))
  }
}
