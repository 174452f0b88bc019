# Ximalaya album route — verified model

A Dafny model of the RSSHub route that turns a Ximalaya audio album into a
podcast feed (`lib/routes/ximalaya/album.ts`). It covers the logic under the
HTTP plumbing:

- `judgeTrue`, the case-insensitive truthiness test for the `all` and
  `shownote` path parameters, and the page size (200 or 30) taken from `all`;
- the track list: page 1, then with `all` the pages 2..`maxPageId` in ascending
  page order;
- per-track description enrichment (rich show-note or short intro) through a
  get-or-compute cache keyed by `ximalaya:trackRichInfo:<trackId>:<flag>`;
- the paid-content step. It runs only for a paid album with a non-empty token.
  It replaces `playPathAacv224` with the decrypted URL for authorized tracks.
  It fails the handler when an authorized track has no play URL;
- feed-item assembly: enclosure choice, the `[该内容需付费] ` marker, link,
  image and the static category table.

Every remote answer is a parameter (`AlbumRoute.Remote`): track-list pages by
request URL, rich show-notes and authorization results by track id, the URL
decryption and the HTML sanitizer. The album record and the token are
parameters too.

Modules, one file each: `Wrappers` (Option, Result), `Text` (lower-casing,
decimal rendering, split/join), `Flags`, `Tracks` (the records), `Paging`,
`Descriptions`, `PaidContent`, `FeedAssembly`, `AlbumRoute` (the handler and
end-to-end properties).

The state the source changes in place is modelled in place. The merged list
is a local variable reassigned page by page. During the description and paid
steps the list is an `array<Track>` whose elements are overwritten. The cache
is a class whose map the lookup extends. Each of these methods is proved
against a specification function. The merge is proved against `Flatten`
and the paid step against `PaidTracks`. The description step stores every
missing key and gives each track the cache's entry for its key
(`CachedTracks`), whatever the cache held. It equals `Enriched`, the descriptions computed now, only when the
cache starts coherent in the request's mode. `AlbumRoute.FeedFor` builds the
feed from a described list. `AlbumRoute.Handler` is proved equal to `FeedFor`
of the cached list, and `AlbumRoute.ExpectedFeed` is `FeedFor` of the
`Enriched` list.

Three behaviours of the code are easy to miss:
- The item image never falls back to the album cover: `split('!')[0]` always
  exists (`FeedAssembly.ItemImage`).
- The paid step never replaces a description: the resolution result never has
  a `desc` (`PaidContent.ResolveNeverSetsDesc`).
- The paid step can raise an error of its own. It indexes `playUrlList[0]`,
  and an authorized track with an empty list throws.

## Model

| member | source | states |
|---|---|---|
| `Flags.JudgeTrue` | lib/routes/ximalaya/album.ts:33-47 | the answer is false for an absent or empty parameter, and otherwise true exactly when the lower-cased parameter is "true", "1" or one of the extra words |
| `Flags.JudgedTrueIgnoresCase` | lib/routes/ximalaya/album.ts:37 | the test gives the same answer for a parameter and its lower-cased form |
| `Flags.UppercaseWordNeverMatches` | lib/routes/ximalaya/album.ts:41-45 | an extra word with an upper-case letter is never matched, since only the parameter is lower-cased |
| `Flags.PageSize` | lib/routes/ximalaya/album.ts:88 | the page size is 200 exactly when fetch-all is on and 30 exactly when it is off |
| `Paging.TrackInfoApi` | lib/routes/ximalaya/album.ts:105 | the track-list URL is the base URL and album id, then `&pageSize=` with the page size in decimal, then `&pageId=` awaiting the page number |
| `Flags.AllParameterWords` | lib/routes/ximalaya/album.ts:86 | "ALL", "True" and "1" switch fetch-all on; "yes", "" and an absent parameter do not |
| `AlbumRoute.PageSizeInRequest` | lib/routes/ximalaya/album.ts:88-105 | the track-list URL asks for pageSize 200 in fetch-all mode and 30 otherwise |
| `Paging.PageUrlInjective` | lib/routes/ximalaya/album.ts:118 | distinct page numbers give distinct request URLs |
| `Paging.RequestRemainingPages` | lib/routes/ximalaya/album.ts:113-123 | no request when maxPageId <= 1; otherwise maxPageId - 1 responses, response k being the one for page k + 2 |
| `Paging.MergePages` | lib/routes/ximalaya/album.ts:124-126 | the result is page 1's list followed by every further page's list in order, and its length is the sum of the page lengths |
| `Paging.FlattenLength` | lib/routes/ximalaya/album.ts:124-126 | the concatenated pages are as long as all pages together |
| `Paging.FlattenAt` | lib/routes/ximalaya/album.ts:124-126 | track k of page j sits right after all tracks of the earlier pages, so order within a page is kept |
| `Paging.RemainingPages` | lib/routes/ximalaya/album.ts:115-123 | the further pages are exactly pages 2..maxPageId in ascending order, none when maxPageId <= 1 |
| `Paging.MergedList` | lib/routes/ximalaya/album.ts:111-127 | the merged list starts with page 1's list, and is exactly that list without fetch-all or when maxPageId <= 1 |
| `Paging.MergedListLength` | lib/routes/ximalaya/album.ts:111-127 | without fetch-all the list is exactly page 1's; with it the length is page 1's plus the further pages' lengths |
| `Paging.MergedListOrder` | lib/routes/ximalaya/album.ts:111-127 | with fetch-all, track k of page p follows page 1 and all tracks of pages 2..p-1 |
| `AlbumRoute.FetchPlayList` | lib/routes/ximalaya/album.ts:86-127 | the flag, page size, first page and merge together produce the merged list of the request |
| `Text.NatToStringInjective` | lib/routes/ximalaya/album.ts:131 | different track ids render as different decimal strings |
| `Descriptions.RichKey` | lib/routes/ximalaya/album.ts:131 | the key is `ximalaya:trackRichInfo:` and the decimal track id, followed by `:` and the flag as "true" or "false" |
| `Descriptions.RichKeyInjective` | lib/routes/ximalaya/album.ts:131 | two cache keys are equal exactly when both track id and show-note flag are equal, so the two modes never share an entry |
| `Descriptions.Describe` | lib/routes/ximalaya/album.ts:132-141 | with show-notes off the description is the intro; with them on it is the rich show-note when non-empty, else the intro |
| `Descriptions.Enriched` | lib/routes/ximalaya/album.ts:129-144 | the enriched list has one track per input track, each being the input track with its description set |
| `Descriptions.EnrichKeepsOtherFields` | lib/routes/ximalaya/album.ts:131 | the description step changes only `desc`, and with show-notes off sets it to the intro |
| `Descriptions.CachedTracks` | lib/routes/ximalaya/album.ts:131 | the list read back from the cache: each track keeps every field but `desc`, which is its cache entry in the given mode when there is one |
| `Descriptions.ExtendsKeepsCoherentIn` | lib/routes/ximalaya/album.ts:129-144 | a cache that only gained computed descriptions of the list's tracks stays consistent in that mode, provided tracks sharing an id share their intro |
| `Descriptions.CachedIsEnriched` | lib/routes/ximalaya/album.ts:129-144 | when every track has an entry and the cache is consistent in that mode, the list read back from it is `Enriched` |
| `Descriptions.TextCache.TryGet` | lib/routes/ximalaya/album.ts:131 | a present key answers with its stored value and leaves the cache unchanged; a missing key stores and returns the computed value |
| `Descriptions.EnrichDescriptions` | lib/routes/ximalaya/album.ts:129-144 | every track's key is in the cache afterwards, each track gets that entry as `desc` and nothing else changes, so the list becomes `CachedTracks` of the old list; every existing entry keeps its value, and every new entry is the key of some track of the list holding that track's computed description; only from a cache consistent in the request's mode (with tracks sharing an id sharing their intro) does the list become `Enriched` of the old list |
| `PaidContent.ResolvePayInfo` | lib/routes/ximalaya/album.ts:160-166 | failure exactly for an authorized track with an empty URL list; an unauthorized track yields an empty play path, an authorized one the decryption of its first URL; the result never has a description |
| `PaidContent.ApplyPayResult` | lib/routes/ximalaya/album.ts:169-174 | only `playPathAacv224` and `desc` can change, each replaced by the result's value when that is non-empty and kept otherwise |
| `PaidContent.ResolveNeverSetsDesc` | lib/routes/ximalaya/album.ts:161-174 | the resolution result never carries a description, so the override at lines 172-174 never fires |
| `PaidContent.PaidOverrideEffect` | lib/routes/ximalaya/album.ts:160-171 | failure exactly for an authorized track without play URLs; an unauthorized track is unchanged; an authorized one gets its decrypted first URL when non-empty; only `playPathAacv224` can change |
| `PaidContent.PaidTracks` | lib/routes/ximalaya/album.ts:147-176 | the paid step succeeds exactly when every track resolves, and then applies each track's own result at its own position |
| `PaidContent.ApplyPaidInfo` | lib/routes/ximalaya/album.ts:149-176 | it reports success exactly when every track resolves, and then the list equals `PaidTracks` of the old list |
| `FeedAssembly.SoundLink` | lib/routes/ximalaya/album.ts:183 | the link is the site URL, `/sound/`, then the decimal track id |
| `FeedAssembly.SoundLinkInjective` | lib/routes/ximalaya/album.ts:183 | different tracks get different links |
| `FeedAssembly.ItemImage` | lib/routes/ximalaya/album.ts:182 | the image is the longest prefix of `coverLarge` without '!', whatever the album cover is |
| `Text.Split` | lib/routes/ximalaya/album.ts:182 | a split has at least one piece, and its first piece is the prefix before the first separator |
| `Text.JoinSplit` | lib/routes/ximalaya/album.ts:182 | joining the pieces of a split with the same separator gives back the string |
| `FeedAssembly.EnclosureUrl` | lib/routes/ximalaya/album.ts:186 | the URL is empty exactly when both play paths are; it is always one of them, and `playPathAacv224` whenever that is non-empty |
| `FeedAssembly.BuildItem` | lib/routes/ximalaya/album.ts:179-211 | an enclosure (URL, duration, 'audio/x-m4a') is present iff a play path is non-empty, preferring `playPathAacv224`; the description gets the marker once iff there is no enclosure or the album is paid; title, link, date and image follow the track |
| `FeedAssembly.FeedItems` | lib/routes/ximalaya/album.ts:179 | one item per track, in the same order |
| `FeedAssembly.CategoryOf` | lib/routes/ximalaya/album.ts:12-19 | a mapped category name becomes its (non-empty) table value; any other name is returned unchanged |
| `FeedAssembly.CategoryExamples` | lib/routes/ximalaya/album.ts:219 | "音乐" becomes "Music"; "未知分类" stays "未知分类" |
| `FeedAssembly.AssembleFeed` | lib/routes/ximalaya/album.ts:213-221 | every field of the feed: the album's title, `BaseUrl/<type>/<id>` as link, the sanitized album intro as description, the author's name, "https:" + cover as image, the mapped category, and the assembled items of the list as items |
| `AlbumRoute.AllResolvableByIds` | lib/routes/ximalaya/album.ts:150-167 | whether every track resolves depends only on the track ids |
| `AlbumRoute.ExpectedFeedFails` | lib/routes/ximalaya/album.ts:147-167 | the handler fails exactly when the album is paid, a token is set and some authorized track has no play URL |
| `AlbumRoute.FeedFor` | lib/routes/ximalaya/album.ts:146-222 | it fails exactly when the paid step runs and some track cannot be resolved; on success it has one item per track, in order, with that track's title, link and image, and the album's title, the sanitized album intro as description, the author's name, `https:` + cover as image, `BaseUrl/<type>/<id>` as link and the mapped category |
| `AlbumRoute.DescribePlayList` | lib/routes/ximalaya/album.ts:129-144 | the merged list after the description step: every track's key is in the cache and each track carries its entry, with the same guarantees on the cache as `EnrichDescriptions` |
| `AlbumRoute.PayAndAssemble` | lib/routes/ximalaya/album.ts:146-221 | the paid step when it runs, in place, then the feed: the result is exactly `FeedFor` of the list it was given |
| `AlbumRoute.ExpectedFeed` | lib/routes/ximalaya/album.ts:83-222 | on success the feed has one item per merged track, the album's title, `https:` + cover as image, `BaseUrl/<type>/<id>` as link and the mapped category; without the paid step it always succeeds |
| `AlbumRoute.Handler` | lib/routes/ximalaya/album.ts:83-222 | whatever the cache held, it returns `FeedFor` of the merged list with each description read from the cache in the request's mode, and it fails exactly when `ExpectedFeed` does; the cache keeps every entry, holds the key of every merged track afterwards, and gains only computed descriptions of merged tracks; when the cache starts consistent in the request's mode and tracks sharing an id share their intro, it stays consistent and the handler returns exactly `ExpectedFeed` |
| `AlbumRoute.ItemsFollowPlayList` | lib/routes/ximalaya/album.ts:179-183 | whatever the cache holds, the handler's feed has one item per merged track with that track's title, link and image, in the same order |
| `AlbumRoute.FreeAlbumItems` | lib/routes/ximalaya/album.ts:196-208 | a free album never fails, and its items carry the marker exactly when they have no enclosure |
| `AlbumRoute.PaidAlbumWithoutToken` | lib/routes/ximalaya/album.ts:146-208 | a paid album without a token marks every item, and every enclosure is one of the track's own play paths |
| `AlbumRoute.AuthorizedTrackUsesDecryptedUrl` | lib/routes/ximalaya/album.ts:165-205 | with the paid step running, an authorized track whose URL decrypts to a non-empty string is enclosed with the decrypted URL, and its item is marked |
| `AlbumRoute.UnauthorizedTrackFallsBack` | lib/routes/ximalaya/album.ts:162-208 | with the paid step running, an unauthorized track's item is built from its own play paths, as for a paid album |

## Left out

- `getAlbumData` (lines 21-31), a cache lookup around one HTTP request: the album record is a parameter.
- HTTP requests and JSON parsing: their results are parameters (`AlbumRoute.Remote`). A request that fails is therefore not modelled, and neither is its propagation through `Promise.all`.
- The pay-info cache (line 153). Its key is a URL with a `Date.now()` timestamp. The model resolves every track from its input each time.
- The random device token (line 148), the request headers and the timestamp. They affect only the request, not what the route computes.
- `sanitizeHtml` is a parameter. `parseDate` is left out: an item's `pubDate` is the track's raw `createdAt`.
- `Promise.all` concurrency. Both per-track steps run sequentially in list order, which gives the same result because results go back by index. When a track's resolution throws, the model stops at that track. The source lets the other callbacks run, but the rejected handler discards their changes.
- The `config` token lookup: the token is a parameter. The static `route` metadata (lines 49-81) is left out.
- Cache storage, expiry and eviction. The cache's computation is passed as a value, not a callback. A rich show-note fetched on a miss is therefore a function of the track id.
- Flags.JudgeTrue: lower-cases only the ASCII letters A-Z, because `toLowerCase` applies full Unicode case mapping, which the model does not have.
- FeedAssembly.CategoryOf: looks up only the six keys of the table. In JavaScript, a name such as "constructor" would find an inherited `Object.prototype` member, and that is not modelled.
- Absent optional fields (`intro`, `richIntro`, the play paths, `desc`) are modelled as the empty string. The route's tests (`||`, `!x`, `if (x)`) treat both alike. So `item.desc || ''` is `desc` itself.
- `coverLarge` is assumed present on every track. The source calls `item.coverLarge.split('!')` (line 182), which throws when the field is missing; the model gives such a track the image "" instead.
