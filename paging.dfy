/** The track list: the first page, and with the `all` flag the pages
    2..maxPageId appended in ascending page order. */
module Paging {
  import opened Text
  import opened Tracks

  const TrackInfoApiBase := "https://mobile.ximalaya.com/mobile/v1/album/track/?albumId="

  /** `trackInfoApi`: the page URL without its page number. */
  function TrackInfoApi(albumId: string, pageSize: nat): (api: string)
    ensures var p := TrackInfoApiBase + albumId + "&pageSize=";
      p <= api && api[|p|..] == NatToString(pageSize) + "&pageId="
  {
    TrackInfoApiBase + albumId + "&pageSize=" + NatToString(pageSize) + "&pageId="
  }

  /** `trackInfoApi + i`. */
  function PageUrl(api: string, pageId: nat): (url: string)
  {
    api + NatToString(pageId)
  }

  /** Distinct page numbers are distinct requests. */
  lemma PageUrlInjective(api: string, i: nat, j: nat)
    requires PageUrl(api, i) == PageUrl(api, j)
    ensures i == j
  {
    assert NatToString(i) == PageUrl(api, i)[|api|..];
    assert NatToString(j) == PageUrl(api, j)[|api|..];
    NatToStringInjective(i, j);
  }

  /** How many pages follow the first: none when maxPageId is 1 or less. */
  function RemainingCount(maxPageId: int): (n: nat)
  {
    if maxPageId >= 2 then maxPageId - 1 else 0
  }

  /** The responses to pages 2..maxPageId, indexed by page order. */
  function RemainingPages(api: string, maxPageId: int, fetch: string -> TrackPage): (pages: seq<TrackPage>)
    ensures |pages| == RemainingCount(maxPageId)
    ensures forall k :: 0 <= k < |pages| ==> pages[k] == fetch(PageUrl(api, k + 2))
  {
    seq(RemainingCount(maxPageId), k requires 0 <= k => fetch(PageUrl(api, k + 2)))
  }

  /** The request loop `for (let i = 2; i <= maxPageId; i++)`: one request
      per further page, collected in page order (`Promise.all` keeps the order
      of its input, not of arrival). */
  method RequestRemainingPages(api: string, maxPageId: int, fetch: string -> TrackPage)
    returns (responses: seq<TrackPage>)
    ensures maxPageId <= 1 ==> responses == []
    ensures maxPageId >= 2 ==> |responses| == maxPageId - 1
    ensures forall k :: 0 <= k < |responses| ==> responses[k] == fetch(PageUrl(api, k + 2))
  {
    responses := [];
    var i := 2;
    while i <= maxPageId
      invariant 2 <= i
      invariant |responses| == i - 2 <= RemainingCount(maxPageId)
      invariant forall k :: 0 <= k < |responses| ==> responses[k] == fetch(PageUrl(api, k + 2))
    {
      responses := responses + [fetch(PageUrl(api, i))];
      i := i + 1;
    }
  }

  /** All tracks of `pages`, page after page, each page in its own order. */
  function Flatten(pages: seq<TrackPage>): (tracks: seq<Track>)
    decreases |pages|
  {
    if |pages| == 0 then [] else Flatten(pages[..|pages| - 1]) + pages[|pages| - 1].list
  }

  /** The number of tracks over all `pages`. */
  function TotalLength(pages: seq<TrackPage>): (n: nat)
    decreases |pages|
  {
    if |pages| == 0 then 0 else TotalLength(pages[..|pages| - 1]) + |pages[|pages| - 1].list|
  }

  /** The merged list is as long as all pages together. */
  lemma {:induction false} FlattenLength(pages: seq<TrackPage>)
    ensures |Flatten(pages)| == TotalLength(pages)
    decreases |pages|
  {
    if |pages| > 0 {
      FlattenLength(pages[..|pages| - 1]);
    }
  }

  /** Track k of page j sits right after the tracks of the pages before j. */
  lemma {:induction false} FlattenAt(pages: seq<TrackPage>, j: nat, k: nat)
    requires j < |pages| && k < |pages[j].list|
    ensures TotalLength(pages[..j]) + k < |Flatten(pages)|
    ensures Flatten(pages)[TotalLength(pages[..j]) + k] == pages[j].list[k]
    decreases |pages|
  {
    var n := |pages|;
    var init := pages[..n - 1];
    FlattenLength(init);
    FlattenLength(pages);
    if j == n - 1 {
      assert pages[..j] == init;
    } else {
      assert pages[..j] == init[..j];
      FlattenAt(init, j, k);
    }
  }

  /** The merge loop `playList = [...playList, ...j.data.list]`: the first
      page's tracks followed by every further page's tracks. */
  method MergePages(first: seq<Track>, responses: seq<TrackPage>) returns (playList: seq<Track>)
    ensures playList == first + Flatten(responses)
    ensures |playList| == |first| + TotalLength(responses)
  {
    playList := first;
    for j := 0 to |responses|
      invariant playList == first + Flatten(responses[..j])
    {
      assert responses[..j + 1][..j] == responses[..j];
      playList := playList + responses[j].list;
    }
    assert responses[..|responses|] == responses;
    FlattenLength(responses);
  }

  /** The track list the route works on: page 1 alone, or with the `all` flag
      page 1 followed by pages 2..maxPageId as page 1 reports it. */
  function MergedList(shouldAll: bool, api: string, fetch: string -> TrackPage): (tracks: seq<Track>)
    ensures var first := fetch(PageUrl(api, 1)).list;
      |first| <= |tracks| && tracks[..|first|] == first
    ensures !shouldAll || fetch(PageUrl(api, 1)).maxPageId <= 1 ==> tracks == fetch(PageUrl(api, 1)).list
  {
    var first := fetch(PageUrl(api, 1));
    if shouldAll then first.list + Flatten(RemainingPages(api, first.maxPageId, fetch)) else first.list
  }

  /** Without the `all` flag the list is exactly page 1; with it, its length
      is the sum of the page lengths. */
  lemma MergedListLength(shouldAll: bool, api: string, fetch: string -> TrackPage)
    ensures var first := fetch(PageUrl(api, 1));
      !shouldAll ==> MergedList(shouldAll, api, fetch) == first.list
    ensures var first := fetch(PageUrl(api, 1));
      shouldAll ==>
        |MergedList(shouldAll, api, fetch)| == |first.list| + TotalLength(RemainingPages(api, first.maxPageId, fetch))
  {
    var first := fetch(PageUrl(api, 1));
    FlattenLength(RemainingPages(api, first.maxPageId, fetch));
  }

  /** With the `all` flag, page 1 comes first in its own order, and track k of
      page p (p >= 2) follows every track of pages 1..p-1. */
  lemma MergedListOrder(api: string, fetch: string -> TrackPage, p: nat, k: nat)
    requires var first := fetch(PageUrl(api, 1));
      2 <= p <= first.maxPageId && k < |fetch(PageUrl(api, p)).list|
    ensures var first := fetch(PageUrl(api, 1));
      var pages := RemainingPages(api, first.maxPageId, fetch);
      var at := |first.list| + TotalLength(pages[..p - 2]) + k;
      at < |MergedList(true, api, fetch)| &&
      MergedList(true, api, fetch)[at] == fetch(PageUrl(api, p)).list[k]
  {
    var first := fetch(PageUrl(api, 1));
    var pages := RemainingPages(api, first.maxPageId, fetch);
    assert p - 2 < |pages| && pages[p - 2] == fetch(PageUrl(api, p));
    FlattenAt(pages, p - 2, k);
    var rest := Flatten(pages);
    var at := TotalLength(pages[..p - 2]) + k;
    assert MergedList(true, api, fetch) == first.list + rest;
    assert (first.list + rest)[|first.list| + at] == rest[at];
  }
}
