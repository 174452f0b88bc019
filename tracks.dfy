/** The records the route reads from the platform. A field the platform may
    leave out is the empty string here: every test the route makes on such a
    field (`||`, `!x`, `if (x)`) treats a missing value and "" alike.
    `coverLarge` is the exception: the route splits it unconditionally, so it
    is taken to be present on every track. */
module Tracks {

  /** One entry of a track-list page, with the two fields the route writes:
      `desc` (set by the description step) and `playPathAacv224` (replaced by
      the paid-content step). */
  datatype Track = Track(
    trackId: nat,
    title: string,
    coverLarge: string,
    createdAt: int,      // epoch milliseconds
    duration: int,       // seconds
    intro: string,
    playPathAacv224: string,
    playPathAacv164: string,
    desc: string)

  /** The `data` part of one track-list response. */
  datatype TrackPage = TrackPage(maxPageId: int, list: seq<Track>)

  /** The `albumPageMainInfo` fields the route uses. */
  datatype Album = Album(
    isPaid: bool,
    anchorName: string,
    albumTitle: string,
    cover: string,
    detailRichIntro: string,
    categoryTitle: string)
}
