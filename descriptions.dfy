/** Per-track description enrichment: the rich show-note or the short intro,
    read through a get-or-compute cache keyed by (trackId, show-note flag). */
module Descriptions {
  import opened Text
  import opened Tracks

  const RichInfoKeyPrefix := "ximalaya:trackRichInfo:"

  /** The cache key `ximalaya:trackRichInfo:${trackId}:${flag}`. */
  function RichKey(trackId: nat, showNote: bool): (key: string)
    ensures var p, f := RichInfoKeyPrefix + NatToString(trackId), ":" + BoolToString(showNote);
      |key| == |p| + |f| && key[..|p|] == p && key[|p|..] == f
  {
    var d, f := NatToString(trackId), ":" + BoolToString(showNote);
    assert RichInfoKeyPrefix + (d + f) == (RichInfoKeyPrefix + d) + f;
    RichInfoKeyPrefix + (d + f)
  }

  lemma PrefixCancel(p: string, a: string, b: string)
    requires p + a == p + b
    ensures a == b
  {
    assert a == (p + a)[|p|..];
    assert b == (p + b)[|p|..];
  }

  /** A run of digits followed by ':' can be cut apart in one way only. */
  lemma DigitsThenColon(d1: string, t1: string, d2: string, t2: string)
    requires forall i :: 0 <= i < |d1| ==> IsDigit(d1[i])
    requires forall i :: 0 <= i < |d2| ==> IsDigit(d2[i])
    requires |t1| > 0 && t1[0] == ':' && |t2| > 0 && t2[0] == ':'
    requires d1 + t1 == d2 + t2
    ensures d1 == d2 && t1 == t2
  {
    var rest := d1 + t1;
    assert rest[|d1|] == ':' && rest[|d2|] == ':';
    if |d1| < |d2| {
      assert false;
    } else if |d2| < |d1| {
      assert false;
    }
    assert d1 == rest[..|d1|] == d2;
    assert t1 == rest[|d1|..] == t2;
  }

  /** Two keys are equal exactly when both the track and the mode are: the two
      modes of one track, and two different tracks, never share an entry. */
  lemma RichKeyInjective(id1: nat, f1: bool, id2: nat, f2: bool)
    ensures RichKey(id1, f1) == RichKey(id2, f2) <==> id1 == id2 && f1 == f2
  {
    if RichKey(id1, f1) == RichKey(id2, f2) {
      var d1, d2 := NatToString(id1), NatToString(id2);
      var t1, t2 := ":" + BoolToString(f1), ":" + BoolToString(f2);
      PrefixCancel(RichInfoKeyPrefix, d1 + t1, d2 + t2);
      DigitsThenColon(d1, t1, d2, t2);
      assert BoolToString(f1) == t1[1..] && BoolToString(f2) == t2[1..];
      NatToStringInjective(id1, id2);
      BoolToStringInjective(f1, f2);
    }
  }

  /** The value the cache computes on a miss: with show-notes on, the rich
      show-note unless it is empty; the short intro otherwise. */
  function Describe(showNote: bool, intro: string, richIntro: string): (d: string)
    ensures !showNote ==> d == intro
    ensures showNote && richIntro != "" ==> d == richIntro
    ensures showNote && richIntro == "" ==> d == intro
  {
    var fetched := if showNote then richIntro else "";
    if fetched == "" then intro else fetched
  }

  /** A track after the description step, when the cache answers with what it
      would compute now. */
  function Enrich(t: Track, showNote: bool, rich: nat -> string): (r: Track)
  {
    t.(desc := Describe(showNote, t.intro, rich(t.trackId)))
  }

  /** The whole list after the description step, position by position. */
  function Enriched(tracks: seq<Track>, showNote: bool, rich: nat -> string): (r: seq<Track>)
    ensures |r| == |tracks|
    ensures forall i :: 0 <= i < |tracks| ==> r[i] == Enrich(tracks[i], showNote, rich)
  {
    seq(|tracks|, i requires 0 <= i < |tracks| => Enrich(tracks[i], showNote, rich))
  }

  /** The description step changes only `desc`. */
  lemma EnrichKeepsOtherFields(t: Track, showNote: bool, rich: nat -> string)
    ensures Enrich(t, showNote, rich) == t.(desc := Enrich(t, showNote, rich).desc)
    ensures !showNote ==> Enrich(t, showNote, rich).desc == t.intro
  {
  }

  /** The cache agrees, in mode `showNote` only, with what would be computed
      now for every track of the list; entries under the other mode's keys
      are not constrained. */
  ghost predicate CoherentIn(entries: map<string, string>, tracks: seq<Track>, showNote: bool, rich: nat -> string)
  {
    forall i :: 0 <= i < |tracks| && RichKey(tracks[i].trackId, showNote) in entries ==>
      entries[RichKey(tracks[i].trackId, showNote)] == Describe(showNote, tracks[i].intro, rich(tracks[i].trackId))
  }

  /** Tracks of the list that share an id share their intro. */
  ghost predicate IdsDetermineIntro(tracks: seq<Track>)
  {
    forall i, j :: 0 <= i < |tracks| && 0 <= j < |tracks| && tracks[i].trackId == tracks[j].trackId ==>
      tracks[i].intro == tracks[j].intro
  }

  /** How the description step may change the cache: every entry already
      present keeps its value, and every new entry is the key of some track of
      the list in this mode, holding that track's freshly computed
      description. */
  ghost predicate ExtendsFor(before: map<string, string>, after: map<string, string>, tracks: seq<Track>,
                             showNote: bool, rich: nat -> string)
  {
    (forall k :: k in before ==> k in after && after[k] == before[k]) &&
    (forall k :: k in after && k !in before ==>
      exists i :: 0 <= i < |tracks| && k == RichKey(tracks[i].trackId, showNote) &&
        after[k] == Describe(showNote, tracks[i].intro, rich(tracks[i].trackId)))
  }

  /** The cache after looking up track t's key in this mode. */
  function Looked(entries: map<string, string>, t: Track, showNote: bool, rich: nat -> string)
    : (after: map<string, string>)
  {
    var key := RichKey(t.trackId, showNote);
    if key in entries then entries else entries[key := Describe(showNote, t.intro, rich(t.trackId))]
  }

  /** The list read back from the cache: each track with its entry in mode
      `showNote` as description; a track without an entry keeps its own. */
  function CachedTracks(entries: map<string, string>, tracks: seq<Track>, showNote: bool): (r: seq<Track>)
    ensures |r| == |tracks|
    ensures forall i :: 0 <= i < |tracks| ==> r[i] == tracks[i].(desc := r[i].desc)
    ensures forall i :: 0 <= i < |tracks| ==>
      if RichKey(tracks[i].trackId, showNote) in entries
      then r[i].desc == entries[RichKey(tracks[i].trackId, showNote)]
      else r[i] == tracks[i]
  {
    seq(|tracks|, i requires 0 <= i < |tracks| =>
      var key := RichKey(tracks[i].trackId, showNote);
      if key in entries then tracks[i].(desc := entries[key]) else tracks[i])
  }

  /** Every track of the list has an entry in mode `showNote`. */
  ghost predicate HasKeys(entries: map<string, string>, tracks: seq<Track>, showNote: bool)
  {
    forall i :: 0 <= i < |tracks| ==> RichKey(tracks[i].trackId, showNote) in entries
  }

  /** A cache grown only by computed descriptions of the list's tracks stays
      coherent in that mode, provided tracks sharing an id share their
      intro: a new key can only be that of a track with the same id. */
  lemma ExtendsKeepsCoherentIn(before: map<string, string>, after: map<string, string>, tracks: seq<Track>,
                               showNote: bool, rich: nat -> string)
    requires ExtendsFor(before, after, tracks, showNote, rich)
    requires CoherentIn(before, tracks, showNote, rich) && IdsDetermineIntro(tracks)
    ensures CoherentIn(after, tracks, showNote, rich)
  {
    forall j | 0 <= j < |tracks| && RichKey(tracks[j].trackId, showNote) in after
      ensures after[RichKey(tracks[j].trackId, showNote)] ==
              Describe(showNote, tracks[j].intro, rich(tracks[j].trackId))
    {
      var key := RichKey(tracks[j].trackId, showNote);
      if key !in before {
        var i :| 0 <= i < |tracks| && key == RichKey(tracks[i].trackId, showNote) &&
                 after[key] == Describe(showNote, tracks[i].intro, rich(tracks[i].trackId));
        RichKeyInjective(tracks[i].trackId, showNote, tracks[j].trackId, showNote);
      }
    }
  }

  /** When every track has its entry and the cache is coherent in this mode,
      the list read back from it is exactly `Enriched`. */
  lemma CachedIsEnriched(entries: map<string, string>, tracks: seq<Track>, showNote: bool, rich: nat -> string)
    requires HasKeys(entries, tracks, showNote)
    requires CoherentIn(entries, tracks, showNote, rich)
    ensures CachedTracks(entries, tracks, showNote) == Enriched(tracks, showNote, rich)
  {
  }

  /** A lookup of track m's key, storing its computed description on a miss,
      keeps the cache within what the description step may do. */
  lemma ExtendsForStep(before: map<string, string>, entries: map<string, string>, tracks: seq<Track>,
                       showNote: bool, rich: nat -> string, m: nat)
    requires m < |tracks| && ExtendsFor(before, entries, tracks, showNote, rich)
    ensures ExtendsFor(before, Looked(entries, tracks[m], showNote, rich), tracks, showNote, rich)
  {
    var t := tracks[m];
    var key := RichKey(t.trackId, showNote);
    if key !in entries {
      var after := entries[key := Describe(showNote, t.intro, rich(t.trackId))];
      forall k | k in after && k !in before
        ensures exists i :: 0 <= i < |tracks| && k == RichKey(tracks[i].trackId, showNote) &&
                            after[k] == Describe(showNote, tracks[i].intro, rich(tracks[i].trackId))
      {
        if k == key {
          assert k == RichKey(tracks[m].trackId, showNote);
        }
      }
    }
  }

  /** The first n tracks of `s` carry their cache entry as description; the
      others are still the original tracks. */
  ghost predicate EnrichedUpTo(s: seq<Track>, orig: seq<Track>, entries: map<string, string>, showNote: bool, n: nat)
  {
    |s| == |orig| && n <= |s| &&
    (forall j :: 0 <= j < n ==>
      RichKey(orig[j].trackId, showNote) in entries &&
      s[j] == orig[j].(desc := entries[RichKey(orig[j].trackId, showNote)])) &&
    (forall j :: n <= j < |s| ==> s[j] == orig[j])
  }

  lemma EnrichedUpToStep(s: seq<Track>, orig: seq<Track>, entries: map<string, string>, showNote: bool,
                         rich: nat -> string, n: nat)
    requires EnrichedUpTo(s, orig, entries, showNote, n) && n < |s|
    ensures var after := Looked(entries, orig[n], showNote, rich);
      EnrichedUpTo(s[n := orig[n].(desc := after[RichKey(orig[n].trackId, showNote)])], orig, after, showNote, n + 1)
  {
  }

  /** Once every track carries its cache entry, every key is present and the
      list is the one read back from the cache. */
  lemma EnrichedUpToAll(s: seq<Track>, orig: seq<Track>, entries: map<string, string>, showNote: bool)
    requires EnrichedUpTo(s, orig, entries, showNote, |s|)
    ensures HasKeys(entries, orig, showNote)
    ensures s == CachedTracks(entries, orig, showNote)
  {
  }

  /** A get-or-compute cache of strings (`cache.tryGet`): a key already
      present answers with its stored value; a missing key stores and returns
      the computed one. Storage, expiry and eviction are not modelled. */
  class TextCache {
    var entries: map<string, string>

    constructor ()
      ensures entries == map[]
    {
      entries := map[];
    }

    method TryGet(key: string, computed: string) returns (value: string)
      modifies this
      ensures key in old(entries) ==> value == old(entries)[key] && entries == old(entries)
      ensures key !in old(entries) ==> value == computed && entries == old(entries)[key := computed]
    {
      if key in entries {
        value := entries[key];
      } else {
        value := computed;
        entries := entries[key := value];
      }
    }
  }

  /** The description step `item.desc = await cache.tryGet(...)` over the
      whole list. Every track's key is in the cache afterwards and each track
      gets that entry as description; entries already present are never
      changed, every new entry belongs to a track of the list and holds its
      computed description, and when the cache started coherent in this mode
      the list becomes exactly `Enriched` of the old list. */
  method EnrichDescriptions(cache: TextCache, playList: array<Track>, showNote: bool, rich: nat -> string)
    modifies cache, playList
    ensures ExtendsFor(old(cache.entries), cache.entries, old(playList[..]), showNote, rich)
    ensures HasKeys(cache.entries, old(playList[..]), showNote)
    ensures playList[..] == CachedTracks(cache.entries, old(playList[..]), showNote)
    ensures CoherentIn(old(cache.entries), old(playList[..]), showNote, rich) && IdsDetermineIntro(old(playList[..])) ==>
      CoherentIn(cache.entries, old(playList[..]), showNote, rich) &&
      playList[..] == Enriched(old(playList[..]), showNote, rich)
  {
    ghost var orig := playList[..];
    ghost var start := cache.entries;
    var i := 0;
    while i < playList.Length
      invariant 0 <= i <= playList.Length
      invariant EnrichedUpTo(playList[..], orig, cache.entries, showNote, i)
      invariant ExtendsFor(start, cache.entries, orig, showNote, rich)
    {
      var item := playList[i];
      var key := RichKey(item.trackId, showNote);
      var computed := Describe(showNote, item.intro, rich(item.trackId));
      ExtendsForStep(start, cache.entries, orig, showNote, rich, i);
      EnrichedUpToStep(playList[..], orig, cache.entries, showNote, rich, i);
      ghost var before := playList[..];
      ghost var looked := Looked(cache.entries, item, showNote, rich);
      var d := cache.TryGet(key, computed);
      assert cache.entries == looked && d == looked[key];
      playList[i] := item.(desc := d);
      assert playList[..] == before[i := orig[i].(desc := looked[key])];
      i := i + 1;
    }
    EnrichedUpToAll(playList[..], orig, cache.entries, showNote);
    if CoherentIn(start, orig, showNote, rich) && IdsDetermineIntro(orig) {
      ExtendsKeepsCoherentIn(start, cache.entries, orig, showNote, rich);
      CachedIsEnriched(cache.entries, orig, showNote, rich);
    }
  }
}
