/** Paid-content resolution: for a paid album with a configured token, each
    track's authorization result either leaves the track as it is or replaces
    its `playPathAacv224` with the decrypted play URL. */
module PaidContent {
  import opened Wrappers
  import opened Tracks

  /** `trackInfo` of the authorization-check response. */
  datatype TrackPayInfo = TrackPayInfo(isAuthorized: bool, playUrlList: seq<string>)

  /** The object the per-track resolution returns (`_item`); "" stands for a
      key it does not set. */
  datatype PayResult = PayResult(playPathAacv224: string, desc: string)

  /** `trackInfo.playUrlList[0].url` on an empty list throws, which rejects
      the whole `Promise.all` and so the handler. */
  datatype Failure = PlayUrlListEmpty

  /** The resolution step: nothing for an unauthorized track, the decrypted
      first play URL for an authorized one. */
  function ResolvePayInfo(info: TrackPayInfo, decrypt: string -> string): (r: Result<PayResult, Failure>)
    ensures r.Err? <==> info.isAuthorized && |info.playUrlList| == 0
    ensures r.Ok? ==> r.value.desc == ""
    ensures r.Ok? && !info.isAuthorized ==> r.value.playPathAacv224 == ""
    ensures r.Ok? && info.isAuthorized ==> r.value.playPathAacv224 == decrypt(info.playUrlList[0])
  {
    if !info.isAuthorized then Ok(PayResult("", ""))
    else if |info.playUrlList| == 0 then Err(PlayUrlListEmpty)
    else Ok(PayResult(decrypt(info.playUrlList[0]), ""))
  }

  /** The resolution never produces a description, so the description
      override of the paid step never fires. */
  lemma ResolveNeverSetsDesc(info: TrackPayInfo, decrypt: string -> string)
    ensures var r := ResolvePayInfo(info, decrypt);
      r.Ok? ==> r.value.desc == ""
  {
  }

  /** The two overrides `if (data.playPathAacv224) ...` and
      `if (data.desc) ...`. */
  function ApplyPayResult(t: Track, data: PayResult): (r: Track)
    ensures r == t.(playPathAacv224 := r.playPathAacv224, desc := r.desc)
    ensures r.playPathAacv224 == if data.playPathAacv224 != "" then data.playPathAacv224 else t.playPathAacv224
    ensures r.desc == if data.desc != "" then data.desc else t.desc
  {
    var t1 := if data.playPathAacv224 != "" then t.(playPathAacv224 := data.playPathAacv224) else t;
    if data.desc != "" then t1.(desc := data.desc) else t1
  }

  /** The effect of the paid step on one track: an unauthorized track is left
      unchanged; an authorized one whose first play URL decrypts to a
      non-empty string gets that string as `playPathAacv224`; nothing else
      ever changes. */
  lemma PaidOverrideEffect(t: Track, info: TrackPayInfo, decrypt: string -> string)
    ensures var r := ResolvePayInfo(info, decrypt);
      r.Err? <==> info.isAuthorized && |info.playUrlList| == 0
    ensures var r := ResolvePayInfo(info, decrypt);
      !info.isAuthorized ==> r.Ok? && ApplyPayResult(t, r.value) == t
    ensures var r := ResolvePayInfo(info, decrypt);
      info.isAuthorized && |info.playUrlList| > 0 && decrypt(info.playUrlList[0]) != "" ==>
        r.Ok? && ApplyPayResult(t, r.value) == t.(playPathAacv224 := decrypt(info.playUrlList[0]))
    ensures var r := ResolvePayInfo(info, decrypt);
      r.Ok? ==> ApplyPayResult(t, r.value) == t.(playPathAacv224 := ApplyPayResult(t, r.value).playPathAacv224)
  {
  }

  /** Every track's resolution succeeds. */
  predicate AllResolvable(tracks: seq<Track>, payInfo: nat -> TrackPayInfo, decrypt: string -> string)
  {
    forall i :: 0 <= i < |tracks| ==> ResolvePayInfo(payInfo(tracks[i].trackId), decrypt).Ok?
  }

  /** The track list after the paid step, or the failure that aborts it. */
  function PaidTracks(tracks: seq<Track>, payInfo: nat -> TrackPayInfo, decrypt: string -> string)
    : (r: Result<seq<Track>, Failure>)
    ensures r.Ok? <==> AllResolvable(tracks, payInfo, decrypt)
    ensures r.Ok? ==> |r.value| == |tracks| && forall i :: 0 <= i < |tracks| ==>
      r.value[i] == ApplyPayResult(tracks[i], ResolvePayInfo(payInfo(tracks[i].trackId), decrypt).value)
  {
    if AllResolvable(tracks, payInfo, decrypt) then
      Ok(seq(|tracks|, i requires 0 <= i < |tracks| =>
        ApplyPayResult(tracks[i], ResolvePayInfo(payInfo(tracks[i].trackId), decrypt).value)))
    else
      Err(PlayUrlListEmpty)
  }

  /** The paid step over the whole list, in place; it answers false when a
      track's resolution throws. */
  method ApplyPaidInfo(playList: array<Track>, payInfo: nat -> TrackPayInfo, decrypt: string -> string)
    returns (ok: bool)
    modifies playList
    ensures ok == AllResolvable(old(playList[..]), payInfo, decrypt)
    ensures ok ==> PaidTracks(old(playList[..]), payInfo, decrypt) == Ok(playList[..])
  {
    ghost var orig := playList[..];
    var i := 0;
    while i < playList.Length
      invariant 0 <= i <= playList.Length
      invariant forall j :: i <= j < playList.Length ==> playList[j] == orig[j]
      invariant forall j :: 0 <= j < i ==> ResolvePayInfo(payInfo(orig[j].trackId), decrypt).Ok?
      invariant forall j :: 0 <= j < i ==>
        playList[j] == ApplyPayResult(orig[j], ResolvePayInfo(payInfo(orig[j].trackId), decrypt).value)
    {
      var item := playList[i];
      var data := ResolvePayInfo(payInfo(item.trackId), decrypt);
      if data.Err? {
        return false;
      }
      var result := data.value;
      if result.playPathAacv224 != "" {
        item := item.(playPathAacv224 := result.playPathAacv224);
      }
      if result.desc != "" {
        item := item.(desc := result.desc);
      }
      playList[i] := item;
      i := i + 1;
    }
    ok := true;
    assert PaidTracks(orig, payInfo, decrypt).Ok?;
    assert PaidTracks(orig, payInfo, decrypt).value == playList[..];
  }
}
