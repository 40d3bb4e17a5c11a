/**
 * The pure helpers and the episode state of the player screen: the proxied
 * stream URL, the caption-track choice, the `MM:SS` clock and the
 * previous/next episode buttons.
 */
module Player {
  import opened Wrappers
  import opened Text
  import opened KotlinMath
  import opened Seqs
  import Base64
  import opened Fetcher

  // ---------------------------------------------------------------------------
  // Stream URL
  // ---------------------------------------------------------------------------

  /** The string the proxy URL carries: the video URL and the referer joined by '|'. */
  function Combined(videoUrl: string, refererUrl: string): string {
    videoUrl + "|" + refererUrl
  }

  /**
   * `getProxyUrl`: the proxy, a slash, the Base64 of the UTF-8 bytes of
   * `video|referer`, then ".m3u8"; the middle segment decodes back to those bytes.
   */
  function ProxyUrl(proxy: string, videoUrl: string, refererUrl: string): (url: string)
    ensures |url| >= |proxy| + 6
    ensures url[..|proxy| + 1] == proxy + "/" && url[|url| - 5..] == ".m3u8"
    ensures Base64.Decode(url[|proxy| + 1..|url| - 5]) == Some(Base64.Utf8(Combined(videoUrl, refererUrl)))
  {
    var bytes := Base64.Utf8(Combined(videoUrl, refererUrl));
    var middle := Base64.Encode(bytes);
    Base64.DecodeEncode(bytes);
    var url := proxy + "/" + middle + ".m3u8";
    assert url[|proxy| + 1..|url| - 5] == middle;
    url
  }

  /** When neither URL contains '|', the decoded segment splits back into the two URLs. */
  lemma CombinedSplits(videoUrl: string, refererUrl: string)
    requires '|' !in videoUrl
    ensures SubstringBefore(Combined(videoUrl, refererUrl), "|", "") == videoUrl
    ensures SubstringAfter(Combined(videoUrl, refererUrl), "|", "") == refererUrl
  {
    BeforeFirstChar(videoUrl, '|', refererUrl);
  }

  /**
   * The URL handed to the player once stream info arrives: the first source's URL,
   * through the proxy when one is configured and unchanged otherwise; nothing when
   * the request failed or listed no source.
   */
  function PlayableStream(info: Result<StreamInfo>, proxy: string, refer: string): (r: Option<string>)
    ensures r.None? <==> info.Failed? || info.value.data.sources == []
    ensures r.Some? && proxy == "" ==> r.value == info.value.data.sources[0].url
    ensures r.Some? && proxy != "" ==> r.value == ProxyUrl(proxy, info.value.data.sources[0].url, refer)
  {
    if info.Failed? || info.value.data.sources == [] then None
    else
      var direct := info.value.data.sources[0].url;
      Some(if proxy != "" then ProxyUrl(proxy, direct, refer) else direct)
  }

  // ---------------------------------------------------------------------------
  // Subtitles
  // ---------------------------------------------------------------------------

  /** A caption track that is the default one or is labelled "English". */
  predicate IsEnglishCaption(t: Track) {
    t.kind == "captions" && (t.isDefault || t.trackLabel == "English")
  }

  /** `getSubtitleUrl`: the file of the first track, in list order, that `IsEnglishCaption` accepts. */
  function SubtitleUrl(info: StreamInfo): (r: Option<string>)
    ensures r.None? <==> forall i :: 0 <= i < |info.data.tracks| ==> !IsEnglishCaption(info.data.tracks[i])
    ensures r.Some? ==> exists k :: (0 <= k < |info.data.tracks| &&
      info.data.tracks[k].file == r.value && IsEnglishCaption(info.data.tracks[k]) &&
      (forall i :: 0 <= i < k ==> !IsEnglishCaption(info.data.tracks[i])))
  {
    match FirstMatch(info.data.tracks, IsEnglishCaption)
    case None => None
    case Some(t) => Some(t.file)
  }

  /** A track that is not of kind "captions" is never the one chosen, even when it is the default. */
  lemma NonCaptionNeverChosen(info: StreamInfo, k: nat)
    requires k < |info.data.tracks| && info.data.tracks[k].kind != "captions"
    requires SubtitleUrl(info).Some?
    ensures exists j :: (0 <= j < |info.data.tracks| && j != k &&
      info.data.tracks[j].file == SubtitleUrl(info).value && info.data.tracks[j].kind == "captions")
  {
    var r := SubtitleUrl(info);
    var j :| 0 <= j < |info.data.tracks| && info.data.tracks[j].file == r.value &&
      IsEnglishCaption(info.data.tracks[j]) && (forall i :: 0 <= i < j ==> !IsEnglishCaption(info.data.tracks[i]));
    assert j != k;
  }

  // ---------------------------------------------------------------------------
  // Clock
  // ---------------------------------------------------------------------------

  /** `formatTime(ms)`: minutes and seconds within the hour as `%02d:%02d`, with truncating Long division. */
  function FormatTime(ms: int): (r: string)
    ensures ms >= 0 ==> |r| == 5 && r[2] == ':' && AllDigits(r[..2]) && AllDigits(r[3..])
    ensures ms >= 0 ==> DigitsValue(r[..2]) == (ms / 60000) % 60 && DigitsValue(r[3..]) == (ms / 1000) % 60
  {
    var seconds := TRem(TDiv(ms, 1000), 60);
    var minutes := TRem(TDiv(ms, 1000 * 60), 60);
    var r := Pad2(minutes) + ":" + Pad2(seconds);
    if ms >= 0 then
      Pad2Digits(minutes);
      Pad2Digits(seconds);
      TwoDigitsValue(minutes);
      TwoDigitsValue(seconds);
      assert r[..2] == Pad2(minutes) && r[3..] == Pad2(seconds);
      r
    else
      r
  }

  /** Hours are dropped: adding a whole hour does not change the text. */
  lemma FormatTimeDropsHours(ms: int)
    requires ms >= 0
    ensures FormatTime(ms + 3600000) == FormatTime(ms)
  {
    var s0, s1 := TDiv(ms, 1000), TDiv(ms + 3600000, 1000);
    var m0, m1 := TDiv(ms, 60000), TDiv(ms + 3600000, 60000);
    assert s1 == s0 + 3600;
    assert m1 == m0 + 60;
    assert TRem(s1, 60) == TRem(s0, 60);
    assert TRem(m1, 60) == TRem(m0, 60);
  }

  // ---------------------------------------------------------------------------
  // Episode selection
  // ---------------------------------------------------------------------------

  /** `episodes?.indexOf(currentEpisode) ?: -1`. */
  function CurrentIndex(episodes: Option<seq<Episode>>, current: Option<Episode>): (i: int)
    ensures episodes.None? || current.None? ==> i == -1
    ensures episodes.Some? ==> -1 <= i < |episodes.value|
    ensures i == -1 <==> episodes.None? || current.None? || current.value !in episodes.value
    ensures i >= 0 ==> current.Some? && episodes.value[i] == current.value && current.value !in episodes.value[..i]
  {
    if episodes.None? || current.None? then -1 else IndexOfElem(episodes.value, current.value)
  }

  class PlayerState {
    var episodes: Option<seq<Episode>>
    var currentEpisode: Option<Episode>
    var playerStream: Option<string>

    /** The screen opens with no episode list, no episode and no stream. */
    constructor()
      ensures episodes == None && currentEpisode == None && playerStream == None
    {
      episodes := None;
      currentEpisode := None;
      playerStream := None;
    }

    /** The episode list arrives. */
    method SetEpisodes(list: Option<seq<Episode>>)
      modifies this
      ensures episodes == list
      ensures currentEpisode == old(currentEpisode) && playerStream == old(playerStream)
    {
      episodes := list;
    }

    /** An episode is picked from the list. */
    method SelectEpisode(e: Episode)
      modifies this
      ensures currentEpisode == Some(e)
      ensures episodes == old(episodes) && playerStream == old(playerStream)
    {
      currentEpisode := Some(e);
    }

    /** The previous-episode button: moves back one only when the current index is above 0. */
    method Previous()
      modifies this
      ensures var i := CurrentIndex(old(episodes), old(currentEpisode));
        currentEpisode == if i > 0 then Some(old(episodes).value[i - 1]) else old(currentEpisode)
      ensures episodes == old(episodes) && playerStream == old(playerStream)
    {
      var i := CurrentIndex(episodes, currentEpisode);
      if i > 0 {
        currentEpisode := Some(episodes.value[i - 1]);
      }
    }

    /** The next-episode button: moves on one when the index is below size - 1; with no match it takes episode 0. */
    method Next()
      modifies this
      ensures var i := CurrentIndex(old(episodes), old(currentEpisode));
        var size := if old(episodes).Some? then |old(episodes).value| else 0;
        currentEpisode == if i < size - 1 then Some(old(episodes).value[i + 1]) else old(currentEpisode)
      ensures episodes == old(episodes) && playerStream == old(playerStream)
    {
      var i := CurrentIndex(episodes, currentEpisode);
      var size := if episodes.Some? then |episodes.value| else 0;
      if i < size - 1 {
        currentEpisode := Some(episodes.value[i + 1]);
      }
    }

    /** The stream effect: stores the playable URL when there is one and leaves the old stream otherwise. */
    method LoadStream(info: Result<StreamInfo>, proxy: string, refer: string)
      modifies this
      ensures playerStream == if PlayableStream(info, proxy, refer).Some? then PlayableStream(info, proxy, refer)
                              else old(playerStream)
      ensures episodes == old(episodes) && currentEpisode == old(currentEpisode)
    {
      var s := PlayableStream(info, proxy, refer);
      if s.Some? {
        playerStream := s;
      }
    }
  }
}
