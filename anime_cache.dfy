/**
 * The legacy desktop client's response cache: the same five-minute rule as
 * `MemCache`, over three slots (top airing, top seasonal, top three).
 */
module AnimeCacheApi {
  import opened Wrappers
  import opened Data
  import opened MemCacheApi

  class AnimeCache {
    var topAiringCache: Option<CachedData>
    var topSeasonalCache: Option<CachedData>
    var topThreeCache: Option<CachedData>
    var topAiringAnime: seq<Anime>
    var topSeasonalAnime: seq<Anime>
    var topThreeSeasonalAnime: seq<Anime>

    /** Each published list is the payload of its slot, or empty while the slot was never written. */
    ghost predicate Valid()
      reads this
    {
      (if topAiringCache.Some? then topAiringAnime == topAiringCache.value.data else topAiringAnime == []) &&
      (if topSeasonalCache.Some? then topSeasonalAnime == topSeasonalCache.value.data else topSeasonalAnime == []) &&
      (if topThreeCache.Some? then topThreeSeasonalAnime == topThreeCache.value.data else topThreeSeasonalAnime == [])
    }

    /** All three slots and all three lists start empty. */
    constructor()
      ensures Valid()
      ensures topAiringCache == None && topSeasonalCache == None && topThreeCache == None
      ensures topAiringAnime == [] && topSeasonalAnime == [] && topThreeSeasonalAnime == []
    {
      topAiringCache := None;
      topSeasonalCache := None;
      topThreeCache := None;
      topAiringAnime := [];
      topSeasonalAnime := [];
      topThreeSeasonalAnime := [];
    }

    /** `needsRefresh()` at wall-clock time `now`: some slot is empty or expired. */
    predicate NeedsRefresh(now: int)
      reads this
    {
      Stale(topAiringCache, now) || Stale(topSeasonalCache, now) || Stale(topThreeCache, now)
    }

    /** `updateTopAiring(data)` at time `now`: only the airing slot and list change. */
    method UpdateTopAiring(data: seq<Anime>, now: int)
      requires Valid()
      modifies this
      ensures Valid()
      ensures topAiringCache == Some(CachedData(data, now)) && topAiringAnime == data
      ensures topSeasonalCache == old(topSeasonalCache) && topSeasonalAnime == old(topSeasonalAnime)
      ensures topThreeCache == old(topThreeCache) && topThreeSeasonalAnime == old(topThreeSeasonalAnime)
    {
      topAiringCache := Some(CachedData(data, now));
      topAiringAnime := data;
    }

    /** `updateTopSeasonal(data)` at time `now`: only the seasonal slot and list change. */
    method UpdateTopSeasonal(data: seq<Anime>, now: int)
      requires Valid()
      modifies this
      ensures Valid()
      ensures topSeasonalCache == Some(CachedData(data, now)) && topSeasonalAnime == data
      ensures topAiringCache == old(topAiringCache) && topAiringAnime == old(topAiringAnime)
      ensures topThreeCache == old(topThreeCache) && topThreeSeasonalAnime == old(topThreeSeasonalAnime)
    {
      topSeasonalCache := Some(CachedData(data, now));
      topSeasonalAnime := data;
    }

    /** `updateTopThree(data)` at time `now`: only the top-three slot and list change. */
    method UpdateTopThree(data: seq<Anime>, now: int)
      requires Valid()
      modifies this
      ensures Valid()
      ensures topThreeCache == Some(CachedData(data, now)) && topThreeSeasonalAnime == data
      ensures topAiringCache == old(topAiringCache) && topAiringAnime == old(topAiringAnime)
      ensures topSeasonalCache == old(topSeasonalCache) && topSeasonalAnime == old(topSeasonalAnime)
    {
      topThreeCache := Some(CachedData(data, now));
      topThreeSeasonalAnime := data;
    }
  }

  /** An unset slot forces a refresh, whatever the other two hold. */
  lemma UnsetSlotNeedsRefresh(c: AnimeCache, now: int)
    requires c.topAiringCache.None? || c.topSeasonalCache.None? || c.topThreeCache.None?
    ensures c.NeedsRefresh(now)
  {
  }

  /** One entry five minutes old or older forces a refresh, whatever the other slots hold. */
  lemma ExpiredSlotNeedsRefresh(c: AnimeCache, now: int)
    requires
      (c.topAiringCache.Some? && now - c.topAiringCache.value.timestamp >= 300000) ||
      (c.topSeasonalCache.Some? && now - c.topSeasonalCache.value.timestamp >= 300000) ||
      (c.topThreeCache.Some? && now - c.topThreeCache.value.timestamp >= 300000)
    ensures c.NeedsRefresh(now)
  {
  }

  /** After all three slots are written at `t`, a refresh is due exactly from `t` + 5 minutes on. */
  method UpdateAll(airing: seq<Anime>, seasonal: seq<Anime>, three: seq<Anime>, t: int, now: int)
    returns (c: AnimeCache)
    ensures c.Valid()
    ensures c.topAiringAnime == airing && c.topSeasonalAnime == seasonal && c.topThreeSeasonalAnime == three
    ensures !c.NeedsRefresh(now) <==> now - t < 300000
  {
    c := new AnimeCache();
    c.UpdateTopAiring(airing, t);
    c.UpdateTopSeasonal(seasonal, t);
    c.UpdateTopThree(three, t);
  }
}
