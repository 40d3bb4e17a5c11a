/**
 * The process-wide response cache of the home screen: two slots (top airing,
 * top seasonal), each either empty or holding a payload with the time it was
 * stored, and the two lists the screen observes.
 */
module MemCacheApi {
  import opened Wrappers
  import opened Data

  /** Five minutes, in milliseconds. */
  const CacheDuration: int := 5 * 60 * 1000

  /** A cached payload with the wall-clock time (ms) at which it was stored. */
  datatype CachedData = CachedData(data: seq<Anime>, timestamp: int)

  /** `isValid`: the entry is younger than the cache duration at time `now`. */
  predicate IsValid(c: CachedData, now: int) {
    now - c.timestamp < CacheDuration
  }

  /** `slot?.let { !isValid(it) } ?: true`: an empty slot or an expired entry. */
  predicate Stale(slot: Option<CachedData>, now: int) {
    slot.None? || !IsValid(slot.value, now)
  }

  /** A slot is usable exactly when it is set and its entry is younger than five minutes. */
  lemma FreshIff(slot: Option<CachedData>, now: int)
    ensures !Stale(slot, now) <==> slot.Some? && now - slot.value.timestamp < 300000
  {
  }

  /** The test is strict: an entry exactly five minutes old is already stale. */
  lemma ExpiresAtDuration(data: seq<Anime>, t: int, now: int)
    requires now >= t + 300000
    ensures Stale(Some(CachedData(data, t)), now)
    ensures !Stale(Some(CachedData(data, t)), t + 299999)
  {
  }

  class MemCache {
    var topAiringCache: Option<CachedData>
    var topSeasonalCache: Option<CachedData>
    var topAiringAnime: seq<Anime>
    var topSeasonalAnime: seq<Anime>

    /** Each published list is the payload of its slot, or empty while the slot was never written. */
    ghost predicate Valid()
      reads this
    {
      (if topAiringCache.Some? then topAiringAnime == topAiringCache.value.data else topAiringAnime == []) &&
      (if topSeasonalCache.Some? then topSeasonalAnime == topSeasonalCache.value.data else topSeasonalAnime == [])
    }

    /** Both slots start empty and both lists start empty. */
    constructor()
      ensures Valid()
      ensures topAiringCache == None && topSeasonalCache == None
      ensures topAiringAnime == [] && topSeasonalAnime == []
    {
      topAiringCache := None;
      topSeasonalCache := None;
      topAiringAnime := [];
      topSeasonalAnime := [];
    }

    /** `needsRefresh()` at wall-clock time `now`: some slot is empty or expired. */
    predicate NeedsRefresh(now: int)
      reads this
    {
      Stale(topAiringCache, now) || Stale(topSeasonalCache, now)
    }

    /** `updateTopAiring(data)` at time `now`: replaces the airing slot and list, nothing else. */
    method UpdateTopAiring(data: seq<Anime>, now: int)
      requires Valid()
      modifies this
      ensures Valid()
      ensures topAiringCache == Some(CachedData(data, now)) && topAiringAnime == data
      ensures topSeasonalCache == old(topSeasonalCache) && topSeasonalAnime == old(topSeasonalAnime)
    {
      topAiringCache := Some(CachedData(data, now));
      topAiringAnime := data;
    }

    /** `updateTopSeasonal(data)` at time `now`: replaces the seasonal slot and list, nothing else. */
    method UpdateTopSeasonal(data: seq<Anime>, now: int)
      requires Valid()
      modifies this
      ensures Valid()
      ensures topSeasonalCache == Some(CachedData(data, now)) && topSeasonalAnime == data
      ensures topAiringCache == old(topAiringCache) && topAiringAnime == old(topAiringAnime)
    {
      topSeasonalCache := Some(CachedData(data, now));
      topSeasonalAnime := data;
    }
  }

  /** A new cache needs a refresh at any time. */
  lemma NewCacheNeedsRefresh(c: MemCache, now: int)
    requires c.topAiringCache == None && c.topSeasonalCache == None
    ensures c.NeedsRefresh(now)
  {
  }

  /** No refresh is needed exactly when both slots are set and both entries are younger than five minutes. */
  lemma NeedsRefreshIff(c: MemCache, now: int)
    ensures !c.NeedsRefresh(now) <==>
      c.topAiringCache.Some? && now - c.topAiringCache.value.timestamp < 300000 &&
      c.topSeasonalCache.Some? && now - c.topSeasonalCache.value.timestamp < 300000
  {
  }

  /** Writing only the airing slot leaves a refresh due while the seasonal slot was never written. */
  method UpdateOnlyAiring(data: seq<Anime>, now: int) returns (c: MemCache)
    ensures c.Valid() && c.NeedsRefresh(now) && c.topAiringAnime == data && c.topSeasonalAnime == []
  {
    c := new MemCache();
    c.UpdateTopAiring(data, now);
  }

  /** Writing both slots at `t` makes the cache fresh until five minutes have passed. */
  method UpdateBoth(airing: seq<Anime>, seasonal: seq<Anime>, t: int, now: int) returns (c: MemCache)
    ensures c.Valid() && c.topAiringAnime == airing && c.topSeasonalAnime == seasonal
    ensures c.NeedsRefresh(now) <==> now - t >= 300000
  {
    c := new MemCache();
    c.UpdateTopAiring(airing, t);
    c.UpdateTopSeasonal(seasonal, t);
  }
}
