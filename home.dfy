/**
 * The home screen: on first composition it checks for updates and, when the
 * cache needs it, fetches the airing and seasonal lists and stores both; the
 * version row's update button follows the check's result.
 */
module Home {
  import opened Wrappers
  import opened Seqs
  import opened Sorting
  import opened Data
  import opened MemCacheApi
  import opened AppVersion

  /**
   * `r` is what `sortedByDescending { rating }.take(3)` promises for `all`:
   * three of its items (all of them when there are fewer), highest rating
   * first, and nothing left out is rated above anything taken.
   */
  ghost predicate IsTopRated<T>(r: seq<T>, all: seq<T>, rating: T -> int) {
    && |r| == (if |all| < 3 then |all| else 3)
    && (forall i, j :: 0 <= i < j < |r| ==> rating(r[i]) >= rating(r[j]))
    && multiset(r) <= multiset(all)
    && (forall x, y :: x in multiset(all) - multiset(r) && y in r ==> rating(x) <= rating(y))
  }

  /** `sortedByDescending { rating }.take(3)`. */
  function TopRated<T>(all: seq<T>, rating: T -> int): (r: seq<T>)
    ensures IsTopRated(r, all, rating)
  {
    var key := (x: T) => Num(rating(x));
    var sorted := Sort(all, key, true);
    TakeOrdered(sorted, key, rating);
    TakeBest(sorted, key, rating);
    Take(sorted, 3)
  }

  /** The first three of a descending sort come highest rating first. */
  lemma TakeOrdered<T>(sorted: seq<T>, key: T -> Key, rating: T -> int)
    requires SortedBy(sorted, key, true)
    requires forall x :: key(x) == Num(rating(x))
    ensures forall i, j :: 0 <= i < j < |Take(sorted, 3)| ==> rating(Take(sorted, 3)[i]) >= rating(Take(sorted, 3)[j])
  {
    var r := Take(sorted, 3);
    forall i, j | 0 <= i < j < |r| ensures rating(r[i]) >= rating(r[j]) {
      assert r[i] == sorted[i] && r[j] == sorted[j];
      assert !Before(key(sorted[j]), key(sorted[i]), true);
    }
  }

  /** Nothing after the first three of a descending sort is rated above any of them. */
  lemma TakeBest<T>(sorted: seq<T>, key: T -> Key, rating: T -> int)
    requires SortedBy(sorted, key, true)
    requires forall x :: key(x) == Num(rating(x))
    ensures multiset(Take(sorted, 3)) <= multiset(sorted)
    ensures forall x, y :: x in multiset(sorted) - multiset(Take(sorted, 3)) && y in Take(sorted, 3) ==> rating(x) <= rating(y)
  {
    if |sorted| > 3 {
      var r := sorted[..3];
      var rest := sorted[3..];
      assert sorted == r + rest;
      assert multiset(sorted) - multiset(r) == multiset(rest);
      forall x, y | x in multiset(rest) && y in r ensures rating(x) <= rating(y) {
        var j :| 0 <= j < |rest| && rest[j] == x;
        var i :| 0 <= i < 3 && r[i] == y;
        assert !Before(key(sorted[3 + j]), key(sorted[i]), true);
      }
    }
  }

  /** The seasonal year the home screen shows when the response has none. */
  const MissingYear: int := 1500

  /** What the home screen stores: the first ten mapped items of a response, in response order. */
  function FirstTen(media: Option<seq<Option<Media>>>): (r: seq<Anime>)
    ensures var n := |ToAnimeList(media, MissingYear)|; |r| == if n < 10 then n else 10
    ensures forall i :: 0 <= i < |r| ==> r[i] == ToAnimeList(media, MissingYear)[i]
  {
    Take(ToAnimeList(media, MissingYear), 10)
  }

  /**
   * The launch effect: the version check always runs; the two fetches and the
   * two cache writes happen only when the cache needs a refresh at `now`. The
   * seasonal list is stored at time `t1`, then the airing list at `t2`.
   */
  method LoadHome(cache: MemCache, version: Fetch, airing: Option<seq<Option<Media>>>,
                  seasonal: Option<seq<Option<Media>>>, now: int, t1: int, t2: int)
    returns (versionCheck: VersionCheckResult, fetched: bool, topThree: seq<Anime>)
    requires cache.Valid()
    modifies cache
    ensures cache.Valid()
    ensures versionCheck == CheckForUpdates(version)
    ensures fetched == old(cache.NeedsRefresh(now))
    ensures !fetched ==> cache.topAiringCache == old(cache.topAiringCache) &&
                         cache.topSeasonalCache == old(cache.topSeasonalCache) &&
                         cache.topAiringAnime == old(cache.topAiringAnime) &&
                         cache.topSeasonalAnime == old(cache.topSeasonalAnime) && topThree == []
    ensures fetched ==> cache.topSeasonalAnime == FirstTen(seasonal) && cache.topAiringAnime == FirstTen(airing)
    ensures fetched ==> cache.topSeasonalCache == Some(CachedData(FirstTen(seasonal), t1)) &&
                        cache.topAiringCache == Some(CachedData(FirstTen(airing), t2))
    ensures fetched ==> topThree == TopRated(ToAnimeList(seasonal, MissingYear), (a: Anime) => a.rating)
    ensures fetched ==> (cache.NeedsRefresh(t2) <==> t2 - t1 >= CacheDuration)
  {
    versionCheck := CheckForUpdates(version);
    fetched := cache.NeedsRefresh(now);
    topThree := [];
    if fetched {
      var allSeasonal := ToAnimeList(seasonal, MissingYear);
      topThree := TopRated(allSeasonal, (a: Anime) => a.rating);
      var newTopSeasonal := FirstTen(seasonal);
      var newTopAiring := FirstTen(airing);
      cache.UpdateTopSeasonal(newTopSeasonal, t1);
      cache.UpdateTopAiring(newTopAiring, t2);
      assert !Stale(cache.topAiringCache, t2);
      assert Stale(cache.topSeasonalCache, t2) <==> t2 - t1 >= CacheDuration;
    }
  }

  /** `versionCheck ?: UpToDate`: before the check finishes the row shows "up to date". */
  function Shown(check: Option<VersionCheckResult>): (r: VersionCheckResult)
    ensures check.None? ==> r == UpToDate
    ensures check.Some? ==> r == check.value
  {
    check.GetOr(UpToDate)
  }

  /** The update button is enabled unless the result is `BetaVersion` or `UpToDate`. */
  predicate UpdateEnabled(r: VersionCheckResult) {
    r != BetaVersion && r != UpToDate
  }

  /** The button's label. */
  function UpdateLabel(r: VersionCheckResult): (text: string)
    ensures text == "Update" <==> r.UpdateAvailable?
    ensures text == "Beta" <==> r.BetaVersion?
    ensures text == "Up to date" <==> r.UpToDate? || r.Error?
  {
    match r
    case UpdateAvailable(_, _) => "Update"
    case BetaVersion => "Beta"
    case _ => "Up to date"
  }

  /** After a check, the button is enabled exactly when a newer version was found or the check failed. */
  lemma EnabledAfterCheck(f: Fetch)
    ensures UpdateEnabled(CheckForUpdates(f)) <==> CheckForUpdates(f).UpdateAvailable? || f.Failed?
  {
  }

  /** A failed check leaves the button enabled while its label says "Up to date". */
  lemma FailedCheckLooksUpToDate(message: Option<string>)
    ensures UpdateEnabled(CheckForUpdates(Failed(message)))
    ensures UpdateLabel(CheckForUpdates(Failed(message))) == "Up to date"
  {
  }
}
