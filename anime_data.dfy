/**
 * The GraphQL client's argument handling: `getByFilter` turns sentinel and empty
 * filter values into absent arguments, and the authorising interceptor sends
 * the stored token as a bearer header and retries once on 401.
 */
module AnimeDataApi {
  import opened Wrappers
  import opened Text
  import opened Data
  import opened Config

  /** The variables of a `GetByFilterQuery`; `None` is an absent `Optional`. */
  datatype FilterQuery = FilterQuery(
    page: int,
    perPage: int,
    season: Option<MediaSeason>,
    seasonYear: Option<int>,
    status: Option<MediaStatus>,
    averageScoreGreater: int,
    search: Option<string>,
    isAdult: Option<bool>,
    genre: Option<seq<string>>)

  /** `getByFilter`: the query it sends for its arguments. */
  function GetByFilter(page: int, perPage: int, season: MediaSeason, seasonYear: Option<int>,
                       status: MediaStatus, averageScoreGreater: int, search: Option<string>,
                       isAdult: Option<bool>, genre: Option<seq<string>>): (q: FilterQuery)
    ensures q.page == page && q.perPage == perPage && q.averageScoreGreater == averageScoreGreater
    ensures q.season.None? <==> season == MediaSeason.Unknown
    ensures q.season.Some? ==> q.season.value == season
    ensures q.status.None? <==> status == MediaStatus.Unknown
    ensures q.status.Some? ==> q.status.value == status
    ensures q.seasonYear == seasonYear && q.isAdult == isAdult
    ensures q.search.None? <==> search.None? || search.value == ""
    ensures q.search.Some? ==> q.search == search
    ensures q.genre.None? <==> genre.None? || genre.value == []
    ensures q.genre.Some? ==> q.genre == genre
  {
    var nSeason := if season == MediaSeason.Unknown then None else Some(season);
    var nStatus := if status == MediaStatus.Unknown then None else Some(status);
    var nSearch := if search == Some("") || search.None? then None else search;
    var nGenre := if genre.None? || genre.value == [] then None else genre;
    FilterQuery(page, perPage, nSeason, seasonYear, nStatus, averageScoreGreater, nSearch, isAdult, nGenre)
  }

  /** Normalising an already normalised query's arguments sends the same query. */
  lemma GetByFilterIdempotent(q: FilterQuery)
    requires q.season != Some(MediaSeason.Unknown) && q.status != Some(MediaStatus.Unknown)
    requires q.search != Some("") && q.genre != Some([])
    ensures GetByFilter(q.page, q.perPage, q.season.GetOr(MediaSeason.Unknown), q.seasonYear,
                        q.status.GetOr(MediaStatus.Unknown), q.averageScoreGreater, q.search,
                        q.isAdult, q.genre) == q
  {
  }

  /** The token the interceptor sends: the stored token up to its first '&'. */
  function BearerToken(authToken: string): (t: string)
    ensures t <= authToken
    ensures '&' !in t
    ensures '&' in authToken ==> |t| < |authToken| && authToken[|t|] == '&'
    ensures '&' !in authToken ==> t == authToken
  {
    IndexOfChar(authToken, '&');
    SubstringBefore(authToken, "&", authToken)
  }

  /** The Authorization header value. */
  function AuthorizationHeader(authToken: string): (h: string)
    ensures |h| >= 7 && h[..7] == "Bearer " && h[7..] == BearerToken(authToken)
  {
    "Bearer " + BearerToken(authToken)
  }

  /** What the interceptor did: the Authorization headers it sent, in order, and the status it returned. */
  datatype Interception = Interception(headers: seq<string>, status: int)

  /**
   * `AuthorizationInterceptor.intercept`: `first` and `second` are the statuses
   * the chain answers to the first and (if made) second attempt.
   */
  function Intercept(authToken: string, first: int, second: int): (r: Interception)
    ensures 1 <= |r.headers| <= 2
    ensures forall i :: 0 <= i < |r.headers| ==> r.headers[i] == AuthorizationHeader(authToken)
    ensures |r.headers| == 2 <==> first == 401
    ensures first != 401 ==> r.status == first
    ensures first == 401 ==> r.status == second
  {
    var header := AuthorizationHeader(authToken);
    if first == 401 then Interception([header, header], second) else Interception([header], first)
  }

  /** A 401 answered by another 401 is handed back: there is no third attempt. */
  lemma NoSecondRetry(authToken: string)
    ensures Intercept(authToken, 401, 401) == Interception([AuthorizationHeader(authToken)] + [AuthorizationHeader(authToken)], 401)
  {
  }

  /** The user whose list `GetUserAnimeList` queries: fixed, whatever the configuration holds. */
  function UserListName(c: AppConfig): (name: string)
    ensures name == "Dubsky"
  {
    "Dubsky"
  }

  /** The user-list query does not depend on the configured user name. */
  lemma UserListIgnoresConfig(c: AppConfig, userName: string)
    ensures UserListName(c.(userName := userName)) == UserListName(c)
  {
  }
}
